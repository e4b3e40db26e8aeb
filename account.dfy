/** Accounts (models/account.rs): a user's balance and per-symbol positions. */
module Accounts {
  import opened Orders

  class Account {
    const userId: Uuid
    var balance: real
    var positions: map<string, real>

    /** The struct literal `Account { user_id, balance, positions }`. */
    constructor (userId: Uuid, balance: real, positions: map<string, real>)
      ensures this.userId == userId && this.balance == balance && this.positions == positions
    {
      this.userId := userId;
      this.balance := balance;
      this.positions := positions;
    }

    /** The quantity held in `symbol`; a symbol never traded is held at zero. */
    function GetPosition(symbol: string): (q: real)
      reads this
      ensures symbol !in positions ==> q == 0.0
      ensures symbol in positions ==> q == positions[symbol]
    {
      if symbol in positions then positions[symbol] else 0.0
    }

    /** Overwrites (does not add to) the quantity held in `symbol`. */
    method UpdatePosition(symbol: string, quantity: real)
      modifies this
      ensures positions == old(positions)[symbol := quantity]
      ensures balance == old(balance)
      ensures GetPosition(symbol) == quantity
      ensures forall s :: s != symbol ==> GetPosition(s) == old(GetPosition(s))
    {
      positions := positions[symbol := quantity];
    }
  }
}
