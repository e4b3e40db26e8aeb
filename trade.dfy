/** Trades (models/trade.rs): the record of one fill between a resting maker and a taker. */
module Trades {
  import opened Orders

  datatype Trade = Trade(id: Uuid, orderId: Uuid, price: real, quantity: real, createdAt: Instant)

  /** `Trade::new`: the trade is priced and identified by the maker; the taker is not consulted.
      The trade's own id and instant come from `Uuid::new_v4` and `Utc::now` and are given. */
  function NewTrade(id: Uuid, maker: Order, taker: Order, quantity: real, now: Instant): (t: Trade)
    ensures t.orderId == maker.id
    ensures t.price == maker.price
    ensures t.quantity == quantity
    ensures t.id == id && t.createdAt == now
  {
    Trade(id, maker.id, maker.price, quantity, now)
  }

  /** No field of a trade depends on the taker order. */
  lemma TakerIsIgnored(id: Uuid, maker: Order, taker1: Order, taker2: Order, quantity: real, now: Instant)
    ensures NewTrade(id, maker, taker1, quantity, now) == NewTrade(id, maker, taker2, quantity, now)
  {
  }

  /** Total quantity of a sequence of trades. */
  function SumQuantities(ts: seq<Trade>): real
  {
    if ts == [] then 0.0 else SumQuantities(ts[..|ts| - 1]) + ts[|ts| - 1].quantity
  }

  lemma SumQuantitiesAppend(ts: seq<Trade>, t: Trade)
    ensures SumQuantities(ts + [t]) == SumQuantities(ts) + t.quantity
  {
    assert (ts + [t])[..|ts|] == ts;
  }
}
