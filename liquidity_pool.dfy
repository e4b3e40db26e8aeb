/** One liquidity pool (market_maker/liquidity_pool.rs): two token reserves and the positions of
    the providers who added to them. */
module LiquidityPools {
  import opened Orders
  import opened Results
  import opened MarketTypes

  /** The share credited for adding `a + b` to reserves totalling `reserveA + reserveB`: the whole
      pool (1) when the reserves are empty, otherwise the added amount over the total before the
      addition. */
  function SharePercentage(reserveA: real, reserveB: real, a: real, b: real): (share: real)
    ensures reserveA + reserveB == 0.0 ==> share == 1.0
    ensures reserveA + reserveB != 0.0 ==> share * (reserveA + reserveB) == a + b
  {
    var total := reserveA + reserveB;
    if total == 0.0 then 1.0 else (a + b) / total
  }

  /** The reserves after a provider adds `a` of token A and `b` of token B: only the reserves
      change, and together they grow by what was added. */
  function Deposit(p: Pool, a: real, b: real): (q: Pool)
    ensures q.(reserveA := p.reserveA, reserveB := p.reserveB) == p
    ensures q.reserveA + q.reserveB == p.reserveA + p.reserveB + a + b
  {
    p.(reserveA := p.reserveA + a, reserveB := p.reserveB + b)
  }

  /** The reserves after a provider's recorded amounts are taken out again: only the reserves
      change, and adding the position back gives the reserves before. */
  function Withdraw(p: Pool, position: PoolPosition): (q: Pool)
    ensures q.(reserveA := p.reserveA, reserveB := p.reserveB) == p
    ensures q.reserveA + position.tokenAAmount == p.reserveA && q.reserveB + position.tokenBAmount == p.reserveB
  {
    p.(reserveA := p.reserveA - position.tokenAAmount, reserveB := p.reserveB - position.tokenBAmount)
  }

  /** The reserves after a swap paying `input` of `inputToken` in and `output` of the other token
      out; every token other than `tokenA` counts as token B. Only the reserves change, and
      together they move by the input less the output. */
  function Swapped(p: Pool, inputToken: string, input: real, output: real): (q: Pool)
    ensures q.(reserveA := p.reserveA, reserveB := p.reserveB) == p
    ensures q.reserveA + q.reserveB == p.reserveA + p.reserveB + input - output
  {
    if inputToken == p.tokenA then
      p.(reserveA := p.reserveA + input, reserveB := p.reserveB - output)
    else
      p.(reserveB := p.reserveB + input, reserveA := p.reserveA - output)
  }

  /** The fee on `amount`: the pool's fee rate times the amount, in the units of `amount`. For a
      rate between 0 and 1 it is never negative and never more than the amount. */
  function Fee(p: Pool, amount: real): (fee: real)
    ensures amount >= 0.0 && 0.0 <= p.feePercentage <= 1.0 ==> 0.0 <= fee <= amount
  {
    amount * p.feePercentage
  }

  /** The position `add_liquidity` records for `providerId`. */
  function NewPosition(p: Pool, providerId: Uuid, a: real, b: real): (position: PoolPosition)
    ensures position.poolId == p.id && position.providerId == providerId
    ensures position.tokenAAmount == a && position.tokenBAmount == b
    ensures position.sharePercentage == SharePercentage(p.reserveA, p.reserveB, a, b)
  {
    PoolPosition(p.id, providerId, a, b, SharePercentage(p.reserveA, p.reserveB, a, b))
  }

  /** Adding liquidity and then removing the position it recorded restores the reserves. */
  lemma AddThenRemoveRestores(p: Pool, providerId: Uuid, a: real, b: real)
    ensures Withdraw(Deposit(p, a, b), NewPosition(p, providerId, a, b)) == p
  {
  }

  /** Adding liquidity moves each reserve by exactly the amount supplied and leaves the pool's
      id, tokens and fee as they were. */
  lemma DepositMovesReservesExactly(p: Pool, a: real, b: real)
    ensures var q := Deposit(p, a, b);
      && q.reserveA - p.reserveA == a && q.reserveB - p.reserveB == b
      && q.id == p.id && q.tokenA == p.tokenA && q.tokenB == p.tokenB
      && q.feePercentage == p.feePercentage
  {
  }

  /** A swap adds the input to one reserve and takes the output from the other, and changes
      nothing else about the pool. */
  lemma SwapMovesReservesExactly(p: Pool, inputToken: string, input: real, output: real)
    ensures var q := Swapped(p, inputToken, input, output);
      && q.id == p.id && q.tokenA == p.tokenA && q.tokenB == p.tokenB
      && q.feePercentage == p.feePercentage
      && q.reserveA + q.reserveB == p.reserveA + p.reserveB + input - output
      && (inputToken == p.tokenA ==> q.reserveA == p.reserveA + input && q.reserveB == p.reserveB - output)
      && (inputToken != p.tokenA ==> q.reserveB == p.reserveB + input && q.reserveA == p.reserveA - output)
  {
  }

  /** A swap of token A is undone by the swap of the other token with the amounts exchanged. */
  lemma SwapBackRestores(p: Pool, otherToken: string, input: real, output: real)
    requires otherToken != p.tokenA
    ensures Swapped(Swapped(p, p.tokenA, input, output), otherToken, output, input) == p
  {
  }

  /** The fee is proportional to the amount: none on nothing, and additive. */
  lemma FeeIsLinear(p: Pool, x: real, y: real)
    ensures Fee(p, 0.0) == 0.0
    ensures Fee(p, x + y) == Fee(p, x) + Fee(p, y)
  {
  }

  class LiquidityPool {
    var pool: Pool
    var positions: map<Uuid, PoolPosition>

    /** `LiquidityPool::new`; the fresh pool id is given, since it comes from `Uuid::new_v4`. */
    constructor (id: Uuid, tokenA: string, tokenB: string, reserveA: real, reserveB: real, feePercentage: real)
      ensures pool == Pool(id, tokenA, tokenB, reserveA, reserveB, feePercentage)
      ensures positions == map[]
    {
      pool := Pool(id, tokenA, tokenB, reserveA, reserveB, feePercentage);
      positions := map[];
    }

    /** `pool_info`. */
    function PoolInfo(): Pool
      reads this
    {
      pool
    }

    function TokenA(): string
      reads this
    {
      pool.tokenA
    }

    function TokenB(): string
      reads this
    {
      pool.tokenB
    }

    function ReserveA(): real
      reads this
    {
      pool.reserveA
    }

    function ReserveB(): real
      reads this
    {
      pool.reserveB
    }

    function FeePercentage(): real
      reads this
    {
      pool.feePercentage
    }

    /** `add_liquidity`: credits the share computed on the reserves before the addition, grows
        both reserves and records the position under `providerId`, replacing any earlier one. */
    method AddLiquidity(providerId: Uuid, a: real, b: real) returns (r: Result<PoolPosition, MarketMakerError>)
      modifies this
      ensures r == Ok(NewPosition(old(pool), providerId, a, b))
      ensures pool == Deposit(old(pool), a, b)
      ensures positions == old(positions)[providerId := r.value]
    {
      var position := NewPosition(pool, providerId, a, b);
      pool := Deposit(pool, a, b);
      positions := positions[providerId := position];
      r := Ok(position);
    }

    /** `remove_liquidity`: an unknown provider is `InsufficientLiquidity` and changes nothing;
        otherwise the recorded amounts leave the reserves and the position is deleted. */
    method RemoveLiquidity(providerId: Uuid) returns (r: Result<PoolPosition, MarketMakerError>)
      modifies this
      ensures providerId !in old(positions) ==>
        r == Err(InsufficientLiquidity) && pool == old(pool) && positions == old(positions)
      ensures providerId in old(positions) ==>
        && r == Ok(old(positions)[providerId])
        && pool == Withdraw(old(pool), r.value)
        && positions == old(positions) - {providerId}
    {
      if providerId !in positions {
        return Err(InsufficientLiquidity);
      }
      var position := positions[providerId];
      positions := positions - {providerId};
      pool := Withdraw(pool, position);
      r := Ok(position);
    }

    /** `execute_swap`: always succeeds, and never checks that the reserves stay non-negative. */
    method ExecuteSwap(inputToken: string, input: real, output: real) returns (r: Result<(), MarketMakerError>)
      modifies this
      ensures r == Ok(())
      ensures pool == Swapped(old(pool), inputToken, input, output)
      ensures positions == old(positions)
    {
      pool := Swapped(pool, inputToken, input, output);
      r := Ok(());
    }

    /** `calculate_fee`: the fee at this pool's rate, never negative and never more than the
        amount for a rate between 0 and 1. */
    function CalculateFee(amount: real): (fee: real)
      reads this
      ensures amount >= 0.0 && 0.0 <= pool.feePercentage <= 1.0 ==> 0.0 <= fee <= amount
    {
      Fee(pool, amount)
    }
  }

  /** The pool's two scenarios: a new pool reports what it was given, and adding to an empty
      pool credits the whole pool, after which removing the position empties the reserves again. */
  method AddToEmptyThenRemove(id: Uuid, providerId: Uuid)
    returns (info: Pool, added: PoolPosition, removed: PoolPosition, reserveA: real, reserveB: real)
    ensures info == Pool(id, "USDC", "ETH", 0.0, 0.0, 0.003)
    ensures added.tokenAAmount == 1000.0 && added.tokenBAmount == 1.0 && added.sharePercentage == 1.0
    ensures removed == added
    ensures reserveA == 0.0 && reserveB == 0.0
  {
    var pool := new LiquidityPool(id, "USDC", "ETH", 0.0, 0.0, 0.003);
    info := pool.PoolInfo();
    var r := pool.AddLiquidity(providerId, 1000.0, 1.0);
    added := r.value;
    var s := pool.RemoveLiquidity(providerId);
    removed := s.value;
    reserveA, reserveB := pool.ReserveA(), pool.ReserveB();
  }
}
