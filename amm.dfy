/** The automated market maker (market_maker/amm.rs): a table of liquidity pools keyed by
    "tokenA-tokenB", through which pools are created, funded, quoted and swapped against. */
module Amm {
  import opened Orders
  import opened Results
  import opened MarketTypes
  import opened LiquidityPools
  import opened Slippage
  import opened PriceImpact

  /** The table key of the pool trading `tokenA` against `tokenB`. */
  function PoolKey(tokenA: string, tokenB: string): (key: string)
    ensures |key| == |tokenA| + 1 + |tokenB|
    ensures key[..|tokenA|] == tokenA && key[|tokenA|] == '-' && key[|tokenA| + 1..] == tokenB
  {
    tokenA + "-" + tokenB
  }

  /** Keys are unambiguous as long as the first token names carry no hyphen. */
  lemma PoolKeyInjective(a: string, b: string, a': string, b': string)
    requires '-' !in a && '-' !in a'
    requires PoolKey(a, b) == PoolKey(a', b')
    ensures a == a' && b == b'
  {
  }

  /** With a hyphen in the first token, two different pairs share a key. */
  lemma PoolKeyCollides()
    ensures PoolKey("A-B", "C") == PoolKey("A", "B-C")
  {
  }

  /** A pair written with a slash is not the key of the pool written with the same tokens. */
  lemma SlashedPairIsNotAKey()
    ensures "USDC/ETH" != PoolKey("USDC", "ETH")
  {
    assert "USDC/ETH"[4] == '/';
  }

  /** The reserves seen from `inputToken`'s side: (input reserve, output reserve). Every token
      other than token A counts as token B. */
  function OrientedReserves(p: Pool, inputToken: string): (r: (real, real))
    ensures r == (p.reserveA, p.reserveB) || r == (p.reserveB, p.reserveA)
    ensures inputToken != p.tokenA ==> r == (p.reserveB, p.reserveA)
  {
    if inputToken == p.tokenA then (p.reserveA, p.reserveB) else (p.reserveB, p.reserveA)
  }

  /** A swap moves exactly the reserves its quote was computed on: the input reserve grows by the
      input and the output reserve shrinks by the output. */
  lemma SwapMovesOrientedReserves(p: Pool, inputToken: string, input: real, output: real)
    ensures var (inR, outR) := OrientedReserves(p, inputToken);
      OrientedReserves(Swapped(p, inputToken, input, output), inputToken) == (inR + input, outR - output)
  {
  }

  /** The divisions a quote on `p` performs are defined. */
  predicate QuoteDefined(calculator: PriceImpactCalculator, sqrt: real -> real, p: Pool, inputToken: string, input: real)
  {
    var (inR, outR) := OrientedReserves(p, inputToken);
    EstimateDefined(calculator, sqrt, input, inR, outR)
  }

  /** `quote` on one pool: the estimate on the oriented reserves, with the pool's fee on the
      input amount, or the estimate's error. */
  function QuoteOn(calculator: PriceImpactCalculator, sqrt: real -> real, p: Pool, inputToken: string, input: real)
    : (r: Result<SwapResult, MarketMakerError>)
    requires QuoteDefined(calculator, sqrt, p, inputToken, input)
    ensures var (inR, outR) := OrientedReserves(p, inputToken);
      var e := EstimateOutputWithImpact(calculator, sqrt, input, inR, outR);
      && (r.Err? <==> e.Err?)
      && (r.Err? ==> r.error == e.error)
      && (r.Ok? ==> r.value.inputAmount == input && r.value.feeAmount == Fee(p, input)
                    && r.value.outputAmount == e.value.0 && r.value.priceImpact == e.value.1)
  {
    var (inR, outR) := OrientedReserves(p, inputToken);
    var e := EstimateOutputWithImpact(calculator, sqrt, input, inR, outR);
    if e.Err? then Err(e.error)
    else Ok(SwapResult(input, e.value.0, e.value.1, Fee(p, input)))
  }

  /** On a pool with positive reserves, an accepted non-negative quote never promises more than
      the output reserve holds, and its impact is within the calculator's maximum. */
  lemma QuoteWithinReserve(calculator: PriceImpactCalculator, sqrt: real -> real, p: Pool, inputToken: string, input: real)
    requires p.reserveA > 0.0 && p.reserveB > 0.0 && input >= 0.0
    requires calculator.impactMultiplier >= 0.0 && calculator.maxImpact <= 2.0
    requires QuoteDefined(calculator, sqrt, p, inputToken, input)
    requires var (inR, outR) := OrientedReserves(p, inputToken); DepthFactor(sqrt, inR, outR) >= 0.0
    ensures var r := QuoteOn(calculator, sqrt, p, inputToken, input);
      var (inR, outR) := OrientedReserves(p, inputToken);
      r.Ok? ==> 0.0 <= r.value.outputAmount < outR && 0.0 <= r.value.priceImpact <= calculator.maxImpact
  {
    var (inR, outR) := OrientedReserves(p, inputToken);
    EstimateBounds(calculator, sqrt, input, inR, outR);
    IdealOutputBounds(input, inR, outR);
  }

  /** The fee is charged in the input token but subtracted from the output token: on a pool of
      1,000,000 USDC and 500 ETH with a 0.3% fee, a quote for 1,000 USDC promises under 0.5 ETH
      while the fee is 3, so the swap's net output is negative. */
  lemma NetOutputCanBeNegative(sqrt: real -> real)
    ensures var p := Pool(0, "USDC", "ETH", 1000000.0, 500.0, 0.003);
      var r := QuoteOn(PriceImpact.New(), sqrt, p, "USDC", 1000.0);
      r.Ok? && r.value.outputAmount < 0.5 && r.value.outputAmount - Fee(p, 1000.0) < 0.0
  {
  }

  /** What a swap on `p` needs to be defined: the quote's divisions, and a non-zero quoted output
      for the slippage ratio. */
  predicate SwapDefined(calculator: PriceImpactCalculator, sqrt: real -> real, p: Pool, inputToken: string, input: real)
  {
    && QuoteDefined(calculator, sqrt, p, inputToken, input)
    && (QuoteOn(calculator, sqrt, p, inputToken, input).Ok? ==> QuoteOn(calculator, sqrt, p, inputToken, input).value.outputAmount != 0.0)
  }

  class AutomatedMarketMaker {
    var pools: map<string, LiquidityPool>
    const priceCalculator: PriceImpactCalculator
    const slippageProtection: SlippageProtection
    /** The square root the depth factor uses. */
    const sqrt: real -> real

    /** No two keys share a pool object, and every pool sits under the key of its own tokens. */
    ghost predicate Valid()
      reads this, pools.Values
    {
      && (forall k1, k2 :: k1 in pools && k2 in pools && k1 != k2 ==> pools[k1] != pools[k2])
      && (forall k :: k in pools ==> k == PoolKey(pools[k].pool.tokenA, pools[k].pool.tokenB))
    }

    /** `AutomatedMarketMaker::new`: no pools, the default calculator and 2% slippage. */
    constructor (sqrt: real -> real)
      requires sqrt(0.0) == 0.0
      ensures Valid()
      ensures pools == map[]
      ensures priceCalculator == PriceImpact.New() && slippageProtection == SlippageProtection(0.02)
      ensures this.sqrt == sqrt
    {
      pools := map[];
      priceCalculator := PriceImpact.New();
      slippageProtection := SlippageProtection(0.02);
      this.sqrt := sqrt;
    }

    /** `create_pool`: a pair already in the table is `InvalidPoolParameters` and changes nothing;
        otherwise a new pool with no positions is filed under its key and its description
        returned. The new pool's id is given, since it comes from `Uuid::new_v4`. */
    method CreatePool(id: Uuid, tokenA: string, tokenB: string, initialA: real, initialB: real, feePercentage: real)
      returns (r: Result<Pool, MarketMakerError>)
      requires Valid()
      modifies this
      ensures Valid()
      ensures PoolKey(tokenA, tokenB) in old(pools) ==>
        r == Err(InvalidPoolParameters) && pools == old(pools)
      ensures PoolKey(tokenA, tokenB) !in old(pools) ==>
        && r == Ok(Pool(id, tokenA, tokenB, initialA, initialB, feePercentage))
        && PoolKey(tokenA, tokenB) in pools && fresh(pools[PoolKey(tokenA, tokenB)])
        && pools == old(pools)[PoolKey(tokenA, tokenB) := pools[PoolKey(tokenA, tokenB)]]
        && pools[PoolKey(tokenA, tokenB)].pool == r.value && pools[PoolKey(tokenA, tokenB)].positions == map[]
    {
      var pool := new LiquidityPool(id, tokenA, tokenB, initialA, initialB, feePercentage);
      var key := PoolKey(pool.TokenA(), pool.TokenB());
      if key in pools {
        return Err(InvalidPoolParameters);
      }
      var info := pool.PoolInfo();
      pools := pools[key := pool];
      r := Ok(info);
    }

    /** `add_liquidity` through the table: an unknown pair is `InvalidPoolParameters`; otherwise
        the pool's own `add_liquidity`, leaving every other pool as it was. */
    method AddLiquidity(pair: string, providerId: Uuid, a: real, b: real)
      returns (r: Result<PoolPosition, MarketMakerError>)
      requires Valid()
      modifies pools.Values
      ensures Valid()
      ensures pair !in pools ==> r == Err(InvalidPoolParameters) && unchanged(pools.Values)
      ensures pair in pools ==>
        && r == Ok(NewPosition(old(pools[pair].pool), providerId, a, b))
        && pools[pair].pool == Deposit(old(pools[pair].pool), a, b)
        && pools[pair].positions == old(pools[pair].positions)[providerId := r.value]
      ensures forall k :: k in pools && k != pair ==> unchanged(pools[k])
    {
      if pair !in pools {
        return Err(InvalidPoolParameters);
      }
      var pool := pools[pair];
      r := pool.AddLiquidity(providerId, a, b);
    }

    /** `quote`: an unknown pair is `InvalidPoolParameters`; otherwise the quote on that pool. */
    method Quote(pair: string, inputToken: string, input: real) returns (r: Result<SwapResult, MarketMakerError>)
      requires pair in pools ==> QuoteDefined(priceCalculator, sqrt, pools[pair].pool, inputToken, input)
      ensures pair !in pools ==> r == Err(InvalidPoolParameters)
      ensures pair in pools ==> r == QuoteOn(priceCalculator, sqrt, pools[pair].pool, inputToken, input)
    {
      if pair !in pools {
        return Err(InvalidPoolParameters);
      }
      var pool := pools[pair];
      var inputReserve, outputReserve;
      if inputToken == pool.TokenA() {
        inputReserve, outputReserve := pool.ReserveA(), pool.ReserveB();
      } else {
        inputReserve, outputReserve := pool.ReserveB(), pool.ReserveA();
      }
      var estimate := EstimateOutputWithImpact(priceCalculator, sqrt, input, inputReserve, outputReserve);
      if estimate.Err? {
        return Err(estimate.error);
      }
      var (output, impact) := estimate.value;
      r := Ok(SwapResult(input, output, impact, pool.CalculateFee(input)));
    }

    /** `swap`: the quote's error, then the slippage check on the quoted output, are returned
        with every pool unchanged; otherwise the fee on the input is taken from the quoted output
        and the pool swaps the input for that net output. Other pools are left as they were. */
    method Swap(pair: string, inputToken: string, input: real, minOutput: real)
      returns (r: Result<SwapResult, MarketMakerError>)
      requires Valid()
      requires pair in pools ==> SwapDefined(priceCalculator, sqrt, pools[pair].pool, inputToken, input)
      modifies pools.Values
      ensures Valid()
      ensures pair !in pools ==> r == Err(InvalidPoolParameters) && unchanged(pools.Values)
      ensures pair in pools ==>
        var p := old(pools[pair].pool);
        var q := QuoteOn(priceCalculator, sqrt, p, inputToken, input);
        && (q.Err? ==> r == Err(q.error) && unchanged(pools.Values))
        && (q.Ok? && CheckSlippage(slippageProtection, q.value.outputAmount, minOutput).Err? ==>
              r == Err(SlippageExceeded) && unchanged(pools.Values))
        && (q.Ok? && CheckSlippage(slippageProtection, q.value.outputAmount, minOutput).Ok? ==>
              var fee := Fee(p, input);
              var net := q.value.outputAmount - fee;
              && r == Ok(SwapResult(input, net, q.value.priceImpact, fee))
              && pools[pair].pool == Swapped(p, inputToken, input, net)
              && pools[pair].positions == old(pools[pair].positions))
      ensures forall k :: k in pools && k != pair ==> unchanged(pools[k])
    {
      var quote := Quote(pair, inputToken, input);
      if quote.Err? {
        return Err(quote.error);
      }
      var check := CheckSlippage(slippageProtection, quote.value.outputAmount, minOutput);
      if check.Err? {
        return Err(check.error);
      }
      var pool := pools[pair];
      var fee := pool.CalculateFee(input);
      var net := quote.value.outputAmount - fee;
      var _ := pool.ExecuteSwap(inputToken, input, net);
      r := Ok(SwapResult(input, net, quote.value.priceImpact, fee));
    }

    /** `get_pool_info`: an unknown pair is `InvalidPoolParameters`; otherwise that pool's
        description. */
    method GetPoolInfo(pair: string) returns (r: Result<Pool, MarketMakerError>)
      ensures pair !in pools ==> r == Err(InvalidPoolParameters)
      ensures pair in pools ==> r == Ok(pools[pair].pool)
    {
      if pair !in pools {
        return Err(InvalidPoolParameters);
      }
      r := Ok(pools[pair].PoolInfo());
    }
  }

  /** The table's scenarios: a new USDC/ETH pool reports what it was given, liquidity added under
      "USDC-ETH" carries the amounts supplied, and the slashed pair "USDC/ETH" finds no pool. */
  method CreateAddAndMiss(sqrt: real -> real, poolId: Uuid, providerId: Uuid)
    returns (info: Result<Pool, MarketMakerError>, position: Result<PoolPosition, MarketMakerError>,
             slashed: Result<Pool, MarketMakerError>)
    requires sqrt(0.0) == 0.0
    ensures info.Ok? && info.value.tokenA == "USDC" && info.value.tokenB == "ETH"
    ensures info.value.reserveA == 1000000.0 && info.value.reserveB == 500.0
    ensures position.Ok? && position.value.tokenAAmount == 10000.0 && position.value.tokenBAmount == 5.0
    ensures slashed == Err(InvalidPoolParameters)
  {
    var amm := new AutomatedMarketMaker(sqrt);
    info := amm.CreatePool(poolId, "USDC", "ETH", 1000000.0, 500.0, 0.003);
    assert PoolKey("USDC", "ETH") == "USDC-ETH";
    position := amm.AddLiquidity("USDC-ETH", providerId, 10000.0, 5.0);
    SlashedPairIsNotAKey();
    slashed := amm.GetPoolInfo("USDC/ETH");
  }
}
