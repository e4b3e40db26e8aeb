/** Price impact (market_maker/price_impact.rs): how far a trade of a given size moves a pool, and
    the constant-product output reduced by half that impact. The square root the depth factor
    uses is an approximation the model does not describe; it is passed in as `sqrt`. */
module PriceImpact {
  import opened Results
  import opened MarketTypes

  datatype PriceImpactCalculator = PriceImpactCalculator(maxImpact: real, impactMultiplier: real)

  /** `PriceImpactCalculator::new`: at most 25% impact, multiplier 1.1. `with_config` is the
      datatype constructor itself. */
  function New(): (c: PriceImpactCalculator)
    ensures c.maxImpact == 0.25 && c.impactMultiplier == 1.1
  {
    PriceImpactCalculator(0.25, 1.1)
  }

  /** The divisions `calculate_price_impact` performs are defined: past the zero-reserve check,
      `reserve + 2 * input` is not zero. */
  predicate ImpactDefined(input: real, reserve: real)
  {
    reserve != 0.0 ==> reserve + input * 2.0 != 0.0
  }

  /** The impact before the depth adjustment. */
  function BaseImpact(input: real, reserve: real): (impact: real)
    requires reserve + input * 2.0 != 0.0
    ensures impact * (reserve + input * 2.0) == input
  {
    input / (reserve + input * 2.0)
  }

  /** The impact after the depth adjustment, which only orders larger than a tenth of the
      reserve receive. */
  function AdjustedImpact(c: PriceImpactCalculator, input: real, reserve: real, depth: real): (impact: real)
    requires reserve != 0.0 && ImpactDefined(input, reserve)
    ensures input <= reserve * 0.1 || depth == 0.0 || c.impactMultiplier == 0.0 ==>
      impact == BaseImpact(input, reserve)
  {
    var base := BaseImpact(input, reserve);
    if input > reserve * 0.1 then
      base * (1.0 + (input / reserve - 0.1) * c.impactMultiplier * depth)
    else
      base
  }

  /** `calculate_price_impact`: an empty reserve is `InsufficientLiquidity`; otherwise the adjusted
      impact is returned unless it exceeds the maximum, which is `PriceImpactTooHigh`. */
  function CalculatePriceImpact(c: PriceImpactCalculator, input: real, reserve: real, depth: real)
    : (r: Result<real, MarketMakerError>)
    requires ImpactDefined(input, reserve)
    ensures reserve == 0.0 <==> r == Err(InsufficientLiquidity)
    ensures reserve != 0.0 ==> (r == Err(PriceImpactTooHigh) <==> AdjustedImpact(c, input, reserve, depth) > c.maxImpact)
    ensures r.Ok? ==> r.value == AdjustedImpact(c, input, reserve, depth) && r.value <= c.maxImpact
  {
    if reserve == 0.0 then
      Err(InsufficientLiquidity)
    else
      var impact := AdjustedImpact(c, input, reserve, depth);
      if impact > c.maxImpact then Err(PriceImpactTooHigh) else Ok(impact)
  }

  /** Up to a tenth of the reserve, the depth factor plays no part. */
  lemma SmallOrderImpact(c: PriceImpactCalculator, input: real, reserve: real, depth: real)
    requires reserve != 0.0 && ImpactDefined(input, reserve)
    requires input <= reserve * 0.1
    ensures AdjustedImpact(c, input, reserve, depth) == BaseImpact(input, reserve)
  {
  }

  /** On a positive reserve, the base impact of a non-negative order lies in [0, 1/2). */
  lemma BaseImpactBelowHalf(input: real, reserve: real)
    requires reserve > 0.0 && input >= 0.0
    ensures 0.0 <= BaseImpact(input, reserve) < 0.5
  {
    var d := reserve + input * 2.0;
    var b := BaseImpact(input, reserve);
    // the distance to one half is reserve / (2 d), a positive quotient
    assert (0.5 - b) * (2.0 * d) == reserve;
  }

  /** On a positive reserve, a larger order has a strictly larger base impact. */
  lemma BaseImpactGrows(x: real, y: real, reserve: real)
    requires reserve > 0.0 && 0.0 <= x < y
    ensures BaseImpact(x, reserve) < BaseImpact(y, reserve)
  {
    var dx, dy := reserve + x * 2.0, reserve + y * 2.0;
    var bx, bY := BaseImpact(x, reserve), BaseImpact(y, reserve);
    // bx < by  <==>  x * dy < y * dx  <==>  x * reserve < y * reserve
    assert x * dy < y * dx;
    if bx >= bY {
      assert bx * dx * dy >= bY * dx * dy;
    }
  }

  /** Above a tenth of the reserve the adjustment only ever raises the impact, for a
      non-negative multiplier and depth factor. */
  lemma LargeOrderImpactAtLeastBase(c: PriceImpactCalculator, input: real, reserve: real, depth: real)
    requires reserve > 0.0 && input >= 0.0
    requires c.impactMultiplier >= 0.0 && depth >= 0.0
    ensures AdjustedImpact(c, input, reserve, depth) >= BaseImpact(input, reserve)
  {
    BaseImpactBelowHalf(input, reserve);
    if input > reserve * 0.1 {
      var ratio := input / reserve;
      assert ratio * reserve == input;
      assert ratio > 0.1;
      var m := (ratio - 0.1) * c.impactMultiplier;
      assert m >= 0.0;
      assert m * depth >= 0.0;
    }
  }

  /** The cases checked for the default calculator and a stricter one. */
  lemma ImpactExamples()
    ensures CalculatePriceImpact(New(), 100.0, 10000.0, 1.0).Ok?
    ensures CalculatePriceImpact(New(), 100.0, 10000.0, 1.0).value < 0.02
    ensures CalculatePriceImpact(New(), 500.0, 10000.0, 1.0).Ok?
    ensures CalculatePriceImpact(New(), 500.0, 10000.0, 1.0).value < 0.10
    ensures CalculatePriceImpact(New(), 1500.0, 10000.0, 1.1).Ok?
    ensures 0.05 < CalculatePriceImpact(New(), 1500.0, 10000.0, 1.1).value < 0.25
    ensures CalculatePriceImpact(New(), 5000.0, 10000.0, 2.0) == Err(PriceImpactTooHigh)
    ensures CalculatePriceImpact(PriceImpactCalculator(0.05, 2.0), 1000.0, 10000.0, 1.5).Err?
  {
  }

  /** The divisions of the depth factor are defined: by the smaller reserve. */
  predicate DepthDefined(inputReserve: real, outputReserve: real)
  {
    if inputReserve > outputReserve then outputReserve != 0.0 else inputReserve != 0.0
  }

  /** The depth factor: the square root of the larger reserve over the smaller one, so a balanced
      pool has the square root of 1. */
  function DepthFactor(sqrt: real -> real, inputReserve: real, outputReserve: real): (depth: real)
    requires DepthDefined(inputReserve, outputReserve)
    ensures inputReserve == outputReserve ==> depth == sqrt(1.0)
  {
    if inputReserve > outputReserve then sqrt(inputReserve / outputReserve)
    else
      assert inputReserve == outputReserve ==> outputReserve / inputReserve == 1.0;
      sqrt(outputReserve / inputReserve)
  }

  /** The depth factor does not depend on which reserve is the input. */
  lemma DepthFactorIsSymmetric(sqrt: real -> real, inputReserve: real, outputReserve: real)
    requires DepthDefined(inputReserve, outputReserve) && DepthDefined(outputReserve, inputReserve)
    ensures DepthFactor(sqrt, inputReserve, outputReserve) == DepthFactor(sqrt, outputReserve, inputReserve)
  {
  }

  /** With `decimal_sqrt(0) = 0`, a zero larger reserve gives no depth adjustment. The ratio can
      only be zero when one reserve is zero and the other negative, since the division is by the
      smaller reserve: this is the one case where the zero branch of `decimal_sqrt` is reached. */
  lemma DepthOfZeroRatio(sqrt: real -> real, inputReserve: real, outputReserve: real)
    requires sqrt(0.0) == 0.0
    requires DepthDefined(inputReserve, outputReserve)
    requires (if inputReserve > outputReserve then inputReserve else outputReserve) == 0.0
    ensures DepthFactor(sqrt, inputReserve, outputReserve) == 0.0
  {
  }

  /** The constant-product output: what keeps `input_reserve * output_reserve` fixed. Nothing
      paid in, nothing paid out. */
  function IdealOutput(input: real, inputReserve: real, outputReserve: real): (output: real)
    requires inputReserve + input != 0.0
    ensures input == 0.0 ==> output == 0.0
  {
    outputReserve - (inputReserve * outputReserve) / (inputReserve + input)
  }

  /** The ideal output keeps the product of the reserves unchanged. */
  lemma ConstantProduct(input: real, inputReserve: real, outputReserve: real)
    requires inputReserve + input != 0.0
    ensures (inputReserve + input) * (outputReserve - IdealOutput(input, inputReserve, outputReserve))
         == inputReserve * outputReserve
  {
    var k := inputReserve * outputReserve;
    var n := inputReserve + input;
    assert (k / n) * n == k;
  }

  /** On positive reserves, a non-negative order gets a non-negative output below the output
      reserve. */
  lemma IdealOutputBounds(input: real, inputReserve: real, outputReserve: real)
    requires inputReserve > 0.0 && outputReserve > 0.0 && input >= 0.0
    ensures 0.0 <= IdealOutput(input, inputReserve, outputReserve) < outputReserve
  {
    var n := inputReserve + input;
    var q := (inputReserve * outputReserve) / n;
    assert q * n == inputReserve * outputReserve;
    if q > outputReserve {
      assert q * n > outputReserve * n;
      assert outputReserve * n >= outputReserve * inputReserve;
    }
  }

  /** The ideal output less half the impact, as a fraction of it. */
  function Discounted(ideal: real, impact: real): real
  {
    ideal * (1.0 - impact * 0.5)
  }

  /** What `estimate_output_with_impact` needs to divide: the depth factor's ratio, the impact
      formula, and, when the impact is accepted, the new input reserve. */
  predicate EstimateDefined(c: PriceImpactCalculator, sqrt: real -> real, input: real,
                            inputReserve: real, outputReserve: real)
  {
    && DepthDefined(inputReserve, outputReserve)
    && ImpactDefined(input, inputReserve)
    && (CalculatePriceImpact(c, input, inputReserve, DepthFactor(sqrt, inputReserve, outputReserve)).Ok? ==>
          inputReserve + input != 0.0)
  }

  /** `estimate_output_with_impact`: the impact's error is passed on; otherwise the ideal output
      loses half the impact, and the pair (output, impact) is returned. */
  function EstimateOutputWithImpact(c: PriceImpactCalculator, sqrt: real -> real, input: real,
                                    inputReserve: real, outputReserve: real)
    : (r: Result<(real, real), MarketMakerError>)
    requires EstimateDefined(c, sqrt, input, inputReserve, outputReserve)
    ensures var impact := CalculatePriceImpact(c, input, inputReserve, DepthFactor(sqrt, inputReserve, outputReserve));
      && (impact.Err? ==> r == Err(impact.error))
      && (impact.Ok? ==>
            r == Ok((Discounted(IdealOutput(input, inputReserve, outputReserve), impact.value), impact.value)))
  {
    var depth := DepthFactor(sqrt, inputReserve, outputReserve);
    var impact := CalculatePriceImpact(c, input, inputReserve, depth);
    if impact.Err? then Err(impact.error)
    else
      var ideal := IdealOutput(input, inputReserve, outputReserve);
      Ok((Discounted(ideal, impact.value), impact.value))
  }

  /** On positive reserves, an accepted non-negative order's estimated output lies between zero
      and the ideal output, and its impact is at least zero and at most the maximum, as long as
      the maximum is at most 2 and the multiplier and depth factor are not negative. */
  lemma EstimateBounds(c: PriceImpactCalculator, sqrt: real -> real, input: real,
                       inputReserve: real, outputReserve: real)
    requires inputReserve > 0.0 && outputReserve > 0.0 && input >= 0.0
    requires c.impactMultiplier >= 0.0 && c.maxImpact <= 2.0
    requires DepthFactor(sqrt, inputReserve, outputReserve) >= 0.0
    requires EstimateDefined(c, sqrt, input, inputReserve, outputReserve)
    ensures var r := EstimateOutputWithImpact(c, sqrt, input, inputReserve, outputReserve);
      r.Ok? ==>
        && 0.0 <= r.value.1 <= c.maxImpact
        && 0.0 <= r.value.0 <= IdealOutput(input, inputReserve, outputReserve)
  {
    var depth := DepthFactor(sqrt, inputReserve, outputReserve);
    var r := EstimateOutputWithImpact(c, sqrt, input, inputReserve, outputReserve);
    if r.Ok? {
      var impact := r.value.1;
      var ideal := IdealOutput(input, inputReserve, outputReserve);
      LargeOrderImpactAtLeastBase(c, input, inputReserve, depth);
      BaseImpactBelowHalf(input, inputReserve);
      IdealOutputBounds(input, inputReserve, outputReserve);
      assert 0.0 <= impact <= 2.0;
      var f := 1.0 - impact * 0.5;
      assert 0.0 <= f <= 1.0;
      assert r.value.0 == ideal * f;
      assert ideal * f <= ideal * 1.0;
    }
  }

  /** The estimates checked on a balanced and on an unbalanced pool, for any square root: both
      orders are small enough that the depth factor plays no part. */
  lemma EstimateExamples(sqrt: real -> real)
    ensures var r := EstimateOutputWithImpact(New(), sqrt, 100.0, 10000.0, 10000.0);
      r.Ok? && r.value.0 > 90.0 && r.value.1 < 0.1
    ensures var r := EstimateOutputWithImpact(New(), sqrt, 100.0, 20000.0, 10000.0);
      r.Ok? && r.value.0 > 45.0 && r.value.1 > 0.001
  {
  }
}
