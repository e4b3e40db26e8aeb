/** Slippage protection (market_maker/slippage.rs): a swap is refused when the quoted output falls
    too far short of the caller's minimum, measured relative to the quoted output. */
module Slippage {
  import opened Results
  import opened MarketTypes

  datatype SlippageProtection = SlippageProtection(maxSlippage: real)

  /** The slippage of `actual` against `minOutput`: the shortfall relative to `actual`. */
  function RelativeShortfall(actual: real, minOutput: real): (slippage: real)
    requires actual != 0.0
    ensures slippage * actual == actual - minOutput
  {
    (actual - minOutput) / actual
  }

  /** `check_slippage`; the division panics on a zero `actual`, hence the precondition. */
  function CheckSlippage(sp: SlippageProtection, actual: real, minOutput: real): (r: Result<(), MarketMakerError>)
    requires actual != 0.0
    ensures r.Err? <==> RelativeShortfall(actual, minOutput) > sp.maxSlippage
    ensures r.Err? ==> r.error == SlippageExceeded
  {
    if RelativeShortfall(actual, minOutput) > sp.maxSlippage then Err(SlippageExceeded) else Ok(())
  }

  /** For a positive quoted output the check passes exactly when the minimum is at least the
      output reduced by the maximum slippage. */
  lemma PositiveOutputThreshold(sp: SlippageProtection, actual: real, minOutput: real)
    requires actual > 0.0
    ensures CheckSlippage(sp, actual, minOutput).Ok? <==> minOutput >= actual * (1.0 - sp.maxSlippage)
  {
    var s := RelativeShortfall(actual, minOutput);
    if s > sp.maxSlippage {
      assert s * actual > sp.maxSlippage * actual;
    } else {
      assert s * actual <= sp.maxSlippage * actual;
    }
  }

  /** For a negative quoted output the comparison turns round: the check passes exactly when the
      minimum is at most the output reduced by the maximum slippage. */
  lemma NegativeOutputThreshold(sp: SlippageProtection, actual: real, minOutput: real)
    requires actual < 0.0
    ensures CheckSlippage(sp, actual, minOutput).Ok? <==> minOutput <= actual * (1.0 - sp.maxSlippage)
  {
    var s := RelativeShortfall(actual, minOutput);
    if s > sp.maxSlippage {
      assert s * actual < sp.maxSlippage * actual;
    } else {
      assert s * actual >= sp.maxSlippage * actual;
    }
  }

  /** A minimum at or above a positive quoted output always passes when the maximum slippage is
      not negative. */
  lemma MinimumAboveOutputPasses(sp: SlippageProtection, actual: real, minOutput: real)
    requires sp.maxSlippage >= 0.0
    requires minOutput >= actual > 0.0
    ensures CheckSlippage(sp, actual, minOutput).Ok?
  {
    PositiveOutputThreshold(sp, actual, minOutput);
  }

  /** The two cases checked for a 2% maximum: a minimum of 98 on 100 passes, one of 97 fails. */
  lemma TwoPercentExamples()
    ensures CheckSlippage(SlippageProtection(0.02), 100.0, 98.0) == Ok(())
    ensures CheckSlippage(SlippageProtection(0.02), 100.0, 97.0) == Err(SlippageExceeded)
  {
  }
}
