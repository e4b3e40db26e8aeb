/** The market maker's records and errors (market_maker/types.rs). */
module MarketTypes {
  import opened Orders

  /** A pool's public description: its two tokens, their reserves and the fee rate. */
  datatype Pool = Pool(
    id: Uuid,
    tokenA: string,
    tokenB: string,
    reserveA: real,
    reserveB: real,
    feePercentage: real)

  /** What one provider put into a pool and the share it was credited with. */
  datatype PoolPosition = PoolPosition(
    poolId: Uuid,
    providerId: Uuid,
    tokenAAmount: real,
    tokenBAmount: real,
    sharePercentage: real)

  /** A quote or an executed swap. */
  datatype SwapResult = SwapResult(
    inputAmount: real,
    outputAmount: real,
    priceImpact: real,
    feeAmount: real)

  datatype MarketMakerError =
    | InsufficientLiquidity
    | PriceImpactTooHigh
    | SlippageExceeded
    | InvalidPoolParameters
}
