# Order book and market maker, modelled in Dafny

This project models the trading core of the Rust crate `backend/orderbook`. It has two parts.

- **Order book and matching.**
  - The limit order book (`OrderBook`) keeps a bid queue and an ask queue of resting order ids and a map from id to order. An incoming order is filled against the opposite queue, one maker at a time, by `min(remaining)`. Each fill becomes a trade at the maker's price. A limit order that is not filled rests in the book.
  - The price-only matching engine (`MatchingEngine`) pops every crossing resting order. The incoming order rests only when nothing matched.
  - Both sit on the value types `Order` and `Trade`. An `Account` maps symbols to quantities.
- **Automated market maker.**
  - A liquidity pool (`LiquidityPool`) holds two reserves and its providers' positions.
  - The slippage check (`SlippageProtection`) and the price-impact formula (`PriceImpactCalculator`) are pure.
  - The market maker (`AutomatedMarketMaker`) keeps a table of pools keyed `"tokenA-tokenB"`. It creates, funds, quotes and swaps against them.

Types and structure:
- `Decimal` amounts are `real`. The crate's decimals are exact base-10 numbers, so `real` is faithful up to rounding.
- `Uuid` and `DateTime<Utc>` are `int`. Fresh ids and the current instant are parameters.
- A `PriorityQueue<I, P>` is a `map<I, P>`. `peek` is any entry of greatest priority (module `PriorityQueues`). The queues keep the crate's orientation:
  - the ask queue is a max-heap on `(price, timestamp)`, so a buy meets the **highest** ask first;
  - the bid queue is keyed `Reverse(...)`, so a sell meets the **lowest** bid first.

  The model proves what the code does with this ordering and does not correct it.
- Classes model the things the source changes in place: `OrderBook`, `MatchingEngine`, `LiquidityPool`, `AutomatedMarketMaker` and `Account`. Everything else is functions and lemmas.
- Each matching loop is a `while` loop. Its invariant is a recursive ghost function:
  - `Replay` for the order book, `Popped` for the engine;
  - each describes the passes the loop could have made so far;
  - lemmas prove that every such pass keeps the book consistent and that the pass the loop stops at has the promised outcome.

Files, one module each: `results.dfy`, `order.dfy`, `trade.dfy`, `account.dfy`, `priority_queue.dfy`, `orderbook.dfy`, `matching_engine.dfy`, `market_types.dfy`, `liquidity_pool.dfy`, `slippage.dfy`, `price_impact.dfy`, `amm.dfy`.

## Model

| member | source | states |
|---|---|---|
| Orders.NewOrder | backend/orderbook/src/models/order.rs:35-57 | every field is the argument given; `filled_quantity` is zero; `timestamp`, `created_at` and `updated_at` are the same instant |
| Orders.Fill | backend/orderbook/src/engine/orderbook.rs:100-101 | adding `q` to the filled quantity lowers the remaining quantity by exactly `q` and changes no other field |
| Orders.Order.RemainingQuantity | backend/orderbook/src/models/order.rs:59-61 | the remaining quantity plus the filled quantity is the quantity |
| Orders.Order.IsFilled | backend/orderbook/src/models/order.rs:63-65 | an order is filled exactly when nothing remains to fill |
| Orders.FilledIffNothingRemains | backend/orderbook/src/models/order.rs:59-65 | an order is filled exactly when its remaining quantity is at most zero; remaining plus filled is the quantity |
| Orders.NewOrderIsOpen | backend/orderbook/src/models/order.rs:43-65 | a new order with a positive quantity is not filled, and its remaining quantity is its quantity |
| Orders.FillingTheRemainderFills | backend/orderbook/src/models/order.rs:59-65 | filling what remains fills the order to exactly its quantity |
| Trades.NewTrade | backend/orderbook/src/models/trade.rs:18-26 | the trade carries the maker's id and the maker's price, and exactly the quantity given |
| Trades.TakerIsIgnored | backend/orderbook/src/models/trade.rs:18-26 | two different takers give the same trade |
| Trades.SumQuantitiesAppend | backend/orderbook/src/engine/orderbook.rs:104-105 | pushing a trade adds its quantity to the traded total |
| Accounts.Account.constructor | backend/orderbook/src/models/account.rs:7-12 | the account holds the user, balance and positions given |
| Accounts.Account.GetPosition | backend/orderbook/src/models/account.rs:15-17 | a symbol with no entry is held at zero; otherwise its stored quantity |
| Accounts.Account.UpdatePosition | backend/orderbook/src/models/account.rs:19-22 | the symbol's position is overwritten, not added to; afterwards it reads back as the new quantity; other symbols and the balance are unchanged |
| PriorityQueues.PeekExists | backend/orderbook/src/engine/orderbook.rs:89 | a non-empty queue under a total preorder always has an entry that `peek` may return |
| PriorityQueues.PeeksTie | backend/orderbook/src/engine/orderbook.rs:89 | two entries `peek` may return have tied priorities |
| OrderBooks.StampOrdersAreTotal | backend/orderbook/src/engine/orderbook.rs:20-21 | the `(price, timestamp)` order of the ask queue and its `Reverse` on the bid queue are total preorders |
| OrderBooks.MatchQuantity | backend/orderbook/src/engine/orderbook.rs:96 | a fill never exceeds what either side has left, and equals one of the two |
| OrderBooks.MatchStep | backend/orderbook/src/engine/orderbook.rs:96-101 | one fill completes the taker or the maker and overfills neither (filled ≤ quantity is kept) |
| OrderBooks.TopOutranks | backend/orderbook/src/engine/orderbook.rs:89 | the peeked order is in the queue and ranks no later than every other queued order |
| OrderBooks.OutranksIsTransitive | backend/orderbook/src/engine/orderbook.rs:20-21 | the order in which the queue yields orders is transitive |
| OrderBooks.MatchStarts | backend/orderbook/src/engine/orderbook.rs:84-88 | a consistent book with no trades yet satisfies the loop invariant |
| OrderBooks.StepKeepsInvariant | backend/orderbook/src/engine/orderbook.rs:89-116 | one iteration on the peeked maker keeps the invariant and either fills the taker or pops a maker, the loop's termination measure |
| OrderBooks.Step | backend/orderbook/src/engine/orderbook.rs:95-110 | one loop iteration: appends one trade against the peeked order at its price; no order enters or leaves the map; the taker or the maker ends up filled |
| OrderBooks.StepAppends | backend/orderbook/src/engine/orderbook.rs:104-105 | an iteration appends exactly one trade, against a maker that had not traded before, and adds its quantity to the total |
| OrderBooks.StepShaped | backend/orderbook/src/engine/orderbook.rs:95-110 | an iteration keeps every queued id resting, open and on its own side in the order map |
| OrderBooks.StepFilled | backend/orderbook/src/engine/orderbook.rs:95-110 | an iteration keeps each traded maker filled by exactly its trades and every other order as it was |
| OrderBooks.StepTraded | backend/orderbook/src/engine/orderbook.rs:100-105 | each trade names a distinct queued maker, at its price, whose fill grew by exactly the trade's quantity; the k-th trade carries the k-th fresh id and instant |
| OrderBooks.StepUntouched | backend/orderbook/src/engine/orderbook.rs:108-110 | only filled makers leave the queue, and they stay in the order map |
| OrderBooks.StepRanked | backend/orderbook/src/engine/orderbook.rs:89-93 | trades follow queue order, and what stays queued ranks after every traded maker |
| OrderBooks.StepTaken | backend/orderbook/src/engine/orderbook.rs:96-101 | the taker is filled by exactly the traded total, never beyond its quantity, and every trade but the last left it open |
| OrderBooks.OpenUntilLastAppend | backend/orderbook/src/engine/orderbook.rs:113-115 | a trade made while the taker is still open keeps every trade but the last leaving the taker open |
| OrderBooks.StepProgresses | backend/orderbook/src/engine/orderbook.rs:108-115 | an iteration fills the taker or shrinks the queue |
| OrderBooks.MatchFinishes | backend/orderbook/src/engine/orderbook.rs:89-118 | where the loop stops (queue empty, taker filled, or top refused on price), nothing traded exactly when the queue was empty or its top failed the price test, once something traded it stops only when the taker is filled or the queue is empty, and no trade follows the one that filled the taker |
| OrderBooks.ReplayKeepsInvariant | backend/orderbook/src/engine/orderbook.rs:89-116 | every pass the loop can reach from a consistent book keeps the invariant (induction on the iterations) |
| OrderBooks.ReplayStep | backend/orderbook/src/engine/orderbook.rs:89-116 | taking the top when it passes the price test is one more legal iteration |
| OrderBooks.ReplayFinishes | backend/orderbook/src/engine/orderbook.rs:89-118 | when the loop stops, the book is consistent and the outcome is as promised, including that it stopped as soon as the taker was filled |
| OrderBooks.OrderBook.constructor | backend/orderbook/src/engine/orderbook.rs:27-35 | an empty, consistent book for the symbol |
| OrderBooks.OrderBook.ProcessOrder | backend/orderbook/src/engine/orderbook.rs:37-63 | returns `Ok` with the trades of the matching pass and broadcasts exactly those; the opposite queue, the makers' new fills, the trade quantities, prices and order, the limit-price stop and the stop as soon as the order is filled are those of `MatchOutcome` for the order's side; an unfilled limit order rests under its `(price, timestamp)` with its filled quantity, and a market or filled order does not; the book stays consistent |
| OrderBooks.OrderBook.MatchOrder | backend/orderbook/src/engine/orderbook.rs:40-49 | the side dispatch: a buy has the asks' `MatchOutcome`, a sell the bids'; the order's own queue is untouched; the taker is filled by the traded total; trades are against resting opposite-side orders at their prices |
| OrderBooks.OrderBook.CancelOrder | backend/orderbook/src/engine/orderbook.rs:65-82 | a known id leaves the map and its side's queue and is returned; an unknown id returns `None` and changes nothing; the book stays consistent |
| OrderBooks.OrderBook.MatchBuyOrder | backend/orderbook/src/engine/orderbook.rs:84-119 | the buy meets the asks highest first; it stops at the first dearer ask (limit only), when filled, or when the asks run out; the full outcome is `MatchOutcome` |
| OrderBooks.OrderBook.MatchSellOrder | backend/orderbook/src/engine/orderbook.rs:121-156 | the sell meets the bids lowest first; it stops at the first cheaper bid (limit only), when filled, or when the bids run out; the full outcome is `MatchOutcome` |
| OrderBooks.OrderBook.AddOrderToBook | backend/orderbook/src/engine/orderbook.rs:158-176 | the order joins its side's queue under `(price, timestamp)` and the map; the other queue is unchanged; the book stays consistent |
| MatchingEngines.PriceOrdersAreTotal | backend/orderbook/src/engine/matching_engine.rs:13-14 | the price order of the sell queue and its `Reverse` on the buy queue are total preorders |
| MatchingEngines.IdsAppend | backend/orderbook/src/engine/matching_engine.rs:53 | pushing a match appends its id |
| MatchingEngines.TopExists | backend/orderbook/src/engine/matching_engine.rs:47 | a non-empty queue always has an entry to peek |
| MatchingEngines.TopOutranks | backend/orderbook/src/engine/matching_engine.rs:47 | the peeked order ranks no later than every queued order |
| MatchingEngines.Sweep | backend/orderbook/src/engine/matching_engine.rs:47-56 | nothing is taken exactly when the queue is empty or holds a price that fails the limit; then the queue is untouched; otherwise every queued order is taken, best-ranked first, each exactly as stored in the order map, and the queue is left empty |
| MatchingEngines.PoppedSweeps | backend/orderbook/src/engine/matching_engine.rs:47-56 | every sequence of pops the loop can make takes distinct queued orders, as stored, in queue order (induction on the pops) |
| MatchingEngines.SweepPops | backend/orderbook/src/engine/matching_engine.rs:52-55 | popping a crossing top is one more legal iteration |
| MatchingEngines.SweepStops | backend/orderbook/src/engine/matching_engine.rs:48-50 | a top that fails the limit stops the loop, and then nothing was taken |
| MatchingEngines.SweepEmpties | backend/orderbook/src/engine/matching_engine.rs:47 | a loop that ran the queue dry took every order in it |
| MatchingEngines.SweepStepOrigin | backend/orderbook/src/engine/matching_engine.rs:52-53 | each popped order came from the queue, as stored in the map |
| MatchingEngines.SweepStepCoverage | backend/orderbook/src/engine/matching_engine.rs:54 | each queued order is either still queued or taken |
| MatchingEngines.SweepStepRank | backend/orderbook/src/engine/matching_engine.rs:47 | the orders are taken in queue order |
| MatchingEngines.TakesTheOnlyOrder | backend/orderbook/src/engine/matching_engine.rs:43-65 | sweeping a one-order queue takes exactly that order |
| MatchingEngines.MatchingEngine.constructor | backend/orderbook/src/engine/matching_engine.rs:19-25 | empty queues and map |
| MatchingEngines.MatchingEngine.AddOrder | backend/orderbook/src/engine/matching_engine.rs:27-41 | dispatches on side, ignoring order type; the engine stays consistent |
| MatchingEngines.MatchingEngine.MatchBuyOrder | backend/orderbook/src/engine/matching_engine.rs:43-65 | nothing matches exactly when the sell queue is empty or holds a price above the buy's, and then the buy rests in its queue and the map; otherwise every sell is taken, highest first, each a resting sell as stored; the matched sells stay in the map and the buy is stored nowhere |
| MatchingEngines.MatchingEngine.MatchSellOrder | backend/orderbook/src/engine/matching_engine.rs:67-89 | the mirror image: nothing matches exactly when the buy queue is empty or holds a price below the sell's, and then the sell rests; otherwise every buy is taken, lowest first |
| MatchingEngines.SellThenBuy | backend/orderbook/src/engine/matching_engine.rs:97-145 | the first order into an empty engine matches nothing; a buy at the price of the one resting sell returns exactly that sell |
| LiquidityPools.Deposit | backend/orderbook/src/market_maker/liquidity_pool.rs:78-79 | only the reserves change, and together they grow by the two amounts added |
| LiquidityPools.Withdraw | backend/orderbook/src/market_maker/liquidity_pool.rs:90-91 | only the reserves change; adding the position's amounts back gives the reserves before |
| LiquidityPools.Swapped | backend/orderbook/src/market_maker/liquidity_pool.rs:102-108 | only the reserves change, and together they move by the input less the output |
| LiquidityPools.Fee | backend/orderbook/src/market_maker/liquidity_pool.rs:113-115 | for a non-negative amount and a rate in [0, 1], the fee lies between zero and the amount |
| LiquidityPools.SharePercentage | backend/orderbook/src/market_maker/liquidity_pool.rs:63-68 | the whole pool (1) when both reserves sum to zero; otherwise a share that, times the reserves before the addition, is the amount added |
| LiquidityPools.NewPosition | backend/orderbook/src/market_maker/liquidity_pool.rs:70-76 | the position records the pool, the provider, the amounts and the share on the reserves before the addition |
| LiquidityPools.AddThenRemoveRestores | backend/orderbook/src/market_maker/liquidity_pool.rs:78-93 | adding liquidity and removing the recorded position restores the pool |
| LiquidityPools.DepositMovesReservesExactly | backend/orderbook/src/market_maker/liquidity_pool.rs:78-79 | each reserve grows by exactly its amount; id, tokens and fee are unchanged |
| LiquidityPools.SwapMovesReservesExactly | backend/orderbook/src/market_maker/liquidity_pool.rs:96-111 | token A in: the input adds to reserve A and the output leaves reserve B; any other token: the mirror image; tokens, id and fee are unchanged |
| LiquidityPools.SwapBackRestores | backend/orderbook/src/market_maker/liquidity_pool.rs:96-111 | a swap of token A is undone by the reverse swap with the amounts exchanged |
| LiquidityPools.FeeIsLinear | backend/orderbook/src/market_maker/liquidity_pool.rs:113-115 | the fee is zero on nothing and additive |
| LiquidityPools.LiquidityPool.constructor | backend/orderbook/src/market_maker/liquidity_pool.rs:13-31 | stores the given tokens, reserves and fee, with no positions |
| LiquidityPools.LiquidityPool.AddLiquidity | backend/orderbook/src/market_maker/liquidity_pool.rs:57-83 | returns the position with the share on the old reserves; both reserves grow by the amounts; the position replaces any earlier one of the provider |
| LiquidityPools.LiquidityPool.RemoveLiquidity | backend/orderbook/src/market_maker/liquidity_pool.rs:85-94 | an unknown provider is `InsufficientLiquidity` and nothing changes; otherwise the recorded amounts leave the reserves and the position is deleted and returned |
| LiquidityPools.LiquidityPool.ExecuteSwap | backend/orderbook/src/market_maker/liquidity_pool.rs:96-111 | always `Ok`; the reserves move as `Swapped` says, with no check that they stay non-negative; positions unchanged |
| LiquidityPools.LiquidityPool.CalculateFee | backend/orderbook/src/market_maker/liquidity_pool.rs:113-115 | the fee at the pool's own rate lies between zero and the amount, for a non-negative amount and a rate in [0, 1] |
| LiquidityPools.AddToEmptyThenRemove | backend/orderbook/src/market_maker/liquidity_pool.rs:123-178 | a new pool reports what it was given; adding to an empty pool credits share 1; removing that position empties the reserves again |
| Slippage.RelativeShortfall | backend/orderbook/src/market_maker/slippage.rs:18 | the slippage times the quoted output is the shortfall below it |
| Slippage.CheckSlippage | backend/orderbook/src/market_maker/slippage.rs:13-25 | fails, with `SlippageExceeded`, exactly when the relative shortfall exceeds the maximum |
| Slippage.PositiveOutputThreshold | backend/orderbook/src/market_maker/slippage.rs:18-24 | for a positive quoted output, passes exactly when the minimum is at least the output times (1 − maximum) |
| Slippage.NegativeOutputThreshold | backend/orderbook/src/market_maker/slippage.rs:18-24 | for a negative quoted output the comparison turns round |
| Slippage.MinimumAboveOutputPasses | backend/orderbook/src/market_maker/slippage.rs:18-24 | a minimum at or above a positive quoted output always passes |
| Slippage.TwoPercentExamples | backend/orderbook/src/market_maker/slippage.rs:33-44 | at 2%, (100, 98) passes and (100, 97) fails |
| PriceImpact.New | backend/orderbook/src/market_maker/price_impact.rs:11-16 | the default calculator allows at most 25% impact and uses multiplier 1.1 |
| PriceImpact.BaseImpact | backend/orderbook/src/market_maker/price_impact.rs:62 | the base impact times `reserve + 2·input` is the input |
| PriceImpact.CalculatePriceImpact | backend/orderbook/src/market_maker/price_impact.rs:51-78 | `InsufficientLiquidity` exactly on an empty reserve; otherwise `PriceImpactTooHigh` exactly when the adjusted impact exceeds the maximum, so every `Ok` value is the adjusted impact and at most the maximum |
| PriceImpact.AdjustedImpact | backend/orderbook/src/market_maker/price_impact.rs:65-70 | the base impact is left as it is up to a tenth of the reserve, and also whenever the depth factor or the multiplier is zero |
| PriceImpact.SmallOrderImpact | backend/orderbook/src/market_maker/price_impact.rs:62-70 | up to a tenth of the reserve the impact is `input / (reserve + 2·input)` |
| PriceImpact.BaseImpactBelowHalf | backend/orderbook/src/market_maker/price_impact.rs:62 | on a positive reserve a non-negative order's base impact is in [0, 1/2) |
| PriceImpact.BaseImpactGrows | backend/orderbook/src/market_maker/price_impact.rs:62 | on a positive reserve the base impact grows strictly with the order |
| PriceImpact.LargeOrderImpactAtLeastBase | backend/orderbook/src/market_maker/price_impact.rs:65-68 | above a tenth of the reserve the adjustment never lowers the impact |
| PriceImpact.ImpactExamples | backend/orderbook/src/market_maker/price_impact.rs:130-205 | the default calculator (0.25, 1.1): 100 on 10000 is under 2%, 500 under 10%, 1500 at depth 1.1 between 5% and 25%, 5000 at depth 2 is `PriceImpactTooHigh`; with (0.05, 2.0), 1000 at depth 1.5 fails |
| PriceImpact.DepthFactor | backend/orderbook/src/market_maker/price_impact.rs:87-91 | a balanced pool's depth factor is the square root of 1 |
| PriceImpact.DepthFactorIsSymmetric | backend/orderbook/src/market_maker/price_impact.rs:87-91 | the depth factor is the same whichever reserve is the input |
| PriceImpact.DepthOfZeroRatio | backend/orderbook/src/market_maker/price_impact.rs:27-29 | with `decimal_sqrt(0) = 0`, a zero larger reserve (one reserve zero, the other negative) gives depth factor zero |
| PriceImpact.IdealOutput | backend/orderbook/src/market_maker/price_impact.rs:95-97 | nothing paid in, nothing paid out |
| PriceImpact.ConstantProduct | backend/orderbook/src/market_maker/price_impact.rs:95-97 | the ideal output keeps `input_reserve · output_reserve` unchanged |
| PriceImpact.IdealOutputBounds | backend/orderbook/src/market_maker/price_impact.rs:95-97 | on positive reserves a non-negative order's ideal output is in [0, output reserve) |
| PriceImpact.EstimateOutputWithImpact | backend/orderbook/src/market_maker/price_impact.rs:80-103 | impact errors are passed on; otherwise the output is the ideal output less half the impact, returned with the impact |
| PriceImpact.EstimateBounds | backend/orderbook/src/market_maker/price_impact.rs:80-103 | on positive reserves an accepted non-negative order's output lies between zero and the ideal output, and its impact between zero and the maximum |
| PriceImpact.EstimateExamples | backend/orderbook/src/market_maker/price_impact.rs:173-192 | 100 on a balanced 10000/10000 pool gives more than 90 at under 10% impact; 100 on 20000/10000 gives more than 45 at over 0.1% impact |
| Amm.PoolKey | backend/orderbook/src/market_maker/amm.rs:35 | the key is token A, a hyphen, then token B |
| Amm.PoolKeyInjective | backend/orderbook/src/market_maker/amm.rs:35 | keys identify the pair when token A names carry no hyphen |
| Amm.PoolKeyCollides | backend/orderbook/src/market_maker/amm.rs:35 | with a hyphen in token A, two different pairs share a key |
| Amm.SlashedPairIsNotAKey | backend/orderbook/src/market_maker/amm.rs:35 | "USDC/ETH" is not the key of the USDC–ETH pool |
| Amm.OrientedReserves | backend/orderbook/src/market_maker/amm.rs:74-78 | the pool's two reserves in some order; any token other than token A reads them as (B, A) |
| Amm.SwapMovesOrientedReserves | backend/orderbook/src/market_maker/amm.rs:74-78 | a swap adds the input to the reserve the quote read as input and takes the output from the one it read as output |
| Amm.QuoteOn | backend/orderbook/src/market_maker/amm.rs:74-88 | the estimate on the reserves oriented by the input token, with fee `input · fee_percentage`, or the estimate's error |
| Amm.QuoteWithinReserve | backend/orderbook/src/market_maker/amm.rs:74-88 | on positive reserves an accepted non-negative quote never promises more than the output reserve, at an impact within the maximum |
| Amm.NetOutputCanBeNegative | backend/orderbook/src/market_maker/amm.rs:112-113 | on 1,000,000 USDC / 500 ETH at 0.3%, a 1,000 USDC quote is under 0.5 while the fee is 3, so the net output is negative |
| Amm.AutomatedMarketMaker.constructor | backend/orderbook/src/market_maker/amm.rs:18-24 | no pools, the default calculator, 2% maximum slippage |
| Amm.AutomatedMarketMaker.CreatePool | backend/orderbook/src/market_maker/amm.rs:26-46 | a duplicate key is `InvalidPoolParameters` and the table is unchanged; otherwise a fresh pool with the given tokens, reserves and fee and no positions is filed under its key and described in the result |
| Amm.AutomatedMarketMaker.AddLiquidity | backend/orderbook/src/market_maker/amm.rs:48-61 | an unknown pair is `InvalidPoolParameters` and no pool changes; otherwise the pool's own `add_liquidity`, and every other pool is unchanged |
| Amm.AutomatedMarketMaker.Quote | backend/orderbook/src/market_maker/amm.rs:63-89 | an unknown pair is `InvalidPoolParameters`; otherwise the quote on that pool; no state changes |
| Amm.AutomatedMarketMaker.Swap | backend/orderbook/src/market_maker/amm.rs:91-123 | quote errors, then a failed slippage check on the quoted output, return with every pool unchanged; otherwise the fee on the input is taken from the quoted output, and the pool swaps the input for that net output; other pools are unchanged |
| Amm.AutomatedMarketMaker.GetPoolInfo | backend/orderbook/src/market_maker/amm.rs:125-131 | an unknown pair is `InvalidPoolParameters`; otherwise that pool's description |
| Amm.CreateAddAndMiss | backend/orderbook/src/market_maker/amm.rs:139-179 | a new USDC/ETH pool reports its tokens and reserves; liquidity added under "USDC-ETH" carries the amounts supplied; "USDC/ETH" finds no pool |

## Left out

- `decimal_sqrt` (backend/orderbook/src/market_maker/price_impact.rs:26-49) is a Newton iteration rounded to 8 places. It is a function parameter `sqrt`. The only property kept is `sqrt(0) = 0`, which the market maker's constructor requires.
- `rust_decimal` rounding to 28 digits and overflow are not modelled: amounts are exact reals. Divisions that panic on zero are preconditions:
  - slippage on a zero quoted output;
  - the depth factor's ratio on a zero smaller reserve;
  - `reserve + 2·input`;
  - the new input reserve when the impact is accepted.
- `Arc`, `RwLock`, `DashMap` and `async` are left out. Every operation is one sequential method. Interleavings between the read and write locks in `swap` are not modelled. So the second lookup of the pair in `swap` (amm.rs:107-109) always finds the pool the quote found, and the model does not repeat it.
- `Uuid::new_v4` and `Utc::now` are parameters:
  - `tradeId(k)` and `tradeTime(k)` are the id and the instant of the k-th trade of a call, so each trade gets its own;
  - pools get their id at creation.
- OrderBooks.OrderBook.ProcessOrder, MatchingEngines.MatchingEngine.AddOrder: both require the incoming order's id to be new. Ids come from `Uuid::new_v4`. A reused id could rest on both queues, and a cancellation would then leave a queued id with no order.
- OrderBooks.OrderBook.AddOrderToBook: requires an unfilled order with a new id. Its only caller, `process_order`, passes an unfilled limit order fresh from matching.
- The matching loops skip a queued id that has no order in the map (orderbook.rs:95 and matching_engine.rs:52). Such a loop never advances. The consistency invariant `Valid` rules this case out, so the model does not include the spin.
- The `trade_tx` channel send in `process_order` is the ghost log `sent`. A send failure is ignored in the source, so it is ignored here too.
- The matching loops work on local copies of the queue and the order map and write them back at the end. The source mutates them in place under a lock. No other code observes the difference.
- The getters of `LiquidityPool` are plain field reads with no contract.
- `println!` in `swap`, and the serde derives, are left out.
- The swap tests at amm.rs:181-263 are not encoded. They call `swap` with "USDC/ETH" against a pool keyed "USDC-ETH", so as written they reach `InvalidPoolParameters`. Amm.SlashedPairIsNotAKey and Amm.CreateAddAndMiss state this.
- Amm.NetOutputCanBeNegative documents what `swap` does: the fee is in input-token units but is subtracted from an output-token amount. The model keeps this behaviour and does not correct it.
- `OrderBookError` is declared for completeness. None of the modelled operations returns an error.
