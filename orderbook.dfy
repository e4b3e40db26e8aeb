/** The limit order book (engine/orderbook.rs): two priority queues of resting order ids, a map from
    id to order, and a matching loop per side that fills the incoming order against the opposite
    queue, one maker at a time. */
module OrderBooks {
  import opened Results
  import opened Orders
  import opened Trades
  import opened PriorityQueues

  datatype OrderBookError = OrderNotFound | InsufficientQuantity | InvalidPrice

  /** The queue priority of a resting order: its (price, timestamp) tuple. */
  datatype Stamp = Stamp(price: real, time: Instant)

  function StampOf(o: Order): Stamp
  {
    Stamp(o.price, o.timestamp)
  }

  /** Rust's lexicographic order on the tuple (price, timestamp): the ask queue's priority. */
  predicate StampLe(a: Stamp, b: Stamp)
  {
    a.price < b.price || (a.price == b.price && a.time <= b.time)
  }

  /** The order of `Reverse((price, timestamp))`: the bid queue's priority. */
  predicate ReverseStampLe(a: Stamp, b: Stamp)
  {
    StampLe(b, a)
  }

  lemma StampOrdersAreTotal()
    ensures TotalPreorder(StampLe) && TotalPreorder(ReverseStampLe)
  {
  }

  /** `Decimal::min`. */
  function Min(a: real, b: real): real
  {
    if a <= b then a else b
  }

  /** One fill: as much as both sides still have. */
  function MatchQuantity(taker: Order, maker: Order): (q: real)
    ensures q <= taker.RemainingQuantity() && q <= maker.RemainingQuantity()
    ensures q == taker.RemainingQuantity() || q == maker.RemainingQuantity()
  {
    Min(taker.RemainingQuantity(), maker.RemainingQuantity())
  }

  /** One fill completes the taker or the maker, and overfills neither. */
  lemma MatchStep(taker: Order, maker: Order)
    ensures Fill(taker, MatchQuantity(taker, maker)).IsFilled() || Fill(maker, MatchQuantity(taker, maker)).IsFilled()
    ensures Fill(taker, MatchQuantity(taker, maker)).filledQuantity <= taker.quantity
    ensures Fill(maker, MatchQuantity(taker, maker)).filledQuantity <= maker.quantity
  {
  }

  /** The maker id of each trade, in order. */
  function MakerIds(ts: seq<Trade>): (ids: seq<Uuid>)
    ensures |ids| == |ts|
    ensures forall i :: 0 <= i < |ts| ==> ids[i] == ts[i].orderId
  {
    seq(|ts|, i requires 0 <= i < |ts| => ts[i].orderId)
  }

  /** Every id in `q` names an open order of `side` in `orders`, queued under its own (price, timestamp). */
  ghost predicate RestsIn(q: Queue<Uuid, Stamp>, orders: map<Uuid, Order>, side: Side)
  {
    forall id :: id in q ==>
      id in orders && orders[id].side == side && !orders[id].IsFilled() && q[id] == StampOf(orders[id])
  }

  /* Both matching loops, `match_buy_order` (buying) and `match_sell_order` (selling), walk the
     opposite queue the same way; what follows states their progress once, for either side. */

  /** The side of the resting orders a buy (`buying`) or a sell trades against. */
  function MakerSide(buying: bool): Side
  {
    if buying then Sell else Buy
  }

  /** `a` leaves the opposite queue no later than `b`: the ask queue yields its highest
      (price, timestamp) first, the bid queue its lowest. */
  predicate Outranks(buying: bool, a: Stamp, b: Stamp)
  {
    if buying then StampLe(b, a) else StampLe(a, b)
  }

  /** `id` may be what `peek` returns from the opposite queue `q`. */
  predicate IsTop(buying: bool, q: Queue<Uuid, Stamp>, id: Uuid)
  {
    if buying then IsPeek(q, StampLe, id) else IsPeek(q, ReverseStampLe, id)
  }

  /** The price test of the loops: a limit buy trades only at or below its price, a limit sell
      only at or above it; a market order trades at any price. */
  predicate Accepts(buying: bool, order: Order, price: real)
  {
    order.orderType == Market || (if buying then price <= order.price else order.price <= price)
  }

  /** What a matching pass has changed so far: the opposite queue, the order map, the incoming
      order and the trades made. */
  datatype Pass = Pass(opp: Queue<Uuid, Stamp>, book: map<Uuid, Order>, taker: Order, trades: seq<Trade>)

  /** One iteration of a matching loop on the order `top` it peeked: fill both orders by
      `MatchQuantity`, record the trade at the maker's price, pop the maker if it is now filled.
      This is the reference definition of the loop bodies of `MatchBuyOrder` and `MatchSellOrder`,
      which `Replay` ties them to. One trade, against the order under `top`, is appended; no
      order enters or leaves the map; and the taker or the maker ends up filled. */
  function Step(p: Pass, top: Uuid, tradeId: nat -> Uuid, tradeTime: nat -> Instant): (s: Pass)
    requires top in p.book
    ensures |s.trades| == |p.trades| + 1
    ensures s.trades[|p.trades|].orderId == p.book[top].id && s.trades[|p.trades|].price == p.book[top].price
    ensures s.book.Keys == p.book.Keys
    ensures s.taker.IsFilled() || s.book[top].IsFilled()
  {
    var q := MatchQuantity(p.taker, p.book[top]);
    var taker := Fill(p.taker, q);
    var maker := Fill(p.book[top], q);
    var trade := NewTrade(tradeId(|p.trades|), maker, taker, q, tradeTime(|p.trades|));
    Pass(if maker.IsFilled() then p.opp - {top} else p.opp, p.book[top := maker], taker, p.trades + [trade])
  }

  /** The book keeps its shape: both queues rest in the order map, and the opposite queue only loses items. */
  ghost predicate Shaped(buying: bool, own: Queue<Uuid, Stamp>, opp0: Queue<Uuid, Stamp>,
                         orders0: map<Uuid, Order>, p: Pass)
  {
    && (forall id :: id in p.book ==> p.book[id].id == id)
    && RestsIn(own, p.book, if buying then Buy else Sell)
    && RestsIn(p.opp, p.book, MakerSide(buying))
    && (forall id :: id in p.opp ==> id in opp0 && p.opp[id] == opp0[id])
  }

  /** Each trade so far filled a distinct resting order, at its price, by the trade's quantity. */
  ghost predicate Traded(orders0: map<Uuid, Order>, opp0: Queue<Uuid, Stamp>, tradeId: nat -> Uuid,
                         tradeTime: nat -> Instant, p: Pass)
  {
    && p.book.Keys == orders0.Keys
    && (forall i :: 0 <= i < |p.trades| ==>
          && p.trades[i].orderId in opp0
          && p.trades[i].orderId in p.book
          && p.trades[i].price == orders0[p.trades[i].orderId].price
          && p.trades[i].id == tradeId(i) && p.trades[i].createdAt == tradeTime(i)
          && p.book[p.trades[i].orderId] == Fill(orders0[p.trades[i].orderId], p.trades[i].quantity)
          && p.book[p.trades[i].orderId].filledQuantity <= p.book[p.trades[i].orderId].quantity)
    && (forall i, j :: 0 <= i < j < |p.trades| ==> p.trades[i].orderId != p.trades[j].orderId)
  }

  /** No order but the makers changed, only filled makers left the queue, and every maker but
      the last has left it. */
  ghost predicate Untouched(orders0: map<Uuid, Order>, opp0: Queue<Uuid, Stamp>, p: Pass)
  {
    && (forall id :: id in p.book && id in orders0 && id !in MakerIds(p.trades) ==> p.book[id] == orders0[id])
    && (forall id :: id in opp0 && id !in p.opp ==> id in MakerIds(p.trades) && id in p.book && p.book[id].IsFilled())
    && (forall i :: 0 <= i < |p.trades| - 1 ==> p.trades[i].orderId !in p.opp)
  }

  ghost predicate Filled(opp0: Queue<Uuid, Stamp>, orders0: map<Uuid, Order>, tradeId: nat -> Uuid,
                         tradeTime: nat -> Instant, p: Pass)
  {
    Traded(orders0, opp0, tradeId, tradeTime, p) && Untouched(orders0, opp0, p)
  }

  /** Trades follow the queue's order, and whatever is still queued ranks after every traded maker. */
  ghost predicate Ranked(buying: bool, order: Order, opp0: Queue<Uuid, Stamp>, p: Pass)
    requires forall i :: 0 <= i < |p.trades| ==> p.trades[i].orderId in opp0
  {
    && (forall i, j :: 0 <= i < j < |p.trades| ==>
          Outranks(buying, opp0[p.trades[i].orderId], opp0[p.trades[j].orderId]))
    && (forall i, id :: 0 <= i < |p.trades| && id in p.opp ==>
          Outranks(buying, opp0[p.trades[i].orderId], p.opp[id]))
    && (p.trades != [] ==> IsTop(buying, opp0, p.trades[0].orderId))
    && (p.trades != [] ==> Accepts(buying, order, opp0[p.trades[0].orderId].price))
  }

  /** Every trade but the last left the incoming order open: the loops break as soon as it is
      filled. */
  ghost predicate OpenUntilLast(order: Order, trades: seq<Trade>)
  {
    forall k :: 0 < k < |trades| ==> !FilledAfter(order, trades, k)
  }

  /** The incoming order is filled by its first `k` trades. */
  ghost predicate FilledAfter(order: Order, trades: seq<Trade>, k: nat)
    requires k <= |trades|
  {
    Fill(order, SumQuantities(trades[..k])).IsFilled()
  }

  /** A trade made while the incoming order was still open keeps every trade but the last
      leaving it open. */
  lemma OpenUntilLastAppend(order: Order, trades: seq<Trade>, t: Trade)
    requires OpenUntilLast(order, trades)
    requires trades != [] ==> !Fill(order, SumQuantities(trades)).IsFilled()
    ensures OpenUntilLast(order, trades + [t])
  {
    forall k | 0 < k < |trades + [t]|
      ensures !FilledAfter(order, trades + [t], k)
    {
      assert (trades + [t])[..k] == trades[..k];
      if k < |trades| {
        assert !FilledAfter(order, trades, k);
      } else {
        assert trades[..k] == trades;
      }
    }
  }

  /** The incoming order has been filled by exactly the traded quantity, and once it has traded,
      every order left in the queue passes its price test. */
  ghost predicate Taken(buying: bool, order: Order, opp0: Queue<Uuid, Stamp>, orders0: map<Uuid, Order>, p: Pass)
  {
    && p.taker == Fill(order, SumQuantities(p.trades))
    && OpenUntilLast(order, p.trades)
    && (p.trades != [] ==> p.taker.filledQuantity <= p.taker.quantity)
    && (p.trades != [] ==> forall id :: id in p.opp ==> Accepts(buying, order, p.opp[id].price))
    && (p.trades != [] && !p.taker.IsFilled() ==> p.trades[|p.trades| - 1].orderId !in p.opp)
    && (p.trades == [] ==> p.taker == order && p.opp == opp0 && p.book == orders0)
  }

  ghost predicate MatchInvariant(buying: bool, order: Order, tradeId: nat -> Uuid, tradeTime: nat -> Instant,
                                 own: Queue<Uuid, Stamp>, opp0: Queue<Uuid, Stamp>, orders0: map<Uuid, Order>, p: Pass)
  {
    && Shaped(buying, own, opp0, orders0, p)
    && Filled(opp0, orders0, tradeId, tradeTime, p)
    && Ranked(buying, order, opp0, p)
    && Taken(buying, order, opp0, orders0, p)
  }

  /** What a matching pass guarantees when it stops, for the queue `opp0` and map `orders0` it
      started from. */
  ghost predicate MatchOutcome(buying: bool, order: Order, tradeId: nat -> Uuid, tradeTime: nat -> Instant,
                               opp0: Queue<Uuid, Stamp>, orders0: map<Uuid, Order>, p: Pass)
  {
    // the queue only lost orders, and the map only changed the orders traded with
    && p.book.Keys == orders0.Keys
    && (forall id :: id in p.opp ==> id in opp0 && p.opp[id] == opp0[id])
    && Filled(opp0, orders0, tradeId, tradeTime, p)
    && Ranked(buying, order, opp0, p)
    // the incoming order was filled by exactly the traded quantity, and never beyond its quantity
    && p.taker == Fill(order, SumQuantities(p.trades))
    && (p.trades != [] ==> p.taker.filledQuantity <= p.taker.quantity)
    // it stops as soon as it is filled: no trade follows the one that filled it
    && OpenUntilLast(order, p.trades)
    // nothing trades exactly when the queue is empty or its top fails the price test
    && (p.trades == [] <==>
          (opp0 == map[] ||
           exists id :: IsTop(buying, opp0, id) && !Accepts(buying, order, opp0[id].price)))
    // once it has traded, it stops only when filled or when the queue is empty
    && (p.trades != [] ==> p.taker.IsFilled() || p.opp == map[])
    && (p.trades == [] ==> p.taker == order && p.opp == opp0 && p.book == orders0)
  }

  lemma TopOutranks(buying: bool, q: Queue<Uuid, Stamp>, id: Uuid)
    requires IsTop(buying, q, id)
    ensures id in q && forall j :: j in q ==> Outranks(buying, q[id], q[j])
  {
  }

  lemma OutranksIsTransitive(buying: bool, a: Stamp, b: Stamp, c: Stamp)
    requires Outranks(buying, a, b) && Outranks(buying, b, c)
    ensures Outranks(buying, a, c)
  {
  }

  lemma MatchStarts(buying: bool, order: Order, tradeId: nat -> Uuid, tradeTime: nat -> Instant,
                    own: Queue<Uuid, Stamp>, opp0: Queue<Uuid, Stamp>, orders0: map<Uuid, Order>)
    requires (forall id :: id in orders0 ==> orders0[id].id == id)
    requires RestsIn(own, orders0, if buying then Buy else Sell) && RestsIn(opp0, orders0, MakerSide(buying))
    ensures MatchInvariant(buying, order, tradeId, tradeTime, own, opp0, orders0, Pass(opp0, orders0, order, []))
  {
  }

  /** One iteration keeps the invariant, and either fills the incoming order or pops a maker:
      the loop's termination measure. */
  lemma StepKeepsInvariant(buying: bool, order: Order, tradeId: nat -> Uuid, tradeTime: nat -> Instant,
                           own: Queue<Uuid, Stamp>, opp0: Queue<Uuid, Stamp>,
                           orders0: map<Uuid, Order>, p: Pass, top: Uuid)
    requires MatchInvariant(buying, order, tradeId, tradeTime, own, opp0, orders0, p)
    requires p.trades != [] ==> !p.taker.IsFilled()
    requires IsTop(buying, p.opp, top)
    requires Accepts(buying, order, p.opp[top].price)
    ensures top in p.book
    ensures MatchInvariant(buying, order, tradeId, tradeTime, own, opp0, orders0, Step(p, top, tradeId, tradeTime))
    ensures Step(p, top, tradeId, tradeTime).taker.IsFilled() || |Step(p, top, tradeId, tradeTime).opp| < |p.opp|
  {
    TopOutranks(buying, p.opp, top);
    StepAppends(buying, order, tradeId, tradeTime, own, opp0, orders0, p, top);
    StepShaped(buying, own, opp0, orders0, p, top, tradeId, tradeTime);
    StepFilled(buying, order, tradeId, tradeTime, own, opp0, orders0, p, top);
    StepRanked(buying, order, tradeId, tradeTime, opp0, p, top);
    StepTaken(buying, order, tradeId, tradeTime, own, opp0, orders0, p, top);
    StepProgresses(buying, order, tradeId, tradeTime, own, opp0, orders0, p, top);
  }

  /** A step appends one trade, against `top`, which had not traded before. */
  lemma StepAppends(buying: bool, order: Order, tradeId: nat -> Uuid, tradeTime: nat -> Instant,
                    own: Queue<Uuid, Stamp>, opp0: Queue<Uuid, Stamp>,
                    orders0: map<Uuid, Order>, p: Pass, top: Uuid)
    requires Shaped(buying, own, opp0, orders0, p)
    requires Filled(opp0, orders0, tradeId, tradeTime, p)
    requires Taken(buying, order, opp0, orders0, p)
    requires p.trades != [] ==> !p.taker.IsFilled()
    requires top in p.opp
    ensures top in p.book
    ensures var p' := Step(p, top, tradeId, tradeTime);
      && |p'.trades| == |p.trades| + 1
      && p'.trades == p.trades + [p'.trades[|p.trades|]]
      && p'.trades[|p.trades|].orderId == top
      && MakerIds(p'.trades) == MakerIds(p.trades) + [top]
      && top !in MakerIds(p.trades)
      && SumQuantities(p'.trades) == SumQuantities(p.trades) + p'.trades[|p.trades|].quantity
  {
    var p' := Step(p, top, tradeId, tradeTime);
    SumQuantitiesAppend(p.trades, p'.trades[|p.trades|]);
    if p.trades != [] {
      assert p.trades[|p.trades| - 1].orderId !in p.opp;
    }
    forall i | 0 <= i < |p.trades|
      ensures MakerIds(p.trades)[i] != top
    {
      if i < |p.trades| - 1 {
        assert p.trades[i].orderId !in p.opp;
      }
    }
  }

  lemma StepShaped(buying: bool, own: Queue<Uuid, Stamp>, opp0: Queue<Uuid, Stamp>,
                   orders0: map<Uuid, Order>, p: Pass, top: Uuid, tradeId: nat -> Uuid, tradeTime: nat -> Instant)
    requires Shaped(buying, own, opp0, orders0, p)
    requires top in p.opp
    ensures top in p.book
    ensures Shaped(buying, own, opp0, orders0, Step(p, top, tradeId, tradeTime))
  {
  }

  lemma StepFilled(buying: bool, order: Order, tradeId: nat -> Uuid, tradeTime: nat -> Instant,
                   own: Queue<Uuid, Stamp>, opp0: Queue<Uuid, Stamp>,
                   orders0: map<Uuid, Order>, p: Pass, top: Uuid)
    requires Shaped(buying, own, opp0, orders0, p)
    requires Filled(opp0, orders0, tradeId, tradeTime, p)
    requires Taken(buying, order, opp0, orders0, p)
    requires p.trades != [] ==> !p.taker.IsFilled()
    requires top in p.opp
    ensures top in p.book
    ensures Filled(opp0, orders0, tradeId, tradeTime, Step(p, top, tradeId, tradeTime))
  {
    StepAppends(buying, order, tradeId, tradeTime, own, opp0, orders0, p, top);
    assert p.book[top] == orders0[top];
    StepTraded(orders0, opp0, tradeId, tradeTime, p, top);
    StepUntouched(orders0, opp0, tradeId, tradeTime, p, top);
  }

  lemma StepTraded(orders0: map<Uuid, Order>, opp0: Queue<Uuid, Stamp>, tradeId: nat -> Uuid,
                   tradeTime: nat -> Instant, p: Pass, top: Uuid)
    requires Traded(orders0, opp0, tradeId, tradeTime, p)
    requires top in p.book && p.book[top].id == top
    requires top in opp0 && top in orders0 && p.book[top] == orders0[top]
    requires top !in MakerIds(p.trades)
    ensures Traded(orders0, opp0, tradeId, tradeTime, Step(p, top, tradeId, tradeTime))
  {
    var p' := Step(p, top, tradeId, tradeTime);
    MatchStep(p.taker, p.book[top]);
    forall i | 0 <= i < |p'.trades|
      ensures p'.trades[i].orderId in p'.book
      ensures p'.book[p'.trades[i].orderId] == Fill(orders0[p'.trades[i].orderId], p'.trades[i].quantity)
      ensures p'.book[p'.trades[i].orderId].filledQuantity <= p'.book[p'.trades[i].orderId].quantity
    {
      var id := p'.trades[i].orderId;
      if i < |p.trades| {
        assert p'.trades[i] == p.trades[i];
        assert id != top by {
          assert MakerIds(p.trades)[i] == id;
        }
        assert p'.book[id] == p.book[id];
      } else {
        assert id == top;
      }
    }
    forall i, j | 0 <= i < j < |p'.trades|
      ensures p'.trades[i].orderId != p'.trades[j].orderId
    {
      assert p'.trades[i] == p.trades[i];
      if j < |p.trades| {
        assert p'.trades[j] == p.trades[j];
      } else {
        assert MakerIds(p.trades)[i] == p.trades[i].orderId;
      }
    }
  }

  lemma StepUntouched(orders0: map<Uuid, Order>, opp0: Queue<Uuid, Stamp>, tradeId: nat -> Uuid,
                      tradeTime: nat -> Instant, p: Pass, top: Uuid)
    requires Untouched(orders0, opp0, p)
    requires top in p.opp && top in p.book && p.book[top].id == top
    requires top !in MakerIds(p.trades)
    requires p.trades != [] ==> p.trades[|p.trades| - 1].orderId !in p.opp
    ensures Untouched(orders0, opp0, Step(p, top, tradeId, tradeTime))
  {
    var p' := Step(p, top, tradeId, tradeTime);
    assert MakerIds(p'.trades) == MakerIds(p.trades) + [top];
    forall id | id in p'.book && id in orders0 && id !in MakerIds(p'.trades)
      ensures p'.book[id] == orders0[id]
    {
      assert id != top && id !in MakerIds(p.trades);
    }
    forall i | 0 <= i < |p'.trades| - 1
      ensures p'.trades[i].orderId !in p'.opp
    {
      assert p'.trades[i] == p.trades[i];
    }
    forall id | id in opp0 && id !in p'.opp
      ensures id in MakerIds(p'.trades) && id in p'.book && p'.book[id].IsFilled()
    {
      if id != top {
        assert id !in p.opp;
      }
    }
  }

  lemma StepRanked(buying: bool, order: Order, tradeId: nat -> Uuid, tradeTime: nat -> Instant,
                   opp0: Queue<Uuid, Stamp>, p: Pass, top: Uuid)
    requires forall i :: 0 <= i < |p.trades| ==> p.trades[i].orderId in opp0
    requires Ranked(buying, order, opp0, p)
    requires IsTop(buying, p.opp, top) && Accepts(buying, order, p.opp[top].price)
    requires forall id :: id in p.opp ==> id in opp0 && p.opp[id] == opp0[id]
    requires p.trades == [] ==> p.opp == opp0
    requires top in p.book && p.book[top].id == top
    ensures forall i :: 0 <= i < |Step(p, top, tradeId, tradeTime).trades| ==>
              Step(p, top, tradeId, tradeTime).trades[i].orderId in opp0
    ensures Ranked(buying, order, opp0, Step(p, top, tradeId, tradeTime))
  {
    TopOutranks(buying, p.opp, top);
    var p' := Step(p, top, tradeId, tradeTime);
    forall i, id | 0 <= i < |p'.trades| && id in p'.opp
      ensures Outranks(buying, opp0[p'.trades[i].orderId], p'.opp[id])
    {
      if i == |p.trades| {
        assert Outranks(buying, p.opp[top], p.opp[id]);
      } else {
        assert p'.trades[i] == p.trades[i];
      }
    }
    forall i, j | 0 <= i < j < |p'.trades|
      ensures Outranks(buying, opp0[p'.trades[i].orderId], opp0[p'.trades[j].orderId])
    {
      assert p'.trades[i] == p.trades[i];
      if j < |p.trades| {
        assert p'.trades[j] == p.trades[j];
      }
    }
    if p.trades != [] {
      assert p'.trades[0] == p.trades[0];
    } else {
      assert p.opp == opp0;
    }
  }

  lemma StepTaken(buying: bool, order: Order, tradeId: nat -> Uuid, tradeTime: nat -> Instant,
                  own: Queue<Uuid, Stamp>, opp0: Queue<Uuid, Stamp>,
                  orders0: map<Uuid, Order>, p: Pass, top: Uuid)
    requires Shaped(buying, own, opp0, orders0, p)
    requires Filled(opp0, orders0, tradeId, tradeTime, p)
    requires Taken(buying, order, opp0, orders0, p)
    requires p.trades != [] ==> !p.taker.IsFilled()
    requires IsTop(buying, p.opp, top)
    requires Accepts(buying, order, p.opp[top].price)
    ensures top in p.book
    ensures Taken(buying, order, opp0, orders0, Step(p, top, tradeId, tradeTime))
  {
    StepAppends(buying, order, tradeId, tradeTime, own, opp0, orders0, p, top);
    TopOutranks(buying, p.opp, top);
    var p' := Step(p, top, tradeId, tradeTime);
    MatchStep(p.taker, p.book[top]);
    forall id | id in p'.opp
      ensures Accepts(buying, order, p'.opp[id].price)
    {
      assert Outranks(buying, p.opp[top], p.opp[id]);
    }
    OpenUntilLastAppend(order, p.trades, p'.trades[|p.trades|]);
  }

  lemma StepProgresses(buying: bool, order: Order, tradeId: nat -> Uuid, tradeTime: nat -> Instant,
                       own: Queue<Uuid, Stamp>, opp0: Queue<Uuid, Stamp>,
                       orders0: map<Uuid, Order>, p: Pass, top: Uuid)
    requires Shaped(buying, own, opp0, orders0, p)
    requires top in p.opp
    ensures top in p.book
    ensures Step(p, top, tradeId, tradeTime).taker.IsFilled() || |Step(p, top, tradeId, tradeTime).opp| < |p.opp|
  {
    var p' := Step(p, top, tradeId, tradeTime);
    MatchStep(p.taker, p.book[top]);
    if !p'.taker.IsFilled() {
      assert p'.opp.Keys == p.opp.Keys - {top};
      assert |p'.opp.Keys| < |p.opp.Keys|;
    }
  }

  /** When the loop stops (queue empty, incoming order filled, or top refused on price), what it
      has done is the outcome promised. */
  lemma {:induction false} MatchFinishes(buying: bool, order: Order, tradeId: nat -> Uuid, tradeTime: nat -> Instant,
                                         own: Queue<Uuid, Stamp>, opp0: Queue<Uuid, Stamp>,
                                         orders0: map<Uuid, Order>, p: Pass)
    requires MatchInvariant(buying, order, tradeId, tradeTime, own, opp0, orders0, p)
    requires p.opp == map[] || (p.trades != [] && p.taker.IsFilled())
          || exists id :: IsTop(buying, p.opp, id) && !Accepts(buying, order, p.opp[id].price)
    ensures MatchOutcome(buying, order, tradeId, tradeTime, opp0, orders0, p)
  {
    if p.trades == [] {
      if p.opp != map[] {
        assert p.opp == opp0;
      }
    } else {
      var m0 := p.trades[0].orderId;
      assert m0 in opp0;
      TopOutranks(buying, opp0, m0);
      // the first maker passed the price test, and every top of the queue ties with it
      forall id | IsTop(buying, opp0, id)
        ensures Accepts(buying, order, opp0[id].price)
      {
        TopOutranks(buying, opp0, id);
        assert Outranks(buying, opp0[m0], opp0[id]) && Outranks(buying, opp0[id], opp0[m0]);
      }
    }
  }

  /** The pass reached from `p0` by taking, in turn, the resting orders `tops`; `None` unless each
      of them was on top of the queue at its turn and passed the price test while the incoming
      order was still open, that is, unless the loop could have taken them. */
  ghost function Replay(buying: bool, order: Order, p0: Pass, tops: seq<Uuid>,
                        tradeId: nat -> Uuid, tradeTime: nat -> Instant): Option<Pass>
    decreases |tops|
  {
    if tops == [] then Some(p0)
    else
      var r := Replay(buying, order, p0, tops[..|tops| - 1], tradeId, tradeTime);
      var top := tops[|tops| - 1];
      if && r.Some?
         && IsTop(buying, r.value.opp, top)
         && Accepts(buying, order, r.value.opp[top].price)
         && (r.value.trades != [] ==> !r.value.taker.IsFilled())
         && top in r.value.book
      then Some(Step(r.value, top, tradeId, tradeTime))
      else None
  }

  /** Every pass the loop can reach from a consistent book keeps the invariant. */
  lemma {:induction false} ReplayKeepsInvariant(buying: bool, order: Order, tradeId: nat -> Uuid, tradeTime: nat -> Instant,
                                                own: Queue<Uuid, Stamp>, opp0: Queue<Uuid, Stamp>,
                                                orders0: map<Uuid, Order>, tops: seq<Uuid>, p: Pass)
    requires forall id :: id in orders0 ==> orders0[id].id == id
    requires RestsIn(own, orders0, if buying then Buy else Sell) && RestsIn(opp0, orders0, MakerSide(buying))
    requires Replay(buying, order, Pass(opp0, orders0, order, []), tops, tradeId, tradeTime) == Some(p)
    ensures MatchInvariant(buying, order, tradeId, tradeTime, own, opp0, orders0, p)
    decreases |tops|
  {
    if tops == [] {
      MatchStarts(buying, order, tradeId, tradeTime, own, opp0, orders0);
    } else {
      var prefix := tops[..|tops| - 1];
      var q := Replay(buying, order, Pass(opp0, orders0, order, []), prefix, tradeId, tradeTime).value;
      ReplayKeepsInvariant(buying, order, tradeId, tradeTime, own, opp0, orders0, prefix, q);
      StepKeepsInvariant(buying, order, tradeId, tradeTime, own, opp0, orders0, q, tops[|tops| - 1]);
    }
  }

  /** Taking the top of the queue, when it passes the price test, is one more legal iteration;
      it fills the incoming order or shortens the queue. */
  lemma ReplayStep(buying: bool, order: Order, tradeId: nat -> Uuid, tradeTime: nat -> Instant,
                   own: Queue<Uuid, Stamp>, opp0: Queue<Uuid, Stamp>,
                   orders0: map<Uuid, Order>, tops: seq<Uuid>, p: Pass, top: Uuid)
    requires forall id :: id in orders0 ==> orders0[id].id == id
    requires RestsIn(own, orders0, if buying then Buy else Sell) && RestsIn(opp0, orders0, MakerSide(buying))
    requires Replay(buying, order, Pass(opp0, orders0, order, []), tops, tradeId, tradeTime) == Some(p)
    requires p.trades != [] ==> !p.taker.IsFilled()
    requires IsTop(buying, p.opp, top) && Accepts(buying, order, p.opp[top].price)
    ensures top in p.book
    ensures Replay(buying, order, Pass(opp0, orders0, order, []), tops + [top], tradeId, tradeTime)
              == Some(Step(p, top, tradeId, tradeTime))
    ensures Step(p, top, tradeId, tradeTime).taker.IsFilled() || |Step(p, top, tradeId, tradeTime).opp| < |p.opp|
  {
    ReplayKeepsInvariant(buying, order, tradeId, tradeTime, own, opp0, orders0, tops, p);
    StepKeepsInvariant(buying, order, tradeId, tradeTime, own, opp0, orders0, p, top);
    assert (tops + [top])[..|tops|] == tops;
  }

  /** When the loop stops, the book is still consistent and the outcome is the one promised. */
  lemma ReplayFinishes(buying: bool, order: Order, tradeId: nat -> Uuid, tradeTime: nat -> Instant,
                       own: Queue<Uuid, Stamp>, opp0: Queue<Uuid, Stamp>,
                       orders0: map<Uuid, Order>, tops: seq<Uuid>, p: Pass)
    requires forall id :: id in orders0 ==> orders0[id].id == id
    requires RestsIn(own, orders0, if buying then Buy else Sell) && RestsIn(opp0, orders0, MakerSide(buying))
    requires Replay(buying, order, Pass(opp0, orders0, order, []), tops, tradeId, tradeTime) == Some(p)
    requires p.opp == map[] || (p.trades != [] && p.taker.IsFilled())
          || exists id :: IsTop(buying, p.opp, id) && !Accepts(buying, order, p.opp[id].price)
    ensures forall id :: id in p.book ==> p.book[id].id == id
    ensures RestsIn(own, p.book, if buying then Buy else Sell) && RestsIn(p.opp, p.book, MakerSide(buying))
    ensures MatchOutcome(buying, order, tradeId, tradeTime, opp0, orders0, p)
  {
    ReplayKeepsInvariant(buying, order, tradeId, tradeTime, own, opp0, orders0, tops, p);
    MatchFinishes(buying, order, tradeId, tradeTime, own, opp0, orders0, p);
  }

  class OrderBook {
    const symbol: string
    /** `PriorityQueue<Uuid, Reverse<(Decimal, DateTime)>>`: yields the LOWEST bid first. */
    var buyOrders: Queue<Uuid, Stamp>
    /** `PriorityQueue<Uuid, (Decimal, DateTime)>`: yields the HIGHEST ask first. */
    var sellOrders: Queue<Uuid, Stamp>
    var orders: map<Uuid, Order>
    /** The trades sent on the `trade_tx` channel so far. */
    ghost var sent: seq<Trade>

    /** Every queued id is a key of `orders`; without this the matching loops would spin forever
        on an id they cannot look up. */
    ghost predicate Valid()
      reads this
    {
      && (forall id :: id in orders ==> orders[id].id == id)
      && RestsIn(buyOrders, orders, Buy)
      && RestsIn(sellOrders, orders, Sell)
    }

    /** The queue an order of `side` is matched against. */
    function Opposite(side: Side): Queue<Uuid, Stamp>
      reads this
    {
      if side == Buy then sellOrders else buyOrders
    }

    constructor (symbol: string)
      ensures Valid()
      ensures this.symbol == symbol
      ensures buyOrders == map[] && sellOrders == map[] && orders == map[] && sent == []
    {
      this.symbol := symbol;
      buyOrders, sellOrders, orders := map[], map[], map[];
      sent := [];
    }

    /** Matches `order` against the book, rests what is left of a limit order, and broadcasts
        the trades. */
    method ProcessOrder(order: Order, tradeId: nat -> Uuid, tradeTime: nat -> Instant) returns (r: Result<seq<Trade>, OrderBookError>)
      requires Valid()
      requires order.id !in orders
      modifies this
      ensures Valid()
      ensures r.Ok?
      ensures sent == old(sent) + r.value
      ensures forall i :: 0 <= i < |r.value| ==>
        && r.value[i].orderId in (if order.side == Buy then old(sellOrders) else old(buyOrders))
        && r.value[i].price == old(orders)[r.value[i].orderId].price
      ensures var taker := Fill(order, SumQuantities(r.value));
        if order.orderType == Limit && !taker.IsFilled() then
          && orders.Keys == old(orders).Keys + {order.id}
          && orders[order.id] == taker
          && (order.side == Buy ==> buyOrders == old(buyOrders)[order.id := StampOf(order)])
          && (order.side == Sell ==> sellOrders == old(sellOrders)[order.id := StampOf(order)])
        else
          && orders.Keys == old(orders).Keys
          && (order.side == Buy ==> buyOrders == old(buyOrders))
          && (order.side == Sell ==> sellOrders == old(sellOrders))
      // the opposite queue and the resting orders are what the matching pass left
      ensures MatchOutcome(order.side == Buy, order, tradeId, tradeTime, old(Opposite(order.side)), old(orders),
                           Pass(Opposite(order.side), orders - {order.id}, Fill(order, SumQuantities(r.value)), r.value))
    {
      var taker, trades := MatchOrder(order, tradeId, tradeTime);
      ghost var matched, opp := orders, Opposite(order.side);
      if !taker.IsFilled() && taker.orderType == Limit {
        AddOrderToBook(taker);
      }
      assert orders - {order.id} == matched && Opposite(order.side) == opp;
      sent := sent + trades;
      r := Ok(trades);
    }

    /** The side dispatch at the head of `process_order`: a buy is matched against the asks, a sell
        against the bids. The book stays consistent, no order enters or leaves the map, the
        incoming order is filled by exactly the traded quantity, and every trade is against a
        resting order of the other side at that order's price. */
    method MatchOrder(order: Order, tradeId: nat -> Uuid, tradeTime: nat -> Instant) returns (taker: Order, trades: seq<Trade>)
      requires Valid()
      modifies this
      ensures Valid()
      ensures sent == old(sent)
      ensures orders.Keys == old(orders).Keys
      ensures taker == Fill(order, SumQuantities(trades))
      ensures order.side == Buy ==> buyOrders == old(buyOrders)
      ensures order.side == Sell ==> sellOrders == old(sellOrders)
      ensures forall i :: 0 <= i < |trades| ==>
        && trades[i].orderId in (if order.side == Buy then old(sellOrders) else old(buyOrders))
        && trades[i].price == old(orders)[trades[i].orderId].price
      ensures MatchOutcome(order.side == Buy, order, tradeId, tradeTime, old(Opposite(order.side)), old(orders),
                           Pass(Opposite(order.side), orders, taker, trades))
    {
      if order.side == Buy {
        taker, trades := MatchBuyOrder(order, tradeId, tradeTime);
      } else {
        taker, trades := MatchSellOrder(order, tradeId, tradeTime);
      }
    }

    /** Removes an order from the map and from its side's queue and returns it; an unknown id
        changes nothing. */
    method CancelOrder(orderId: Uuid) returns (r: Result<Option<Order>, OrderBookError>)
      requires Valid()
      modifies this
      ensures Valid()
      ensures orderId !in old(orders) ==> r == Ok(None) && unchanged(this)
      ensures orderId in old(orders) ==>
        && r == Ok(Some(old(orders)[orderId]))
        && orders == old(orders) - {orderId}
        && buyOrders == (if r.value.value.side == Buy then old(buyOrders) - {orderId} else old(buyOrders))
        && sellOrders == (if r.value.value.side == Sell then old(sellOrders) - {orderId} else old(sellOrders))
        && sent == old(sent)
    {
      if orderId in orders {
        var order := orders[orderId];
        orders := orders - {orderId};
        if order.side == Buy {
          buyOrders := buyOrders - {orderId};
        } else {
          sellOrders := sellOrders - {orderId};
        }
        r := Ok(Some(order));
      } else {
        r := Ok(None);
      }
    }

    /** Fills a buy against the asks, highest ask first (the ask queue is a max-heap), until the
        buy is filled, the asks run out, or (for a limit buy) the ask on top is dearer than the
        limit. `tradeId(k)` and `tradeTime(k)` are the fresh id and the
        instant of the k-th trade of the call. */
    method MatchBuyOrder(order: Order, tradeId: nat -> Uuid, tradeTime: nat -> Instant) returns (taker: Order, trades: seq<Trade>)
      requires Valid()
      modifies this
      ensures Valid()
      ensures buyOrders == old(buyOrders) && sent == old(sent)
      ensures MatchOutcome(true, order, tradeId, tradeTime, old(sellOrders), old(orders), Pass(sellOrders, orders, taker, trades))
    {
      var asks, book := sellOrders, orders;
      taker, trades := order, [];
      ghost var tops: seq<Uuid> := [];
      ghost var own, opp0, orders0 := buyOrders, sellOrders, orders;
      assert RestsIn(own, orders0, Buy) && RestsIn(opp0, orders0, Sell);
      while asks != map[]
        invariant Replay(true, order, Pass(opp0, orders0, order, []), tops, tradeId, tradeTime)
                    == Some(Pass(asks, book, taker, trades))
        invariant trades != [] ==> !taker.IsFilled()
        modifies {}
        decreases |asks|
      {
        StampOrdersAreTotal();
        ghost var peeked := PeekExists(asks, StampLe);
        var top :| IsPeek(asks, StampLe, top);
        assert IsPeek(asks, StampLe, top);
        if order.orderType == Limit && order.price < asks[top].price {
          assert IsTop(true, asks, top) && !Accepts(true, order, asks[top].price);
          break;
        }
        ReplayStep(true, order, tradeId, tradeTime, own, opp0, orders0, tops, Pass(asks, book, taker, trades), top);
        // every queued id has its order in the map
        var maker := book[top];
        var q := MatchQuantity(taker, maker);
        taker := Fill(taker, q);
        maker := Fill(maker, q);
        book := book[top := maker];
        trades := trades + [NewTrade(tradeId(|trades|), maker, taker, q, tradeTime(|trades|))];
        if maker.IsFilled() {
          asks := asks - {top};
        }
        tops := tops + [top];
        if taker.IsFilled() {
          break;
        }
      }
      sellOrders, orders := asks, book;
      ReplayFinishes(true, order, tradeId, tradeTime, own, opp0, orders0, tops, Pass(sellOrders, orders, taker, trades));
    }

    /** Fills a sell against the bids, lowest bid first (the bid queue is keyed by `Reverse`),
        until the sell is filled, the bids run out, or (for a limit sell) the bid on top is below
        the limit. `tradeId(k)` and `tradeTime(k)` are the fresh id and the
        instant of the k-th trade of the call. */
    method MatchSellOrder(order: Order, tradeId: nat -> Uuid, tradeTime: nat -> Instant) returns (taker: Order, trades: seq<Trade>)
      requires Valid()
      modifies this
      ensures Valid()
      ensures sellOrders == old(sellOrders) && sent == old(sent)
      ensures MatchOutcome(false, order, tradeId, tradeTime, old(buyOrders), old(orders), Pass(buyOrders, orders, taker, trades))
    {
      var bids, book := buyOrders, orders;
      taker, trades := order, [];
      ghost var tops: seq<Uuid> := [];
      ghost var own, opp0, orders0 := sellOrders, buyOrders, orders;
      assert RestsIn(own, orders0, Sell) && RestsIn(opp0, orders0, Buy);
      while bids != map[]
        invariant Replay(false, order, Pass(opp0, orders0, order, []), tops, tradeId, tradeTime)
                    == Some(Pass(bids, book, taker, trades))
        invariant trades != [] ==> !taker.IsFilled()
        modifies {}
        decreases |bids|
      {
        StampOrdersAreTotal();
        ghost var peeked := PeekExists(bids, ReverseStampLe);
        var top :| IsPeek(bids, ReverseStampLe, top);
        assert IsPeek(bids, ReverseStampLe, top);
        if order.orderType == Limit && order.price > bids[top].price {
          assert IsTop(false, bids, top) && !Accepts(false, order, bids[top].price);
          break;
        }
        ReplayStep(false, order, tradeId, tradeTime, own, opp0, orders0, tops, Pass(bids, book, taker, trades), top);
        // every queued id has its order in the map
        var maker := book[top];
        var q := MatchQuantity(taker, maker);
        taker := Fill(taker, q);
        maker := Fill(maker, q);
        book := book[top := maker];
        trades := trades + [NewTrade(tradeId(|trades|), maker, taker, q, tradeTime(|trades|))];
        if maker.IsFilled() {
          bids := bids - {top};
        }
        tops := tops + [top];
        if taker.IsFilled() {
          break;
        }
      }
      buyOrders, orders := bids, book;
      ReplayFinishes(false, order, tradeId, tradeTime, own, opp0, orders0, tops, Pass(buyOrders, orders, taker, trades));
    }

    /** Queues an open order on its side under its (price, timestamp) and records it. */
    method AddOrderToBook(order: Order)
      requires Valid()
      requires order.id !in orders
      requires !order.IsFilled()
      modifies this
      ensures Valid()
      ensures orders == old(orders)[order.id := order]
      ensures buyOrders == (if order.side == Buy then old(buyOrders)[order.id := StampOf(order)] else old(buyOrders))
      ensures sellOrders == (if order.side == Sell then old(sellOrders)[order.id := StampOf(order)] else old(sellOrders))
      ensures sent == old(sent)
    {
      if order.side == Buy {
        buyOrders := buyOrders[order.id := StampOf(order)];
      } else {
        sellOrders := sellOrders[order.id := StampOf(order)];
      }
      orders := orders[order.id := order];
    }
  }
}
