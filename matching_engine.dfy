/** The price-only matching engine (engine/matching_engine.rs): resting orders are queued by price
    alone, a crossing incoming order takes resting orders off the opposite queue without looking
    at quantities, and the incoming order rests only when it matched nothing. */
module MatchingEngines {
  import opened Orders
  import opened PriorityQueues

  /** The sell queue's priority, `Decimal`: it yields its HIGHEST price first. */
  predicate PriceLe(a: real, b: real)
  {
    a <= b
  }

  /** The buy queue's priority, `Reverse<Decimal>`: it yields its LOWEST price first. */
  predicate ReversePriceLe(a: real, b: real)
  {
    b <= a
  }

  lemma PriceOrdersAreTotal()
    ensures TotalPreorder(PriceLe) && TotalPreorder(ReversePriceLe)
  {
  }

  /** The ids of a list of orders, in order. */
  function Ids(os: seq<Order>): (ids: seq<Uuid>)
    ensures |ids| == |os|
    ensures forall i :: 0 <= i < |os| ==> ids[i] == os[i].id
  {
    seq(|os|, i requires 0 <= i < |os| => os[i].id)
  }

  lemma IdsAppend(os: seq<Order>, o: Order)
    ensures Ids(os + [o]) == Ids(os) + [o.id]
  {
    assert |Ids(os + [o])| == |Ids(os) + [o.id]|;
    forall i | 0 <= i < |os| + 1
      ensures Ids(os + [o])[i] == (Ids(os) + [o.id])[i]
    {
      if i < |os| {
        assert (os + [o])[i] == os[i];
      }
    }
  }

  /** Every id in `q` names an order of `side` in `orders`, queued under that order's price. */
  ghost predicate QueuedIn(q: Queue<Uuid, real>, orders: map<Uuid, Order>, side: Side)
  {
    forall id :: id in q ==> id in orders && orders[id].side == side && q[id] == orders[id].price
  }

  /** A resting `a` leaves the queue no later than `b`: the higher price on the sell queue
      (`buying`), the lower one on the buy queue. */
  predicate Outranks(buying: bool, a: real, b: real)
  {
    if buying then b <= a else a <= b
  }

  /** `top` is the item the swept queue's `peek` may return. */
  predicate IsTop(buying: bool, q: Queue<Uuid, real>, top: Uuid)
  {
    if buying then IsPeek(q, PriceLe, top) else IsPeek(q, ReversePriceLe, top)
  }

  /** A non-empty queue has a top: `top` is one. */
  lemma TopExists(buying: bool, q: Queue<Uuid, real>) returns (top: Uuid)
    requires q != map[]
    ensures IsTop(buying, q, top)
  {
    PriceOrdersAreTotal();
    if buying {
      top := PeekExists(q, PriceLe);
    } else {
      top := PeekExists(q, ReversePriceLe);
    }
  }

  /** The item the queue yields first outranks every item in it. */
  lemma TopOutranks(buying: bool, q: Queue<Uuid, real>, top: Uuid)
    requires IsTop(buying, q, top)
    ensures top in q && forall id :: id in q ==> Outranks(buying, q[top], q[id])
  {
    forall id | id in q
      ensures Outranks(buying, q[top], q[id])
    {
      if buying {
        assert PriceLe(q[id], q[top]);
      } else {
        assert ReversePriceLe(q[id], q[top]);
      }
    }
  }

  /** A resting price the incoming `limit` crosses: a sell at or below a buy's price, a buy at or
      above a sell's price. */
  predicate Crosses(buying: bool, limit: real, price: real)
  {
    if buying then price <= limit else limit <= price
  }

  /** `matches` is the whole queue `q0` of resting orders, each once, as `book` holds them, in
      the order the queue yields them: by non-increasing price (`buying`, the sell queue) or by
      non-decreasing price (the buy queue). */
  ghost predicate TookAll(buying: bool, q0: Queue<Uuid, real>, book: map<Uuid, Order>, matches: seq<Order>)
  {
    && (forall i :: 0 <= i < |matches| ==>
          matches[i].id in q0 && matches[i].id in book && matches[i] == book[matches[i].id])
    && (forall i, j :: 0 <= i < j < |matches| ==> matches[i].id != matches[j].id)
    && (forall id :: id in q0 ==> id in Ids(matches))
    && (forall i, j :: 0 <= i < j < |matches| ==> Outranks(buying, matches[i].price, matches[j].price))
  }

  /** The outcome of sweeping the queue `q0` with an incoming `limit`: nothing is taken exactly when
      the queue is empty or holds a price the limit does not cross, and then the queue is left as
      it was; otherwise the whole queue is taken, in queue order. */
  ghost predicate Swept(buying: bool, q0: Queue<Uuid, real>, book: map<Uuid, Order>, limit: real,
                        rest: Queue<Uuid, real>, matches: seq<Order>)
  {
    && (matches == [] <==> q0 == map[] || exists id :: id in q0 && !Crosses(buying, limit, q0[id]))
    && (matches == [] ==> rest == q0)
    && (matches != [] ==> rest == map[] && TookAll(buying, q0, book, matches))
  }

  /** `rest` and `matches` are what popping crossing tops off `q0` one at a time leaves of the queue
      and takes from `book`: the last order taken was the top of the queue before it was popped. */
  ghost predicate Popped(buying: bool, q0: Queue<Uuid, real>, book: map<Uuid, Order>, limit: real,
                         rest: Queue<Uuid, real>, matches: seq<Order>)
    decreases |matches|
  {
    if matches == [] then rest == q0
    else
      var last := matches[|matches| - 1];
      && last.id in q0 && last.id !in rest && last.id in book && last == book[last.id]
      && var before := rest[last.id := q0[last.id]];
      && IsTop(buying, before, last.id) && Crosses(buying, limit, q0[last.id])
      && Popped(buying, q0, book, limit, before, matches[..|matches| - 1])
  }

  /** What any number of pops keeps: the queue is what is left of `q0`, every order of `q0` is
      queued or taken, each taken order is an order of `q0` taken once, and the taken orders come
      in queue order, ahead of all still queued, each crossing the limit. */
  ghost predicate Sweeping(buying: bool, q0: Queue<Uuid, real>, book: map<Uuid, Order>, limit: real,
                           rest: Queue<Uuid, real>, matches: seq<Order>)
  {
    && (forall id :: id in rest ==> id in q0 && rest[id] == q0[id])
    && (forall id :: id in q0 ==> id in rest || id in Ids(matches))
    && (forall i :: 0 <= i < |matches| ==>
          matches[i].id in q0 && matches[i].id !in rest && matches[i].id in book
          && matches[i] == book[matches[i].id])
    && (forall i, j :: 0 <= i < j < |matches| ==> matches[i].id != matches[j].id)
    && (forall i, j :: 0 <= i < j < |matches| ==> Outranks(buying, matches[i].price, matches[j].price))
    && (forall i, id :: 0 <= i < |matches| && id in rest ==> Outranks(buying, matches[i].price, rest[id]))
    && (matches == [] ==> rest == q0)
    && (matches != [] ==> forall id :: id in q0 ==> Crosses(buying, limit, q0[id]))
  }

  /** The `while let Some(..) = queue.peek()` loop of `match_buy_order` (`buying`, over the sell
      queue) and of `match_sell_order` (over the buy queue), on a copy of the queue: it stops at the
      first resting price the limit does not cross, and otherwise pops the top and takes its order. */
  method Sweep(buying: bool, q0: Queue<Uuid, real>, book: map<Uuid, Order>, limit: real)
    returns (rest: Queue<Uuid, real>, matches: seq<Order>)
    requires forall id :: id in q0 ==> id in book && book[id].id == id && book[id].price == q0[id]
    ensures Swept(buying, q0, book, limit, rest, matches)
  {
    rest, matches := q0, [];
    while rest != map[]
      invariant Popped(buying, q0, book, limit, rest, matches)
      decreases |rest|
    {
      ghost var peeked := TopExists(buying, rest);
      var top :| IsTop(buying, rest, top);
      assert IsTop(buying, rest, top);
      if !Crosses(buying, limit, rest[top]) {
        SweepStops(buying, q0, book, limit, rest, matches, top);
        break;
      }
      SweepPops(buying, q0, book, limit, rest, matches, top);
      matches := matches + [book[top]];
      rest := rest - {top};
    }
    if rest == map[] {
      SweepEmpties(buying, q0, book, limit, matches);
    }
  }

  /** Pops keep everything `Sweeping` states. */
  lemma {:induction false} PoppedSweeps(buying: bool, q0: Queue<Uuid, real>, book: map<Uuid, Order>,
                                        limit: real, rest: Queue<Uuid, real>, matches: seq<Order>)
    requires forall id :: id in q0 ==> id in book && book[id].id == id && book[id].price == q0[id]
    requires Popped(buying, q0, book, limit, rest, matches)
    ensures Sweeping(buying, q0, book, limit, rest, matches)
    decreases |matches|
  {
    if matches != [] {
      var last := matches[|matches| - 1];
      var before := rest[last.id := q0[last.id]];
      var taken := matches[..|matches| - 1];
      PoppedSweeps(buying, q0, book, limit, before, taken);
      TopOutranks(buying, before, last.id);
      assert before - {last.id} == rest;
      assert taken + [book[last.id]] == matches;
      SweepStepOrigin(q0, book, before, taken, last.id);
      SweepStepCoverage(q0, book, before, taken, last.id);
      SweepStepRank(buying, q0, book, limit, before, taken, last.id);
    }
  }

  /** One more pop of a crossing top. */
  lemma SweepPops(buying: bool, q0: Queue<Uuid, real>, book: map<Uuid, Order>, limit: real,
                  rest: Queue<Uuid, real>, matches: seq<Order>, top: Uuid)
    requires forall id :: id in q0 ==> id in book && book[id].id == id && book[id].price == q0[id]
    requires Popped(buying, q0, book, limit, rest, matches)
    requires IsTop(buying, rest, top) && Crosses(buying, limit, rest[top])
    ensures top in book
    ensures Popped(buying, q0, book, limit, rest - {top}, matches + [book[top]])
  {
    PoppedSweeps(buying, q0, book, limit, rest, matches);
    assert (rest - {top})[top := q0[top]] == rest;
    assert (matches + [book[top]])[..|matches|] == matches;
  }

  /** Stopping at a top the limit does not cross happens only before anything is taken. */
  lemma SweepStops(buying: bool, q0: Queue<Uuid, real>, book: map<Uuid, Order>, limit: real,
                   rest: Queue<Uuid, real>, matches: seq<Order>, top: Uuid)
    requires forall id :: id in q0 ==> id in book && book[id].id == id && book[id].price == q0[id]
    requires Popped(buying, q0, book, limit, rest, matches)
    requires IsTop(buying, rest, top) && !Crosses(buying, limit, rest[top])
    ensures Swept(buying, q0, book, limit, rest, matches)
  {
    PoppedSweeps(buying, q0, book, limit, rest, matches);
    TopOutranks(buying, rest, top);
    assert top in q0 && !Crosses(buying, limit, q0[top]);
  }

  /** Emptying the queue either took nothing from an empty queue or took all of it. */
  lemma SweepEmpties(buying: bool, q0: Queue<Uuid, real>, book: map<Uuid, Order>, limit: real,
                     matches: seq<Order>)
    requires forall id :: id in q0 ==> id in book && book[id].id == id && book[id].price == q0[id]
    requires Popped(buying, q0, book, limit, map[], matches)
    ensures Swept(buying, q0, book, limit, map[], matches)
  {
    PoppedSweeps(buying, q0, book, limit, map[], matches);
    if matches != [] {
      assert matches[0].id in q0;
    }
  }

  /** Popping `top` keeps every taken order an order of `q0` that has left the queue, each once. */
  lemma SweepStepOrigin(q0: Queue<Uuid, real>, book: map<Uuid, Order>, rest: Queue<Uuid, real>,
                        matches: seq<Order>, top: Uuid)
    requires forall id :: id in q0 ==> id in book && book[id].id == id
    requires forall id :: id in rest ==> id in q0
    requires forall i :: 0 <= i < |matches| ==>
      matches[i].id in q0 && matches[i].id !in rest && matches[i] == book[matches[i].id]
    requires forall i, j :: 0 <= i < j < |matches| ==> matches[i].id != matches[j].id
    requires top in rest
    ensures top in book
    ensures var m, r := matches + [book[top]], rest - {top};
      && (forall i :: 0 <= i < |m| ==> m[i].id in q0 && m[i].id !in r && m[i] == book[m[i].id])
      && (forall i, j :: 0 <= i < j < |m| ==> m[i].id != m[j].id)
  {
  }

  /** Popping `top` keeps every order of `q0` either queued or taken. */
  lemma SweepStepCoverage(q0: Queue<Uuid, real>, book: map<Uuid, Order>, rest: Queue<Uuid, real>,
                          matches: seq<Order>, top: Uuid)
    requires forall id :: id in q0 ==> id in rest || id in Ids(matches)
    requires top in rest && top in book && book[top].id == top
    ensures forall id :: id in q0 ==> id in rest - {top} || id in Ids(matches + [book[top]])
  {
    IdsAppend(matches, book[top]);
  }

  /** Popping a crossing top keeps the taken orders in queue order, ahead of all still queued, and
      once anything is taken the whole of `q0` crosses. */
  lemma SweepStepRank(buying: bool, q0: Queue<Uuid, real>, book: map<Uuid, Order>, limit: real,
                      rest: Queue<Uuid, real>, matches: seq<Order>, top: Uuid)
    requires forall id :: id in rest ==> id in q0 && rest[id] == q0[id]
    requires top in rest && top in book && book[top].price == q0[top]
    requires forall i, j :: 0 <= i < j < |matches| ==> Outranks(buying, matches[i].price, matches[j].price)
    requires forall i, id :: 0 <= i < |matches| && id in rest ==> Outranks(buying, matches[i].price, rest[id])
    requires matches == [] ==> rest == q0
    requires matches != [] ==> forall id :: id in q0 ==> Crosses(buying, limit, q0[id])
    requires forall id :: id in rest ==> Outranks(buying, rest[top], rest[id])
    requires Crosses(buying, limit, rest[top])
    ensures var m, r := matches + [book[top]], rest - {top};
      && (forall i, j :: 0 <= i < j < |m| ==> Outranks(buying, m[i].price, m[j].price))
      && (forall i, id :: 0 <= i < |m| && id in r ==> Outranks(buying, m[i].price, r[id]))
      && (forall id :: id in q0 ==> Crosses(buying, limit, q0[id]))
  {
  }

  /** Taking the whole of a one-order queue takes that order alone. */
  lemma TakesTheOnlyOrder(buying: bool, id: Uuid, price: real, book: map<Uuid, Order>, matches: seq<Order>)
    requires TookAll(buying, map[id := price], book, matches) && matches != []
    ensures id in book && matches == [book[id]]
  {
    assert matches[0].id == id;
    // the last order taken is the same order as the first, so they are one
    assert matches[|matches| - 1].id == id;
  }

  class MatchingEngine {
    /** `PriorityQueue<Uuid, Reverse<Decimal>>`. */
    var buyOrders: Queue<Uuid, real>
    /** `PriorityQueue<Uuid, Decimal>`. */
    var sellOrders: Queue<Uuid, real>
    var orders: map<Uuid, Order>

    /** Every queued id has its order in the map (the matching loops spin forever otherwise),
        on the queue of its side and under its price. */
    ghost predicate Valid()
      reads this
    {
      && (forall id :: id in orders ==> orders[id].id == id)
      && QueuedIn(buyOrders, orders, Buy)
      && QueuedIn(sellOrders, orders, Sell)
    }

    constructor ()
      ensures Valid()
      ensures buyOrders == map[] && sellOrders == map[] && orders == map[]
    {
      buyOrders, sellOrders, orders := map[], map[], map[];
    }

    /** Matches `order` against the opposite queue and returns the resting orders it took. */
    method AddOrder(order: Order) returns (matches: seq<Order>)
      requires Valid()
      requires order.id !in orders
      modifies this
      ensures Valid()
      ensures order.side == Buy ==> BuyMatched(order, old(buyOrders), old(sellOrders), old(orders), matches)
      ensures order.side == Sell ==> SellMatched(order, old(buyOrders), old(sellOrders), old(orders), matches)
    {
      if order.side == Buy {
        matches := MatchBuyOrder(order);
      } else {
        matches := MatchSellOrder(order);
      }
    }

    /** What `match_buy_order` does to the engine: nothing matches exactly when the sell queue is
        empty or holds a price above the buy's; then the buy rests. Otherwise every sell is taken,
        highest price first, and the buy is stored nowhere. */
    ghost predicate BuyMatched(order: Order, buys0: Queue<Uuid, real>, sells0: Queue<Uuid, real>,
                               orders0: map<Uuid, Order>, matches: seq<Order>)
      reads this
    {
      && (matches == [] <==> sells0 == map[] || exists id :: id in sells0 && sells0[id] > order.price)
      && (matches == [] ==>
            && sellOrders == sells0
            && buyOrders == buys0[order.id := order.price]
            && orders == orders0[order.id := order])
      && (matches != [] ==>
            && TookAll(true, sells0, orders0, matches)
            && (forall i :: 0 <= i < |matches| ==> matches[i].side == Sell)
            && sellOrders == map[]
            && buyOrders == buys0
            && orders == orders0)
    }

    /** The mirror image for `match_sell_order`: nothing matches exactly when the buy queue is
        empty or holds a price below the sell's. Otherwise every buy is taken, lowest price first. */
    ghost predicate SellMatched(order: Order, buys0: Queue<Uuid, real>, sells0: Queue<Uuid, real>,
                                orders0: map<Uuid, Order>, matches: seq<Order>)
      reads this
    {
      && (matches == [] <==> buys0 == map[] || exists id :: id in buys0 && buys0[id] < order.price)
      && (matches == [] ==>
            && buyOrders == buys0
            && sellOrders == sells0[order.id := order.price]
            && orders == orders0[order.id := order])
      && (matches != [] ==>
            && TookAll(false, buys0, orders0, matches)
            && (forall i :: 0 <= i < |matches| ==> matches[i].side == Buy)
            && buyOrders == map[]
            && sellOrders == sells0
            && orders == orders0)
    }

    /** `match_buy_order`: sweeps the sell queue, highest ask first, and rests the buy only when it
        took nothing. */
    method MatchBuyOrder(order: Order) returns (matches: seq<Order>)
      requires Valid()
      requires order.side == Buy && order.id !in orders
      modifies this
      ensures Valid()
      ensures BuyMatched(order, old(buyOrders), old(sellOrders), old(orders), matches)
    {
      var asks;
      asks, matches := Sweep(true, sellOrders, orders, order.price);
      sellOrders := asks;
      if matches == [] {
        buyOrders := buyOrders[order.id := order.price];
        orders := orders[order.id := order];
      }
    }

    /** `match_sell_order`: sweeps the buy queue, lowest bid first, and rests the sell only when it
        took nothing. */
    method MatchSellOrder(order: Order) returns (matches: seq<Order>)
      requires Valid()
      requires order.side == Sell && order.id !in orders
      modifies this
      ensures Valid()
      ensures SellMatched(order, old(buyOrders), old(sellOrders), old(orders), matches)
    {
      var bids;
      bids, matches := Sweep(false, buyOrders, orders, order.price);
      buyOrders := bids;
      if matches == [] {
        sellOrders := sellOrders[order.id := order.price];
        orders := orders[order.id := order];
      }
    }
  }

  /** The engine's two scenarios: the first order on a fresh engine matches nothing, and a buy at
      the price of the one resting sell takes exactly that sell. */
  method SellThenBuy(sell: Order, buy: Order) returns (first: seq<Order>, second: seq<Order>)
    requires sell.side == Sell && buy.side == Buy
    requires sell.id != buy.id && sell.price == buy.price
    ensures first == []
    ensures second == [sell]
  {
    var engine := new MatchingEngine();
    first := engine.AddOrder(sell);
    assert engine.sellOrders == map[sell.id := sell.price];
    assert engine.orders == map[sell.id := sell];
    ghost var sells0, orders0 := engine.sellOrders, engine.orders;
    second := engine.AddOrder(buy);
    assert second != [];
    TakesTheOnlyOrder(true, sell.id, sell.price, orders0, second);
  }
}
