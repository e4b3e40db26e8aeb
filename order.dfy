/** Orders (models/order.rs): the record the order book and the matching engine trade in. */
module Orders {

  /** A `Uuid`, compared only for equality. */
  type Uuid = int

  /** A `DateTime<Utc>`, ordered as the instants it stands for. */
  type Instant = int

  datatype Side = Buy | Sell

  datatype OrderType = Limit | Market

  datatype Order = Order(
    id: Uuid,
    userId: Uuid,
    symbol: string,
    side: Side,
    orderType: OrderType,
    price: real,
    quantity: real,
    filledQuantity: real,
    timestamp: Instant,
    createdAt: Instant,
    updatedAt: Instant)
  {
    /** `remaining_quantity`: what is left once the filled quantity is taken off. */
    function RemainingQuantity(): (r: real)
      ensures r + filledQuantity == quantity
    {
      quantity - filledQuantity
    }

    /** `is_filled`: nothing is left to fill. */
    predicate IsFilled(): (b: bool)
      ensures b <==> RemainingQuantity() <= 0.0
    {
      filledQuantity >= quantity
    }
  }

  /** `Order::new`: the fresh id and the current instant are given, since they come from
      `Uuid::new_v4` and `Utc::now`. */
  function NewOrder(id: Uuid, userId: Uuid, symbol: string, side: Side, orderType: OrderType,
                    price: real, quantity: real, now: Instant): (o: Order)
    ensures o.id == id && o.userId == userId && o.symbol == symbol && o.side == side
    ensures o.orderType == orderType && o.price == price && o.quantity == quantity
    ensures o.filledQuantity == 0.0
    ensures o.timestamp == now && o.createdAt == now && o.updatedAt == now
  {
    Order(id, userId, symbol, side, orderType, price, quantity, 0.0, now, now, now)
  }

  /** The order after `q` more of it has been filled; nothing else about it changes. */
  function Fill(o: Order, q: real): (r: Order)
    ensures r.filledQuantity == o.filledQuantity + q
    ensures r.RemainingQuantity() == o.RemainingQuantity() - q
    ensures r == o.(filledQuantity := r.filledQuantity)
  {
    o.(filledQuantity := o.filledQuantity + q)
  }

  /** An order is filled exactly when nothing of it remains. */
  lemma FilledIffNothingRemains(o: Order)
    ensures o.IsFilled() <==> o.RemainingQuantity() <= 0.0
    ensures o.RemainingQuantity() + o.filledQuantity == o.quantity
  {
  }

  /** A new order with a positive quantity is open, for all of its quantity. */
  lemma NewOrderIsOpen(id: Uuid, userId: Uuid, symbol: string, side: Side, orderType: OrderType,
                       price: real, quantity: real, now: Instant)
    requires quantity > 0.0
    ensures !NewOrder(id, userId, symbol, side, orderType, price, quantity, now).IsFilled()
    ensures NewOrder(id, userId, symbol, side, orderType, price, quantity, now).RemainingQuantity() == quantity
  {
  }

  /** Filling all that remains fills the order, and no more than its quantity. */
  lemma FillingTheRemainderFills(o: Order)
    ensures Fill(o, o.RemainingQuantity()).IsFilled()
    ensures Fill(o, o.RemainingQuantity()).filledQuantity == o.quantity
  {
  }
}
