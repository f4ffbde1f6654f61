/** The engine's vocabulary: orders, fills, results and errors.
    Prices and quantities are exact integers (ticks and lots); ids are opaque. */
module Types {
  type OrderId = nat
  type Price = int
  type Quantity = int

  datatype Option<+T> = None | Some(value: T)

  datatype Result<+T, +E> = Ok(value: T) | Err(error: E)

  datatype Side = Bid | Ask {
    function Opposite(): Side {
      if Bid? then Ask else Bid
    }
  }

  datatype OrderType = Limit | Market

  datatype OrderStatus = Open | PartiallyFilled | Filled | Cancelled

  datatype Order = Order(
    id: OrderId,
    marketId: string,
    side: Side,
    orderType: OrderType,
    price: Option<Price>,
    quantity: Quantity,
    filled: Quantity,
    status: OrderStatus,
    sequence: nat
  ) {
    function Remaining(): Quantity {
      quantity - filled
    }

    predicate IsComplete() {
      status == Filled || status == Cancelled
    }

    /** The price, or zero when there is none. */
    function PriceOrZero(): Price {
      if price.Some? then price.value else 0
    }
  }

  datatype Fill = Fill(
    makerOrderId: OrderId,
    takerOrderId: OrderId,
    price: Price,
    quantity: Quantity,
    sequence: nat
  )

  datatype ProcessResult = Fills(fills: seq<Fill>) | CancelDone | Resting

  datatype EngineError = OrderNotFound(id: OrderId) | InvalidQuantity

  datatype InsertError = MarketOrderNotAllowed | NonPositiveQuantity

  datatype CancelError = NotFound(missing: OrderId) | AlreadyComplete(complete: OrderId)

  /** The largest `rust_decimal::Decimal`, 2^96 - 1: the price an unpriced ask is compared with. */
  const DECIMAL_MAX: Price := 79228162514264337593543950335

  function Min(a: int, b: int): int {
    if a <= b then a else b
  }

  function Max(a: int, b: int): int {
    if a <= b then b else a
  }

  ghost predicate NoDuplicates<T>(s: seq<T>) {
    forall i, j :: 0 <= i < j < |s| ==> s[i] != s[j]
  }

  /** An order as the HTTP handler and the ingestor hand it over: nothing filled yet. */
  predicate Incoming(o: Order) {
    o.filled == 0 && o.status == Open
  }

  /** What every order in the book satisfies: it has a price, is not exhausted, and its status
      records exactly whether it has traded. */
  predicate RestingOrder(o: Order) {
    && o.price.Some?
    && 0 <= o.filled < o.quantity
    && o.status == (if o.filled == 0 then Open else PartiallyFilled)
  }
}
