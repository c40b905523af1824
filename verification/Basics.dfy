/** Values shared by every component: bars, order intents and fills. Money and
    quantities are exact reals; order and fill ids come from a counter. */
module Basics {

  datatype Option<+T> = None | Some(value: T)

  datatype Side = Buy | Sell

  datatype OrderType = Market | Limit

  /** What a strategy writes in an intent's client tag. */
  datatype Tag =
    | GridBuy(line: real)
    | GridSell(line: real)
    | RuleMarket(tsMs: int)
    | RuleLimit(tsMs: int)
    | Ai(seqNo: int)
    | Untagged

  /** The fields of a bar the modelled code reads. */
  datatype Bar = Bar(tsMs: int, symbol: string, close: real)

  datatype Intent = Intent(symbol: string, side: Side, kind: OrderType,
                           quantity: real, limitPrice: Option<real>, tag: Tag)
  {
    /** What the constructor checks: a positive size, and a limit price on limit orders only. */
    predicate Valid() {
      quantity > 0.0 && (kind.Limit? <==> limitPrice.Some?)
    }
  }

  datatype Fill = Fill(fillId: nat, orderId: nat, symbol: string, side: Side,
                       quantity: real, price: real, fee: real)

  /** A strategy seen from outside: a pure function of the bar and its own state. */
  type Strategy<!S> = (Bar, S) -> (seq<Intent>, S)

  // ------------------------------------------------------------ shared arithmetic

  function Min(a: int, b: int): int {
    if a <= b then a else b
  }

  function Max(a: int, b: int): int {
    if a >= b then a else b
  }

  function LastN(s: seq<real>, n: nat): seq<real> {
    if |s| <= n then s else s[|s| - n..]
  }

  function Sum(s: seq<real>): real {
    if s == [] then 0.0 else Sum(s[..|s| - 1]) + s[|s| - 1]
  }

  /** Quantity bought less quantity sold. */
  function Net(orders: seq<Intent>): real {
    if orders == [] then 0.0 else
      var last := orders[|orders| - 1];
      Net(orders[..|orders| - 1]) + if last.side.Buy? then last.quantity else -last.quantity
  }

  lemma PositiveQuotient(a: real, b: real)
    requires a > 0.0 && b > 0.0
    ensures a / b > 0.0
  {
    assert a / b * b == a;
  }
}
