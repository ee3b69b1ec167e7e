/** The values src/components/TopCards/StockCard.tsx derives from a record
    before rendering: the price shown, the change against the previous
    point, the alert classification with its background and price colour,
    and the direction arrow. */
module StockCard {
  import opened Wrappers
  import opened StockTypes

  /** A double-precision result, kept only as far as its comparison with
      zero goes: a finite value (exact, rounding not modelled), an
      infinity, or `NaN`. */
  datatype Percent = Finite(value: real) | PositiveInfinity | NegativeInfinity | NotANumber

  /** `((current - prev) / prev) * 100`, with JavaScript's division by zero. */
  function ChangePercent(current: real, prev: real): (pct: Percent)
    ensures prev != 0.0 ==> pct.Finite? && pct.value * prev == (current - prev) * 100.0
    ensures prev == 0.0 ==> (pct == PositiveInfinity <==> current > 0.0)
    ensures prev == 0.0 ==> (pct == NegativeInfinity <==> current < 0.0)
    ensures prev == 0.0 ==> (pct == NotANumber <==> current == 0.0)
  {
    if prev != 0.0 then Finite((current - prev) / prev * 100.0)
    else if current > 0.0 then PositiveInfinity
    else if current < 0.0 then NegativeInfinity
    else NotANumber
  }

  /** `p >= 0` on a double: false for `NaN` and negative infinity. */
  predicate AtLeastZero(p: Percent): (ok: bool)
    ensures p.Finite? ==> (ok <==> p.value >= 0.0)
    ensures p == NotANumber || p == NegativeInfinity ==> !ok
    ensures p == PositiveInfinity ==> ok
  {
    match p
    case Finite(v) => v >= 0.0
    case PositiveInfinity => true
    case NegativeInfinity => false
    case NotANumber => false
  }

  const DefaultBackground := "background.paper"
  const AboveBackground := "success.light"
  const BelowBackground := "error.light"
  const NeutralText := "text.primary"
  const AboveText := "success.main"
  const BelowText := "error.main"

  datatype CardView = CardView(
    current: real,
    changePercent: Percent,
    isAboveAlert: bool,
    cardBg: string,
    priceColor: string,
    isPositive: bool)

  lemma QuotientSign(c: real, p: real)
    requires p != 0.0
    ensures p > 0.0 ==> ((c - p) / p * 100.0 >= 0.0 <==> c >= p)
    ensures p < 0.0 ==> ((c - p) / p * 100.0 >= 0.0 <==> c <= p)
  {
    var q := (c - p) / p;
    assert q * p == c - p;
    if p > 0.0 {
      if q < 0.0 { assert q * p < 0.0; }
      if q >= 0.0 { assert q * p >= 0.0; }
    } else {
      if q < 0.0 { assert q * p > 0.0; }
      if q >= 0.0 { assert q * p <= 0.0; }
    }
  }

  /** The card's derived values. The price shown is the latest price, or 0
      when there is none. With at most one point there is no change and the
      arrow points up; otherwise the change is measured against the
      second-to-last point's price and the arrow points up exactly when the
      change is not negative: when the price has not fallen below a positive
      previous price, not risen above a negative one, or, after a zero one
      (a division by zero), is itself positive. With no
      alert the card is neutral; with one it is "above" exactly when the
      price has reached the alert and "below" exactly when it has not. */
  function View(alertPrice: Option<real>, latestPrice: Option<real>, data: seq<DataPoint>): (v: CardView)
    ensures v.current == (if latestPrice.Some? then latestPrice.value else 0.0)
    ensures v.isPositive <==> AtLeastZero(v.changePercent)
    ensures |data| <= 1 ==> v.changePercent == Finite(0.0) && v.isPositive
    ensures |data| >= 2 ==>
              var prev := data[|data| - 2].price;
              && (prev > 0.0 ==> (v.isPositive <==> v.current >= prev))
              && (prev < 0.0 ==> (v.isPositive <==> v.current <= prev))
              && (prev == 0.0 ==> (v.isPositive <==> v.current > 0.0))
    ensures alertPrice.None? ==>
              !v.isAboveAlert && v.cardBg == DefaultBackground && v.priceColor == NeutralText
    ensures alertPrice.Some? ==>
              && (v.isAboveAlert <==> v.current >= alertPrice.value)
              && (v.cardBg == AboveBackground <==> v.current >= alertPrice.value)
              && (v.cardBg == BelowBackground <==> v.current < alertPrice.value)
              && v.priceColor == (if v.current >= alertPrice.value then AboveText else BelowText)
  {
    var current := latestPrice.GetOr(0.0);
    var changePercent :=
      if |data| > 1 then
        var prev := data[|data| - 2].price;
        if prev != 0.0 then QuotientSign(current, prev); ChangePercent(current, prev)
        else ChangePercent(current, prev)
      else Finite(0.0);
    var isAboveAlert := alertPrice.Some? && current >= alertPrice.value;
    var cardBg :=
      if alertPrice.None? then DefaultBackground
      else if isAboveAlert then AboveBackground
      else if current < alertPrice.value then BelowBackground
      else DefaultBackground;
    var priceColor :=
      if alertPrice.None? then NeutralText
      else if isAboveAlert then AboveText
      else BelowText;
    CardView(current, changePercent, isAboveAlert, cardBg, priceColor, AtLeastZero(changePercent))
  }
}
