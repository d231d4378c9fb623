/**
 * Valuation helpers of one quoted option contract (src/single_options.rs).
 * Prices are reals; dates are day numbers and `today` is passed in, since the
 * source reads the local clock.
 */
module SingleOptions {
  import opened Wrappers

  datatype OptionType = Call | Put

  /** One option of a chain as delivered by the quote feed. */
  datatype OptionData = OptionData(
    delta: real,
    expirationDate: int,
    dte: int,
    gamma: real,
    iv: real,
    openInterest: int,
    symbol: string,
    askPrice: Option<real>,
    askSize: Option<int>,
    bidPrice: Option<real>,
    bidSize: Option<int>,
    closePrice: Option<real>,
    highPrice: Option<real>,
    lastTradePrice: real,
    lowPrice: Option<real>,
    midPrice: Option<real>,
    openPrice: Option<real>,
    prevDayClose: Option<real>,
    tradeCount: Option<int>,
    kind: OptionType,
    volume: int,
    rho: real,
    root: string,
    strike: real,
    theta: real,
    timestamp: Option<string>,
    vega: real,
    intrinsicValue: real,
    extrinsicValue: real,
    otm: bool)

  /** What exercising now would pay per share, before clamping: negative when out of the money. */
  function ExerciseValue(kind: OptionType, strike: real, underlyingMid: real): real
  {
    match kind
    case Call => underlyingMid - strike
    case Put => strike - underlyingMid
  }

  /** Intrinsic value: the exercise value clamped at zero. */
  function IntrinsicValue(o: OptionData, underlyingMid: real): (r: real)
    ensures r >= 0.0
    ensures r >= ExerciseValue(o.kind, o.strike, underlyingMid)
    ensures r == 0.0 || r == ExerciseValue(o.kind, o.strike, underlyingMid)
  {
    var value := ExerciseValue(o.kind, o.strike, underlyingMid);
    if value < 0.0 then 0.0 else value
  }

  /** Extrinsic (time) value: the quoted mid price, 0 when absent, minus the intrinsic value, clamped at zero. */
  function ExtrinsicValue(o: OptionData, underlyingMid: real): (r: real)
    ensures r >= 0.0
    ensures r >= o.midPrice.UnwrapOr(0.0) - IntrinsicValue(o, underlyingMid)
    ensures r == 0.0 || r == o.midPrice.UnwrapOr(0.0) - IntrinsicValue(o, underlyingMid)
  {
    var num := o.midPrice.UnwrapOr(0.0) - IntrinsicValue(o, underlyingMid);
    if num > 0.0 then num else 0.0
  }

  /**
   * Out of the money: a call struck above the underlying, a put struck below
   * it; exactly the options whose exercise now would lose money.
   */
  predicate Otm(o: OptionData, underlyingMid: real): (r: bool)
    ensures r <==> ExerciseValue(o.kind, o.strike, underlyingMid) < 0.0
  {
    match o.kind
    case Call => underlyingMid < o.strike
    case Put => underlyingMid > o.strike
  }

  /** An option out of the money has no intrinsic value; one with intrinsic value is not out of the money. */
  lemma {:induction false} OtmHasNoIntrinsicValue(o: OptionData, underlyingMid: real)
    ensures Otm(o, underlyingMid) ==> IntrinsicValue(o, underlyingMid) == 0.0
    ensures IntrinsicValue(o, underlyingMid) > 0.0 ==> !Otm(o, underlyingMid)
  {
  }

  /** When the quoted mid covers the intrinsic value, intrinsic plus extrinsic value is the quoted mid. */
  lemma {:induction false} ValueDecomposition(o: OptionData, underlyingMid: real)
    requires o.midPrice.UnwrapOr(0.0) >= IntrinsicValue(o, underlyingMid)
    ensures IntrinsicValue(o, underlyingMid) + ExtrinsicValue(o, underlyingMid) == o.midPrice.UnwrapOr(0.0)
  {
  }

  /** A quote side that is present and strictly positive. */
  predicate Quoted(price: Option<real>)
  {
    price.Some? && price.value > 0.0
  }

  /** An option worth valuing: both sides quoted, some open interest, and not yet expired. */
  predicate ValidOption(o: OptionData, today: int)
  {
    && Quoted(o.askPrice)
    && Quoted(o.bidPrice)
    && o.openInterest > 0
    && o.expirationDate > today
  }

  /**
   * What the validity filter gives the valuation after it: both quotes and
   * their mid are positive, there is open interest, the valued option has at
   * least one day to expiry, and valuing it keeps it valid.
   */
  lemma {:induction false} ValidOptionValuation(o: OptionData, underlyingMid: real, today: int)
    requires ValidOption(o, today)
    ensures o.askPrice.value > 0.0 && o.bidPrice.value > 0.0
    ensures 0.5 * (o.askPrice.value + o.bidPrice.value) > 0.0
    ensures o.openInterest >= 1
    ensures CalculateValues(o, underlyingMid, today).dte >= 1
    ensures ValidOption(CalculateValues(o, underlyingMid, today), today)
  {
  }

  /** The option with its days-to-expiration, intrinsic value, extrinsic value and OTM flag filled in. */
  function CalculateValues(o: OptionData, underlyingMid: real, today: int): (r: OptionData)
    ensures r.dte == o.expirationDate - today
    ensures r.intrinsicValue >= 0.0 && r.extrinsicValue >= 0.0
    ensures r.otm ==> r.intrinsicValue == 0.0
    ensures r.otm == Otm(o, underlyingMid)
    ensures r.intrinsicValue == IntrinsicValue(o, underlyingMid)
    ensures r.extrinsicValue == ExtrinsicValue(o, underlyingMid)
    ensures r.(dte := o.dte, intrinsicValue := o.intrinsicValue, extrinsicValue := o.extrinsicValue, otm := o.otm) == o
  {
    OtmHasNoIntrinsicValue(o, underlyingMid);
    o.(dte := o.expirationDate - today,
       intrinsicValue := IntrinsicValue(o, underlyingMid),
       extrinsicValue := ExtrinsicValue(o, underlyingMid),
       otm := Otm(o, underlyingMid))
  }
}
