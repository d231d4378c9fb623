/**
 * One option trade print and the per-trade rules of src/trades.rs: the side
 * (order action) inferred from where the print sits against the quote, the
 * directional expectation, the signed premium / IV / delta helpers, the
 * opening-or-closing estimate and the dealer-delta contributions.
 */
module Trades {
  import opened Wrappers
  import opened SingleOptions
  import opened Conditions

  /** The side the print is believed to have been initiated from. */
  datatype OrderAction = Bought | Sold | Unknown

  /** Whether the print opened or closed a position, as estimated from open interest. */
  datatype TransactionType =
    | BuyToOpen
    | SellToOpen
    | MaybeBuyToClose
    | MaybeSellToClose
    | CouldNotDetermine
    | Uncalculated

  /** Which quote the trade price is closer to. */
  datatype ExecutionPrice = CloserToBid | CloserToAsk | ExactMidPrice | Unknown

  /** The feed's own report of where the print happened against the quote. */
  datatype OptionTradeAt = AboveAsk | OnAsk | MidMarket | OnBid | BelowBid | CrossedMarket | NoMarket

  /** Directional view implied by a trade. */
  datatype Expectation = Bullish | Bearish | Neutral | Unknown

  /**
   * One option print. Dates (`expiry`) are day numbers and the intraday
   * timestamp is an integer; the feed fields the core never reads (quote
   * sizes, underlying quote, indicator, description) are not carried.
   */
  datatype OptionTrade = OptionTrade(
    root: string,
    orderAction: OrderAction,
    size: int,
    strike: real,
    expiry: int,
    dte: int,
    kind: OptionType,
    notionalValue: real,
    transactionEstimate: TransactionType,
    tradePrice: Option<real>,
    iv: real,
    cancelFlag: int,
    conditionId: ConditionID,
    delta: real,
    exchangeId: Exchange,
    impliedUnderlyingAsk: real,
    impliedUnderlyingBid: real,
    impliedUnderlyingMid: real,
    symbol: string,
    bidPrice: Option<real>,
    askPrice: Option<real>,
    tradeAt: OptionTradeAt,
    timestamp: int,
    seqNo: int,
    exchangeSeqNo: int,
    executionPrice: ExecutionPrice,
    symbolDate: string,
    expectation: Expectation,
    currentDelta: real)

  /** The other side of the same print; an unknown side stays unknown. */
  function Flip(a: OrderAction): (r: OrderAction)
    ensures (r == OrderAction.Unknown) <==> (a == OrderAction.Unknown)
    ensures a != OrderAction.Unknown ==> r != a
  {
    match a
    case Bought => Sold
    case Sold => Bought
    case Unknown => OrderAction.Unknown
  }

  /** Flipping twice gives the side back. */
  lemma {:induction false} FlipInvolution(a: OrderAction)
    ensures Flip(Flip(a)) == a
  {
  }

  /** The mid point between the quotes, a missing quote counting as 0. */
  function QuoteMid(bid: Option<real>, ask: Option<real>): real
  {
    0.5 * (bid.UnwrapOr(0.0) + ask.UnwrapOr(0.0))
  }

  /**
   * Classifies the print against the quote: prints on or through a quote
   * side are taken at that side; otherwise a positive price below the mid is
   * closer to the bid, the exact mid is the mid, and anything else (a zero
   * price included) is closer to the ask.
   */
  function ExecutionPriceOf(at: OptionTradeAt, price: Option<real>, bid: Option<real>, ask: Option<real>): (r: ExecutionPrice)
    ensures r != ExecutionPrice.Unknown
    ensures at == AboveAsk || at == OnAsk ==> r == CloserToAsk
    ensures at == OnBid || at == BelowBid ==> r == CloserToBid
    ensures r == ExactMidPrice ==> price.UnwrapOr(0.0) == QuoteMid(bid, ask)
    ensures !AtQuoteSide(at) ==>
      var p, mid := price.UnwrapOr(0.0), QuoteMid(bid, ask);
      && (r == CloserToBid <==> 0.0 < p < mid)
      && (r == ExactMidPrice <==> p == mid)
      && (r == CloserToAsk <==> !(0.0 < p < mid) && p != mid)
  {
    match at
    case AboveAsk => CloserToAsk
    case OnAsk => CloserToAsk
    case OnBid => CloserToBid
    case BelowBid => CloserToBid
    case _ =>
      var p := price.UnwrapOr(0.0);
      var mid := QuoteMid(bid, ask);
      if p < mid && p > 0.0 then CloserToBid
      else if p == mid then ExactMidPrice
      else CloserToAsk
  }

  /** A print on or through one side of the quote. */
  predicate AtQuoteSide(at: OptionTradeAt)
  {
    at == AboveAsk || at == OnAsk || at == OnBid || at == BelowBid
  }

  function Abs(x: real): real { if x < 0.0 then -x else x }

  /**
   * Inside an ordinary quote (bid below ask) a positive price away from the
   * quote sides is classified by which side it is nearer to: nearer the bid
   * is CloserToBid, nearer the ask is CloserToAsk, equally near is the mid.
   */
  lemma {:induction false} NearerQuoteSide(at: OptionTradeAt, p: real, bid: real, ask: real)
    requires !AtQuoteSide(at) && bid < ask && p > 0.0
    ensures var r := ExecutionPriceOf(at, Some(p), Some(bid), Some(ask));
      && (r == CloserToBid <==> Abs(p - bid) < Abs(p - ask))
      && (r == ExactMidPrice <==> Abs(p - bid) == Abs(p - ask))
      && (r == CloserToAsk <==> Abs(p - bid) > Abs(p - ask))
  {
    var mid := QuoteMid(Some(bid), Some(ask));
    assert mid == 0.5 * (bid + ask);
    if p <= bid {
      assert p < mid;
    } else if p >= ask {
      assert p > mid;
    }
  }

  /**
   * The side of a print: closer to the bid means the aggressor sold, closer to
   * the ask means it bought, the mid or an unknown position leaves the side
   * unknown; in a crossed market the quote sides are inverted, so the side is flipped.
   */
  function InferAction(e: ExecutionPrice, at: OptionTradeAt): (r: OrderAction)
    ensures (r == OrderAction.Unknown) <==> (e == ExactMidPrice || e == ExecutionPrice.Unknown)
    ensures e == CloserToAsk ==> r == (if at == CrossedMarket then Sold else Bought)
    ensures e == CloserToBid ==> r == (if at == CrossedMarket then Bought else Sold)
  {
    var action := match e
      case CloserToBid => Sold
      case CloserToAsk => Bought
      case ExactMidPrice => OrderAction.Unknown
      case Unknown => OrderAction.Unknown;
    if at == CrossedMarket then Flip(action) else action
  }

  /** A bought call or a sold put is bullish; a sold call or a bought put is bearish. */
  function ExpectationOf(kind: OptionType, action: OrderAction): (r: Expectation)
    ensures r != Neutral
    ensures (r == Expectation.Unknown) <==> (action == OrderAction.Unknown)
  {
    match kind
    case Call =>
      (match action
       case Bought => Bullish
       case Sold => Bearish
       case Unknown => Expectation.Unknown)
    case Put =>
      (match action
       case Bought => Bearish
       case Sold => Bullish
       case Unknown => Expectation.Unknown)
  }

  /** The opposite view; neutral and unknown have no opposite. */
  function Opposite(x: Expectation): Expectation
  {
    match x
    case Bullish => Bearish
    case Bearish => Bullish
    case Neutral => Neutral
    case Unknown => Expectation.Unknown
  }

  /** Taking the other side, or the other option kind, reverses the view. */
  lemma {:induction false} ExpectationSymmetry(kind: OptionType, action: OrderAction)
    ensures ExpectationOf(kind, Flip(action)) == Opposite(ExpectationOf(kind, action))
    ensures ExpectationOf(if kind == Call then Put else Call, action) == Opposite(ExpectationOf(kind, action))
  {
    match kind {
      case Call =>
        match action {
          case Bought =>
          case Sold =>
          case Unknown =>
        }
      case Put =>
        match action {
          case Bought =>
          case Sold =>
          case Unknown =>
        }
    }
  }

  /**
   * The enrichment step applied to each raw print: execution price, side,
   * expectation, notional value (price x 100 x size, without the source's
   * two-decimal rounding), days to expiration and delta scaled to shares.
   */
  function GetValues(t: OptionTrade, symbolDate: string, today: int): (r: OptionTrade)
    ensures r.executionPrice == ExecutionPriceOf(t.tradeAt, t.tradePrice, t.bidPrice, t.askPrice)
    ensures r.orderAction == InferAction(r.executionPrice, t.tradeAt)
    ensures r.expectation == ExpectationOf(t.kind, r.orderAction)
    ensures t.tradeAt == OnAsk || t.tradeAt == AboveAsk ==> r.orderAction == Bought && r.executionPrice == CloserToAsk
    ensures t.tradeAt == OnBid || t.tradeAt == BelowBid ==> r.orderAction == Sold && r.executionPrice == CloserToBid
    ensures r.notionalValue == t.tradePrice.UnwrapOr(0.0) * 100.0 * t.size as real
    ensures r.dte == t.expiry - today && r.delta == t.delta * 100.0 && r.symbolDate == symbolDate
    ensures r.(notionalValue := t.notionalValue, executionPrice := t.executionPrice, orderAction := t.orderAction,
               symbolDate := t.symbolDate, expectation := t.expectation, dte := t.dte, delta := t.delta) == t
  {
    var executionPrice := ExecutionPriceOf(t.tradeAt, t.tradePrice, t.bidPrice, t.askPrice);
    var orderAction := InferAction(executionPrice, t.tradeAt);
    t.(notionalValue := t.tradePrice.UnwrapOr(0.0) * 100.0 * t.size as real,
       executionPrice := executionPrice,
       orderAction := orderAction,
       symbolDate := symbolDate,
       expectation := ExpectationOf(t.kind, orderAction),
       dte := t.expiry - today,
       delta := t.delta * 100.0)
  }

  /** Only a buy-to-open or sell-to-open estimate opens a position. */
  predicate OpensPosition(tt: TransactionType)
  {
    tt == BuyToOpen || tt == SellToOpen
  }

  /** The trade's own opening flag, read by a case analysis over every estimate. */
  predicate IsOpening(t: OptionTrade)
    ensures IsOpening(t) <==> OpensPosition(t.transactionEstimate)
  {
    match t.transactionEstimate
    case BuyToOpen => true
    case SellToOpen => true
    case MaybeBuyToClose => false
    case MaybeSellToClose => false
    case CouldNotDetermine => false
    case Uncalculated => false
  }

  /** `x` signed by the side: kept for a buy, negated for a sale, zero when the side is unknown. */
  function Signed(a: OrderAction, x: real): real
  {
    match a
    case Bought => x
    case Sold => -x
    case Unknown => 0.0
  }

  /** Premium paid: the notional value for a buy, its negation for a sale, 0 for an unknown side. */
  function AmountPaid(t: OptionTrade): (r: real)
    ensures t.orderAction == Bought ==> r == t.notionalValue
    ensures t.orderAction == Sold ==> r == -t.notionalValue
    ensures t.orderAction == OrderAction.Unknown ==> r == 0.0
  {
    Signed(t.orderAction, t.notionalValue)
  }

  /** Implied volatility signed by the side. */
  function NetIv(t: OptionTrade): (r: real)
    ensures t.orderAction == Bought ==> r == t.iv
    ensures t.orderAction == Sold ==> r == -t.iv
    ensures t.orderAction == OrderAction.Unknown ==> r == 0.0
  {
    Signed(t.orderAction, t.iv)
  }

  /** Delta at fetch time signed by the side and weighted by the number of contracts. */
  function NetDelta(t: OptionTrade): (r: real)
    ensures t.orderAction == Bought ==> r == t.delta * t.size as real
    ensures t.orderAction == Sold ==> r == -t.delta * t.size as real
    ensures t.orderAction == OrderAction.Unknown ==> r == 0.0
  {
    Signed(t.orderAction, t.delta) * t.size as real
  }

  /** Live delta signed by the side and weighted by the number of contracts. */
  function NetCurrentDelta(t: OptionTrade): (r: real)
    ensures t.orderAction == Bought ==> r == t.currentDelta * t.size as real
    ensures t.orderAction == Sold ==> r == -t.currentDelta * t.size as real
    ensures t.orderAction == OrderAction.Unknown ==> r == 0.0
  {
    Signed(t.orderAction, t.currentDelta) * t.size as real
  }

  /** The same print seen from the other side pays, and is exposed, exactly the opposite. */
  lemma {:induction false} FlippedSideNegates(t: OptionTrade)
    ensures AmountPaid(t.(orderAction := Flip(t.orderAction))) == -AmountPaid(t)
    ensures NetIv(t.(orderAction := Flip(t.orderAction))) == -NetIv(t)
    ensures NetDelta(t.(orderAction := Flip(t.orderAction))) == -NetDelta(t)
    ensures NetCurrentDelta(t.(orderAction := Flip(t.orderAction))) == -NetCurrentDelta(t)
  {
  }

  /** Delta the dealer takes on: minus size x live delta for an opening print, 0 otherwise. */
  function DealerDelta(t: OptionTrade): (r: real)
    ensures !IsOpening(t) ==> r == 0.0
    ensures IsOpening(t) ==> r == -(t.size as real) * t.currentDelta
  {
    match t.transactionEstimate
    case BuyToOpen => -(t.size as real) * t.currentDelta
    case SellToOpen => -(t.size as real) * t.currentDelta
    case _ => 0.0
  }

  /** Delta the dealer takes on if every print with a known side were opening: minus size x delta. */
  function NaiveDealerDelta(t: OptionTrade): (r: real)
    ensures t.orderAction == OrderAction.Unknown ==> r == 0.0
    ensures t.orderAction != OrderAction.Unknown ==> r == -(t.size as real) * t.delta
  {
    match t.orderAction
    case Unknown => 0.0
    case _ => -(t.size as real) * t.delta
  }

  /** The naive dealer delta ignores which side the print was on, only whether it is known. */
  lemma {:induction false} NaiveDealerDeltaIgnoresSide(t: OptionTrade)
    ensures NaiveDealerDelta(t.(orderAction := Flip(t.orderAction))) == NaiveDealerDelta(t)
  {
  }

  predicate IsCall(t: OptionTrade) { t.kind == Call }
  predicate IsPut(t: OptionTrade) { t.kind == Put }
  predicate IsBuy(t: OptionTrade) { t.orderAction == Bought }
  predicate IsSell(t: OptionTrade) { t.orderAction == Sold }
  predicate IsCallBuy(t: OptionTrade) { IsBuy(t) && IsCall(t) }
  predicate IsPutBuy(t: OptionTrade) { IsBuy(t) && IsPut(t) }
  predicate IsCallSell(t: OptionTrade) { IsSell(t) && IsCall(t) }
  predicate IsPutSell(t: OptionTrade) { IsPut(t) && IsSell(t) }

  /**
   * Opening or closing estimate: a print larger than the open interest must
   * have opened contracts (sell-to-open on the bid side, buy-to-open on the ask
   * side); otherwise it may have closed some; a mid or unknown price decides nothing.
   */
  function EstimateTransaction(option: OptionData, t: OptionTrade): (r: TransactionType)
    ensures r != Uncalculated
    ensures OpensPosition(r) <==> option.openInterest < t.size && (t.executionPrice == CloserToBid || t.executionPrice == CloserToAsk)
    ensures (r == CouldNotDetermine) <==> (t.executionPrice == ExactMidPrice || t.executionPrice == ExecutionPrice.Unknown)
    ensures (r == SellToOpen || r == MaybeSellToClose) <==> t.executionPrice == CloserToBid
    ensures (r == BuyToOpen || r == MaybeBuyToClose) <==> t.executionPrice == CloserToAsk
  {
    if option.openInterest < t.size then
      match t.executionPrice
      case CloserToBid => SellToOpen
      case CloserToAsk => BuyToOpen
      case ExactMidPrice => CouldNotDetermine
      case Unknown => CouldNotDetermine
    else
      match t.executionPrice
      case CloserToBid => MaybeSellToClose
      case CloserToAsk => MaybeBuyToClose
      case ExactMidPrice => CouldNotDetermine
      case Unknown => CouldNotDetermine
  }
}
