/**
 * The reconstructed strategy record of src/spreads.rs, the single-leg
 * projection of one print (`to_spread` in src/trades.rs, kept here because the
 * record it builds is defined here), the shape predicates measured against
 * leg 0, and the strategy classifier: a total decision procedure keyed on the
 * number of legs and on whether the legs were executed with stock.
 */
module Spreads {
  import opened Wrappers
  import opened SingleOptions
  import Conditions
  import opened Trades

  /** Net premium direction of a strategy. */
  datatype SpreadType = Credit | Debit | Unknown

  /** The strategy taxonomy; `IronCondoor` keeps the source's spelling. */
  datatype SpreadName =
    | CoveredCall
    | CoveredPut
    | LongPut
    | ShortPut
    | LongCall
    | ShortCall
    | Vertical
    | Straddle
    | Diagonal
    | Strangle
    | Calendar
    | Synthetic
    | Ladder
    | SyntheticCall
    | SyntheticPut
    | RiskReversal
    | Collar
    | Butterfly
    | UnbalancedButterfly
    | Ratio
    | IronCondoor
    | IronButterfly
    | Box
    | Conversion
    | Reversal
    | Unrecognized
    | UnrecognizedWithStock

  /** The names that describe an option position combined with stock. */
  const StockNames: set<SpreadName> :=
    {CoveredCall, CoveredPut, SyntheticCall, SyntheticPut, Conversion, Reversal, Collar, UnrecognizedWithStock}

  /** How the implied stock leg of a stock-combined strategy is described. */
  datatype StockVerb = BoughtShares | ShortedShares | TradedShares

  /** One clause of a strategy's human-readable summary. */
  datatype LegClause =
    | OptionLeg(action: OrderAction, size: int, strike: real, expiry: int, kind: OptionType)
    | StockLeg(verb: StockVerb, shares: int, price: real)

  /** The sequence-number trail recorded with a strategy. */
  datatype SequenceTrail =
    | SeqNoTrail(numbers: seq<int>)
    | ExchangeSeqNoTrail(numbers: seq<int>)
    | BothNumbers(seqNo: int, exchangeSeqNo: int)

  /** A reconstructed strategy. */
  datatype OptionSpread = OptionSpread(
    symbol: string,
    spreadName: SpreadName,
    spreadType: SpreadType,
    netValue: real,
    expirationDate: int,
    dte: int,
    netIv: real,
    currentDelta: real,
    deltaWhenOpened: real,
    expectation: Expectation,
    timestamp: int,
    conditionId: Conditions.ConditionID,
    exchange: Conditions.Exchange,
    legNumber: nat,
    summary: seq<LegClause>,
    openingTrade: bool,
    sequenceNumbers: SequenceTrail)

  /** The summary clause describing one option leg. */
  function LegClauseOf(t: OptionTrade): LegClause
  {
    OptionLeg(t.orderAction, t.size, t.strike, t.expiry, t.kind)
  }

  /** Name of a lone option position: long or short call or put; unrecognized when the side is unknown. */
  function SingleLegName(kind: OptionType, action: OrderAction): (r: SpreadName)
    ensures (r == Unrecognized) <==> (action == OrderAction.Unknown)
    ensures r == LongCall <==> kind == Call && action == Bought
    ensures r == ShortCall <==> kind == Call && action == Sold
    ensures r == LongPut <==> kind == Put && action == Bought
    ensures r == ShortPut <==> kind == Put && action == Sold
  {
    match kind
    case Call =>
      (match action
       case Bought => LongCall
       case Sold => ShortCall
       case Unknown => Unrecognized)
    case Put =>
      (match action
       case Bought => LongPut
       case Sold => ShortPut
       case Unknown => Unrecognized)
  }

  /**
   * One print seen as a one-leg strategy. Its net value is the unsigned
   * notional value (the sign is carried by the type), unlike a multi-leg strategy.
   */
  function ToSpread(t: OptionTrade): (r: OptionSpread)
    ensures r.legNumber == 1 && r.summary == [LegClauseOf(t)]
    ensures r.spreadName == SingleLegName(t.kind, t.orderAction)
    ensures (r.spreadType == Debit) <==> (t.orderAction == Bought)
    ensures (r.spreadType == Credit) <==> (t.orderAction == Sold)
    ensures (r.spreadType == SpreadType.Unknown) <==> (r.spreadName == Unrecognized)
    ensures r.netValue == t.notionalValue && r.netIv == NetIv(t)
    ensures r.deltaWhenOpened == NetDelta(t) && r.currentDelta == NetCurrentDelta(t)
    ensures r.openingTrade == OpensPosition(t.transactionEstimate)
    ensures r.sequenceNumbers == BothNumbers(t.seqNo, t.exchangeSeqNo)
    ensures r.symbol == t.root && r.expirationDate == t.expiry && r.dte == t.dte
    ensures r.expectation == t.expectation && r.timestamp == t.timestamp
    ensures r.conditionId == t.conditionId && r.exchange == t.exchangeId
  {
    OptionSpread(
      t.root,
      SingleLegName(t.kind, t.orderAction),
      if t.orderAction == Bought then Debit
      else if t.orderAction == Sold then Credit
      else SpreadType.Unknown,
      t.notionalValue,
      t.expiry,
      t.dte,
      NetIv(t),
      NetCurrentDelta(t),
      NetDelta(t),
      t.expectation,
      t.timestamp,
      t.conditionId,
      t.exchangeId,
      1,
      [LegClauseOf(t)],
      IsOpening(t),
      BothNumbers(t.seqNo, t.exchangeSeqNo))
  }

  /** For an enriched print, the single-leg strategy's view agrees with its name: long call and short put are bullish. */
  lemma {:induction false} ToSpreadViewMatchesName(raw: OptionTrade, symbolDate: string, today: int)
    ensures var r := ToSpread(GetValues(raw, symbolDate, today));
      && (r.spreadName == LongCall || r.spreadName == ShortPut <==> r.expectation == Bullish)
      && (r.spreadName == ShortCall || r.spreadName == LongPut <==> r.expectation == Bearish)
      && (r.spreadName == Unrecognized <==> r.expectation == Expectation.Unknown)
  {
  }

  /** The boolean predicates the aggregation loop folds over the legs, each measured against leg 0. */
  datatype Shape = Shape(
    sameDate: bool,
    sameStrike: bool,
    allDifferentStrikes: bool,
    sameAction: bool,
    sameAmount: bool,
    allCall: bool,
    allPut: bool)
  {
    predicate SameType() { allCall || allPut }
  }

  /**
   * The shape of a leg-set. `allDifferentStrikes` asks every leg, leg 0
   * included, to differ from leg 0's strike, so it never holds.
   */
  function ShapeOf(legs: seq<OptionTrade>): Shape
    requires |legs| >= 1
  {
    Shape(
      forall i | 0 <= i < |legs| :: legs[i].expiry == legs[0].expiry,
      forall i | 0 <= i < |legs| :: legs[i].strike == legs[0].strike,
      forall i | 0 <= i < |legs| :: legs[i].strike != legs[0].strike,
      forall i | 0 <= i < |legs| :: legs[i].orderAction == legs[0].orderAction,
      forall i | 0 <= i < |legs| :: legs[i].size == legs[0].size,
      forall i | 0 <= i < |legs| :: legs[i].kind == Call,
      forall i | 0 <= i < |legs| :: legs[i].kind == Put)
  }

  /** Leg 0 never differs from its own strike, so the all-different flag is always down. */
  lemma {:induction false} NeverAllDifferent(legs: seq<OptionTrade>)
    requires |legs| >= 1
    ensures !ShapeOf(legs).allDifferentStrikes
  {
    assert !(legs[0].strike != legs[0].strike);
  }

  /** The distinct contract sizes among the legs (the source sorts them and drops adjacent repeats). */
  function SizeSet(legs: seq<OptionTrade>): set<int>
  {
    set i | 0 <= i < |legs| :: legs[i].size
  }

  /** The distinct strikes among the legs (the source sorts them and drops adjacent repeats). */
  function StrikeSet(legs: seq<OptionTrade>): set<real>
  {
    set i | 0 <= i < |legs| :: legs[i].strike
  }

  /** The first leg satisfying `p`, as Rust's `Iterator::find` returns it. */
  function FirstWhere(legs: seq<OptionTrade>, p: OptionTrade -> bool): (r: Option<OptionTrade>)
    ensures r.None? <==> forall i | 0 <= i < |legs| :: !p(legs[i])
    ensures r.Some? ==> exists i | 0 <= i < |legs| :: legs[i] == r.value && p(r.value) && forall j | 0 <= j < i :: !p(legs[j])
  {
    if legs == [] then None
    else if p(legs[0]) then Some(legs[0])
    else
      var r := FirstWhere(legs[1..], p);
      if r.Some? then
        var i :| 0 <= i < |legs[1..]| && legs[1..][i] == r.value && p(r.value) && forall j | 0 <= j < i :: !p(legs[1..][j]);
        assert legs[i + 1] == r.value && forall j | 0 <= j < i + 1 :: !p(legs[j]);
        r
      else r
  }

  /**
   * A lone option printed together with stock: a sold call is covered by
   * bought stock, a sold put by shorted stock, a bought put with bought stock
   * makes a synthetic call and a bought call with shorted stock a synthetic put.
   */
  function SingleLegWithStock(t: OptionTrade): (r: SpreadName)
    ensures r in StockNames
  {
    if IsCallSell(t) then CoveredCall
    else if IsPutSell(t) then CoveredPut
    else if IsPutBuy(t) then SyntheticCall
    else if IsCallBuy(t) then SyntheticPut
    else UnrecognizedWithStock
  }

  /** What each name `SingleLegWithStock` gives means, in both directions. */
  lemma {:induction false} SingleLegWithStockMeans(t: OptionTrade)
    ensures var r := SingleLegWithStock(t);
      && (r == CoveredCall <==> IsCallSell(t))
      && (r == CoveredPut <==> IsPutSell(t))
      && (r == SyntheticCall <==> IsPutBuy(t))
      && (r == SyntheticPut <==> IsCallBuy(t))
      && (r == UnrecognizedWithStock <==> t.orderAction == OrderAction.Unknown)
  {
  }

  /** One of the two legs is a sold call and the other a bought put. */
  predicate CallSoldPutBought(a: OptionTrade, b: OptionTrade)
  {
    (IsCallSell(a) && IsPutBuy(b)) || (IsCallSell(b) && IsPutBuy(a))
  }

  /** One of the two legs is a sold put and the other a bought call. */
  predicate PutSoldCallBought(a: OptionTrade, b: OptionTrade)
  {
    (IsPutSell(a) && IsCallBuy(b)) || (IsPutSell(b) && IsCallBuy(a))
  }

  /** One of the two legs is a bought put and the other a sold put. */
  predicate PutBoughtPutSold(a: OptionTrade, b: OptionTrade)
  {
    (IsPutBuy(a) && IsPutSell(b)) || (IsPutBuy(b) && IsPutSell(a))
  }

  /** One of the two legs is a bought call and the other a sold call. */
  predicate CallBoughtCallSold(a: OptionTrade, b: OptionTrade)
  {
    (IsCallBuy(a) && IsCallSell(b)) || (IsCallBuy(b) && IsCallSell(a))
  }

  /**
   * Two options printed together with stock; the rules are tried in order,
   * and no two of them can match the same pair, so each name has exactly one
   * pattern of legs: a conversion or reversal at one strike (a collar at two),
   * two sold calls or two sold puts covered, a bought and a sold put or call
   * synthetic, and anything else unrecognized.
   */
  function PairWithStock(legs: seq<OptionTrade>, sameStrike: bool): (r: SpreadName)
    requires |legs| == 2
    ensures r in StockNames
  {
    var a, b := legs[0], legs[1];
    if CallSoldPutBought(a, b) then
      (if sameStrike then Conversion else Collar)
    else if PutSoldCallBought(a, b) then
      (if sameStrike then Reversal else Collar)
    else if forall i | 0 <= i < |legs| :: IsCallSell(legs[i]) then CoveredCall
    else if forall i | 0 <= i < |legs| :: IsPutSell(legs[i]) then CoveredPut
    else if PutBoughtPutSold(a, b) then SyntheticCall
    else if CallBoughtCallSold(a, b) then SyntheticPut
    else UnrecognizedWithStock
  }

  /** What each name `PairWithStock` gives means, in both directions. */
  lemma {:induction false} PairWithStockMeans(legs: seq<OptionTrade>, sameStrike: bool)
    requires |legs| == 2
    ensures var r := PairWithStock(legs, sameStrike); var a, b := legs[0], legs[1];
      && (r == Conversion <==> CallSoldPutBought(a, b) && sameStrike)
      && (r == Reversal <==> PutSoldCallBought(a, b) && sameStrike)
      && (r == Collar <==> (CallSoldPutBought(a, b) || PutSoldCallBought(a, b)) && !sameStrike)
      && (r == CoveredCall <==> IsCallSell(a) && IsCallSell(b))
      && (r == CoveredPut <==> IsPutSell(a) && IsPutSell(b))
      && (r == SyntheticCall <==> PutBoughtPutSold(a, b))
      && (r == SyntheticPut <==> CallBoughtCallSold(a, b))
  {
    assert (forall i | 0 <= i < |legs| :: IsCallSell(legs[i])) <==> IsCallSell(legs[0]) && IsCallSell(legs[1]);
    assert (forall i | 0 <= i < |legs| :: IsPutSell(legs[i])) <==> IsPutSell(legs[0]) && IsPutSell(legs[1]);
  }

  /**
   * Two options without stock, from the four shape flags, rules tried in the
   * order Vertical, Calendar, Straddle, Strangle, RiskReversal, Diagonal,
   * Ladder. The Vertical rule already takes every case the RiskReversal rule
   * would, so a risk reversal is never produced.
   */
  function PairName(sameStrike: bool, sameDate: bool, sameAction: bool, sameType: bool): (r: SpreadName)
    ensures r == Vertical <==> !sameStrike && sameDate && !sameAction
    ensures r == Calendar <==> sameStrike && !sameDate && !sameAction
    ensures r == Straddle <==> sameStrike && sameDate && sameAction && !sameType
    ensures r == Strangle <==> !sameStrike && sameDate && sameAction && !sameType
    ensures r == Diagonal <==> !sameStrike && !sameDate && !sameAction
    ensures r == Ladder <==> sameAction && sameType
    ensures r == Unrecognized <==> (sameAction && !sameType && !sameDate) || (!sameAction && sameStrike && sameDate)
    ensures r != RiskReversal
  {
    if !sameStrike && sameDate && !sameAction then Vertical
    else if sameStrike && !sameDate && !sameAction then Calendar
    else if sameStrike && sameDate && sameAction && !sameType then Straddle
    else if !sameStrike && sameDate && sameAction && !sameType then Strangle
    else if !sameStrike && sameDate && !sameAction && !sameType then RiskReversal
    else if !sameStrike && !sameDate && !sameAction then Diagonal
    else if sameAction && sameType then Ladder
    else Unrecognized
  }

  /**
   * Three legs: a butterfly on mixed sides with two distinct sizes, an
   * unbalanced butterfly on mixed sides with three distinct sizes and not all
   * of one size, a ladder of one side and one kind, nothing else.
   */
  function TripleName(legs: seq<OptionTrade>, s: Shape): (r: SpreadName)
    requires |legs| == 3
    ensures r in {Butterfly, UnbalancedButterfly, Ladder, Unrecognized}
  {
    var totalSizes := |SizeSet(legs)|;
    if !s.sameAction && totalSizes == 2 then Butterfly
    else if !s.sameAction && !s.sameAmount && totalSizes == 3 then UnbalancedButterfly
    else if s.sameAction && s.SameType() then Ladder
    else Unrecognized
  }

  /** What each name `TripleName` gives means, in both directions. */
  lemma {:induction false} TripleNameMeans(legs: seq<OptionTrade>, s: Shape)
    requires |legs| == 3
    ensures var r := TripleName(legs, s);
      && (r == Butterfly <==> !s.sameAction && |SizeSet(legs)| == 2)
      && (r == UnbalancedButterfly <==> !s.sameAction && !s.sameAmount && |SizeSet(legs)| == 3)
      && (r == Ladder <==> s.sameAction && s.SameType())
  {
  }

  /**
   * Four legs: an iron condor when `condorStrikes` holds with mixed sides and
   * kinds on one expiry; otherwise, on one expiry with mixed sides, the first
   * sold call and first sold put decide between iron butterfly (shared strike)
   * and box (two distinct strikes in all).
   */
  function QuadName(legs: seq<OptionTrade>, s: Shape, condorStrikes: bool): (r: SpreadName)
    requires |legs| == 4
    ensures r in {IronCondoor, IronButterfly, Box, Unrecognized}
  {
    if condorStrikes && !s.sameAction && s.sameDate && !s.SameType() then IronCondoor
    else if s.sameDate && !s.sameAction then
      match (FirstWhere(legs, IsCallSell), FirstWhere(legs, IsPutSell))
      case (Some(innerCall), Some(innerPut)) =>
        if innerCall.strike == innerPut.strike then IronButterfly
        else if |StrikeSet(legs)| == 2 then Box
        else Unrecognized
      case _ => Unrecognized
    else Unrecognized
  }

  /** What each name `QuadName` gives means, in both directions. */
  lemma {:induction false} QuadNameMeans(legs: seq<OptionTrade>, s: Shape, condorStrikes: bool)
    requires |legs| == 4
    ensures var r := QuadName(legs, s, condorStrikes);
      var condor := condorStrikes && !s.sameAction && s.sameDate && !s.SameType();
      var call, put := FirstWhere(legs, IsCallSell), FirstWhere(legs, IsPutSell);
      && (r == IronCondoor <==> condor)
      && (r == IronButterfly <==>
            !condor && s.sameDate && !s.sameAction && call.Some? && put.Some? && call.value.strike == put.value.strike)
      && (r == Box <==>
            !condor && s.sameDate && !s.sameAction && call.Some? && put.Some? && call.value.strike != put.value.strike
            && |StrikeSet(legs)| == 2)
  {
  }

  /** The decision procedure by leg count, stock, and the flags in `s`. */
  function ClassifyWith(legs: seq<OptionTrade>, s: Shape, condorStrikes: bool): (r: SpreadName)
    requires |legs| >= 1
  {
    var stock := Conditions.IncludesStockTrade(legs[0].conditionId);
    if |legs| == 1 then
      (if stock then SingleLegWithStock(legs[0]) else SingleLegName(legs[0].kind, legs[0].orderAction))
    else if |legs| == 2 then
      (if stock then PairWithStock(legs, s.sameStrike) else PairName(s.sameStrike, s.sameDate, s.sameAction, s.SameType()))
    else if |legs| == 3 then TripleName(legs, s)
    else if |legs| == 4 then QuadName(legs, s, condorStrikes)
    else if s.sameAction && s.SameType() then Ladder
    else Unrecognized
  }

  /**
   * The classifier as the source writes it: the iron-condor rule reads the
   * `allDifferentStrikes` flag, which compares leg 0 with itself.
   */
  function ClassifyAsWritten(legs: seq<OptionTrade>, s: Shape): (r: SpreadName)
    requires |legs| >= 1
    ensures r == IronCondoor ==> s.allDifferentStrikes
  {
    ClassifyWith(legs, s, s.allDifferentStrikes)
  }

  /**
   * As written, no leg-set is ever classified as an iron condor; on every
   * set the corrected classifier does not call an iron condor, the two agree.
   */
  lemma {:induction false} AsWrittenNeverIronCondor(legs: seq<OptionTrade>)
    requires |legs| >= 1
    ensures ClassifyAsWritten(legs, ShapeOf(legs)) != IronCondoor
    ensures Classify(legs, ShapeOf(legs)) != IronCondoor ==> ClassifyAsWritten(legs, ShapeOf(legs)) == Classify(legs, ShapeOf(legs))
  {
    NeverAllDifferent(legs);
    var s := ShapeOf(legs);
    if |legs| == 4 {
      assert ClassifyAsWritten(legs, s) == QuadName(legs, s, false);
      assert Classify(legs, s) == QuadName(legs, s, |StrikeSet(legs)| == 4);
    }
  }

  /**
   * The classifier with the iron-condor rule asking for four pairwise distinct
   * strikes, the count the four-leg branch already computes. It is total:
   * stock-combined one- and two-leg sets get a stock name, no other set does,
   * and the names no rule can produce never appear.
   */
  function Classify(legs: seq<OptionTrade>, s: Shape): SpreadName
    requires |legs| >= 1
  {
    ClassifyWith(legs, s, |StrikeSet(legs)| == |legs|)
  }

  /**
   * The corrected classifier is total: stock-combined one- and two-leg sets
   * get a stock name, no other set does, the names no rule can produce never
   * appear, an iron condor has four distinct strikes on one expiry with mixed
   * sides and kinds, and a ladder has one side and one kind.
   */
  lemma {:induction false} ClassifyMeans(legs: seq<OptionTrade>, s: Shape)
    requires |legs| >= 1
    ensures var r := Classify(legs, s);
      && (!Conditions.IncludesStockTrade(legs[0].conditionId) ==> r !in StockNames)
      && (Conditions.IncludesStockTrade(legs[0].conditionId) && |legs| <= 2 ==> r in StockNames)
      && r != Synthetic && r != Ratio && r != RiskReversal
      && (r == IronCondoor ==> |legs| == 4 && |StrikeSet(legs)| == 4 && s.sameDate && !s.sameAction && !s.SameType())
      && (r == Ladder ==> s.sameAction && s.SameType())
      && (|legs| == 1 && !Conditions.IncludesStockTrade(legs[0].conditionId) ==> r == SingleLegName(legs[0].kind, legs[0].orderAction))
  {
    if |legs| <= 2 {
      ClassifyFewMeans(legs, s);
    } else {
      ClassifyManyMeans(legs, s);
    }
  }

  /** The guarantees of the classifier for one and two legs. */
  lemma {:induction false} ClassifyFewMeans(legs: seq<OptionTrade>, s: Shape)
    requires 1 <= |legs| <= 2
    ensures var r := Classify(legs, s);
      && (!Conditions.IncludesStockTrade(legs[0].conditionId) ==> r !in StockNames)
      && (Conditions.IncludesStockTrade(legs[0].conditionId) ==> r in StockNames)
      && r != Synthetic && r != Ratio && r != RiskReversal && r != IronCondoor
      && (r == Ladder ==> s.sameAction && s.SameType())
      && (|legs| == 1 && !Conditions.IncludesStockTrade(legs[0].conditionId) ==> r == SingleLegName(legs[0].kind, legs[0].orderAction))
  {
    var r := Classify(legs, s);
    var stock := Conditions.IncludesStockTrade(legs[0].conditionId);
    if |legs| == 1 {
      if stock {
        assert r == SingleLegWithStock(legs[0]);
      } else {
        assert r == SingleLegName(legs[0].kind, legs[0].orderAction);
      }
    } else if stock {
      assert r == PairWithStock(legs, s.sameStrike);
    } else {
      assert r == PairName(s.sameStrike, s.sameDate, s.sameAction, s.SameType());
    }
  }

  /** The guarantees of the classifier for three legs or more. */
  lemma {:induction false} ClassifyManyMeans(legs: seq<OptionTrade>, s: Shape)
    requires |legs| >= 3
    ensures var r := Classify(legs, s);
      && r !in StockNames
      && r != Synthetic && r != Ratio && r != RiskReversal
      && (r == IronCondoor ==> |legs| == 4 && |StrikeSet(legs)| == 4 && s.sameDate && !s.sameAction && !s.SameType())
      && (r == Ladder ==> s.sameAction && s.SameType())
  {
    var r := Classify(legs, s);
    if |legs| == 3 {
      assert r == TripleName(legs, s);
    } else if |legs| == 4 {
      ClassifyQuadMeans(legs, s);
    }
    OptionOnlyNames(r);
  }

  /** The names of the three- and four-leg rules are none of them stock names. */
  lemma {:induction false} OptionOnlyNames(r: SpreadName)
    requires r in {Butterfly, UnbalancedButterfly, Ladder, Unrecognized, IronCondoor, IronButterfly, Box}
    ensures r !in StockNames
  {
  }

  /** The guarantees of the classifier for four legs. */
  lemma {:induction false} ClassifyQuadMeans(legs: seq<OptionTrade>, s: Shape)
    requires |legs| == 4
    ensures var r := Classify(legs, s);
      && r in {IronCondoor, IronButterfly, Box, Unrecognized}
      && (r == IronCondoor ==> |StrikeSet(legs)| == 4 && s.sameDate && !s.sameAction && !s.SameType())
  {
    assert Classify(legs, s) == QuadName(legs, s, |StrikeSet(legs)| == 4);
  }

  /**
   * The layout of an iron position: a bought put, a sold put, a sold call and
   * a bought call in that order, on one expiry, without stock.
   */
  predicate IronLayout(legs: seq<OptionTrade>)
  {
    && |legs| == 4
    && !Conditions.IncludesStockTrade(legs[0].conditionId)
    && legs[0].kind == Put && legs[0].orderAction == Bought
    && legs[1].kind == Put && legs[1].orderAction == Sold
    && legs[2].kind == Call && legs[2].orderAction == Sold
    && legs[3].kind == Call && legs[3].orderAction == Bought
    && forall i | 0 <= i < 4 :: legs[i].expiry == legs[0].expiry
  }

  /** A textbook iron condor: the iron layout with four increasing strikes. */
  predicate TextbookIronCondor(legs: seq<OptionTrade>)
  {
    IronLayout(legs) && legs[0].strike < legs[1].strike < legs[2].strike < legs[3].strike
  }

  /** Four distinct strikes make a four-element strike set. */
  lemma {:induction false} FourDistinctStrikes(legs: seq<OptionTrade>)
    requires |legs| == 4
    requires legs[0].strike < legs[1].strike < legs[2].strike < legs[3].strike
    ensures |StrikeSet(legs)| == 4
  {
    var a, b, c, d := legs[0].strike, legs[1].strike, legs[2].strike, legs[3].strike;
    assert StrikeSet(legs) == {a, b, c, d} by {
      forall x | x in StrikeSet(legs) ensures x in {a, b, c, d} {
        var i :| 0 <= i < 4 && legs[i].strike == x;
      }
      assert legs[0].strike in StrikeSet(legs);
      assert legs[1].strike in StrikeSet(legs);
      assert legs[2].strike in StrikeSet(legs);
      assert legs[3].strike in StrikeSet(legs);
    }
    assert |{a, b, c}| == 3;
  }

  /** The corrected classifier recognises the textbook iron condor ... */
  lemma {:induction false} IronCondorRecognized(legs: seq<OptionTrade>)
    requires TextbookIronCondor(legs)
    ensures Classify(legs, ShapeOf(legs)) == IronCondoor
  {
    FourDistinctStrikes(legs);
    var s := ShapeOf(legs);
    assert !s.sameAction by { assert legs[1].orderAction != legs[0].orderAction; }
    assert !s.SameType() by { assert legs[0].kind == Put && legs[2].kind == Call; }
  }

  /** ... which the classifier as written reports as unrecognized. */
  lemma {:induction false} IronCondorUnrecognizedAsWritten(legs: seq<OptionTrade>)
    requires TextbookIronCondor(legs)
    ensures ClassifyAsWritten(legs, ShapeOf(legs)) == Unrecognized
  {
    FourDistinctStrikes(legs);
    var s := ShapeOf(legs);
    NeverAllDifferent(legs);
    assert s.sameDate;
    assert !s.sameAction by { assert legs[1].orderAction != legs[0].orderAction; }
    assert ClassifyAsWritten(legs, s) == QuadName(legs, s, false);
    CondorInnerLegs(legs);
  }

  /** In the iron layout the first sold call is leg 2 and the first sold put is leg 1. */
  lemma {:induction false} CondorInnerLegs(legs: seq<OptionTrade>)
    requires IronLayout(legs)
    ensures FirstWhere(legs, IsCallSell) == Some(legs[2])
    ensures FirstWhere(legs, IsPutSell) == Some(legs[1])
  {
    assert !IsCallSell(legs[0]) && !IsCallSell(legs[1]) && IsCallSell(legs[2]);
    assert FirstWhere(legs[2..], IsCallSell) == Some(legs[2]);
    assert legs[1..][1..] == legs[2..];
    assert !IsPutSell(legs[0]) && IsPutSell(legs[1]);
  }

  /** One bought call without stock is a long call. */
  lemma {:induction false} ScenarioLongCall(t: OptionTrade)
    requires !Conditions.IncludesStockTrade(t.conditionId) && t.kind == Call && t.orderAction == Bought
    ensures ClassifyAsWritten([t], ShapeOf([t])) == LongCall
  {
  }

  /** The flags of a two-leg set, spelled out: each compares leg 1 with leg 0. */
  lemma {:induction false} PairShape(a: OptionTrade, b: OptionTrade)
    ensures ShapeOf([a, b]) == Shape(b.expiry == a.expiry, b.strike == a.strike, false, b.orderAction == a.orderAction,
                                     b.size == a.size, a.kind == Call && b.kind == Call, a.kind == Put && b.kind == Put)
  {
    var legs := [a, b];
    assert forall i | 0 <= i < |legs| :: legs[i] == a || legs[i] == b;
    assert legs[0] == a && legs[1] == b;
  }

  /** Two legs of one kind, different strikes, one expiry and opposite sides make a vertical. */
  lemma {:induction false} ScenarioVertical(a: OptionTrade, b: OptionTrade)
    requires !Conditions.IncludesStockTrade(a.conditionId)
    requires a.strike != b.strike && a.expiry == b.expiry && a.orderAction != b.orderAction && a.kind == b.kind
    ensures ClassifyAsWritten([a, b], ShapeOf([a, b])) == Vertical
  {
    PairShape(a, b);
  }

  /** A call and a put at one strike and expiry, on the same side, make a straddle. */
  lemma {:induction false} ScenarioStraddle(a: OptionTrade, b: OptionTrade)
    requires !Conditions.IncludesStockTrade(a.conditionId)
    requires a.strike == b.strike && a.expiry == b.expiry && a.orderAction == b.orderAction && a.kind != b.kind
    ensures ClassifyAsWritten([a, b], ShapeOf([a, b])) == Straddle
  {
    PairShape(a, b);
  }

  /** Three legs of sizes 10, 10 and 20 on mixed sides make a butterfly. */
  lemma {:induction false} ScenarioButterfly(legs: seq<OptionTrade>)
    requires |legs| == 3 && legs[0].size == 10 && legs[1].size == 10 && legs[2].size == 20
    requires exists i | 0 <= i < 3 :: legs[i].orderAction != legs[0].orderAction
    ensures ClassifyAsWritten(legs, ShapeOf(legs)) == Butterfly
  {
    assert SizeSet(legs) == {10, 20} by {
      forall x | x in SizeSet(legs) ensures x in {10, 20} {
        var i :| 0 <= i < 3 && legs[i].size == x;
      }
      assert legs[0].size in SizeSet(legs);
      assert legs[2].size in SizeSet(legs);
    }
  }

  /** The stock-combined two-leg rules are symmetric in the two legs. */
  lemma {:induction false} PairWithStockSymmetric(a: OptionTrade, b: OptionTrade, sameStrike: bool)
    ensures PairWithStock([a, b], sameStrike) == PairWithStock([b, a], sameStrike)
  {
    var ab, ba := [a, b], [b, a];
    assert (forall i | 0 <= i < |ab| :: IsCallSell(ab[i])) <==> IsCallSell(a) && IsCallSell(b) by {
      assert ab[0] == a && ab[1] == b;
    }
    assert (forall i | 0 <= i < |ba| :: IsCallSell(ba[i])) <==> IsCallSell(a) && IsCallSell(b) by {
      assert ba[0] == b && ba[1] == a;
    }
    assert (forall i | 0 <= i < |ab| :: IsPutSell(ab[i])) <==> IsPutSell(a) && IsPutSell(b) by {
      assert ab[0] == a && ab[1] == b;
    }
    assert (forall i | 0 <= i < |ba| :: IsPutSell(ba[i])) <==> IsPutSell(a) && IsPutSell(b) by {
      assert ba[0] == b && ba[1] == a;
    }
  }

  /**
   * For two legs of one condition the name does not depend on which leg comes
   * first, although every flag is measured against leg 0.
   */
  lemma {:induction false} PairOrderIrrelevant(a: OptionTrade, b: OptionTrade)
    requires a.conditionId == b.conditionId
    ensures ClassifyAsWritten([a, b], ShapeOf([a, b])) == ClassifyAsWritten([b, a], ShapeOf([b, a]))
  {
    PairShape(a, b);
    PairShape(b, a);
    var s, t := ShapeOf([a, b]), ShapeOf([b, a]);
    if Conditions.IncludesStockTrade(a.conditionId) {
      assert ClassifyAsWritten([a, b], s) == PairWithStock([a, b], s.sameStrike);
      assert ClassifyAsWritten([b, a], t) == PairWithStock([b, a], t.sameStrike);
      PairWithStockSymmetric(a, b, s.sameStrike);
    } else {
      assert ClassifyAsWritten([a, b], s) == PairName(s.sameStrike, s.sameDate, s.sameAction, s.SameType());
      assert ClassifyAsWritten([b, a], t) == PairName(t.sameStrike, t.sameDate, t.sameAction, t.SameType());
    }
  }

  /** The iron layout whose sold put and sold call share a strike is an iron butterfly. */
  lemma {:induction false} ScenarioIronButterfly(legs: seq<OptionTrade>)
    requires IronLayout(legs) && legs[1].strike == legs[2].strike
    ensures ClassifyAsWritten(legs, ShapeOf(legs)) == IronButterfly
  {
    var s := ShapeOf(legs);
    NeverAllDifferent(legs);
    assert s.sameDate;
    assert !s.sameAction by { assert legs[1].orderAction != legs[0].orderAction; }
    assert ClassifyAsWritten(legs, s) == QuadName(legs, s, false);
    CondorInnerLegs(legs);
  }

  /**
   * The layout of a box: a bought call and a sold put at the lower strike, a
   * sold call and a bought put at the higher one, on one expiry, without stock.
   */
  predicate BoxLayout(legs: seq<OptionTrade>)
  {
    && |legs| == 4
    && !Conditions.IncludesStockTrade(legs[0].conditionId)
    && legs[0].kind == Call && legs[0].orderAction == Bought
    && legs[1].kind == Call && legs[1].orderAction == Sold
    && legs[2].kind == Put && legs[2].orderAction == Bought
    && legs[3].kind == Put && legs[3].orderAction == Sold
    && legs[0].strike == legs[3].strike < legs[1].strike == legs[2].strike
    && forall i | 0 <= i < 4 :: legs[i].expiry == legs[0].expiry
  }

  /** A box is classified as one. */
  lemma {:induction false} ScenarioBox(legs: seq<OptionTrade>)
    requires BoxLayout(legs)
    ensures ClassifyAsWritten(legs, ShapeOf(legs)) == Box
  {
    var s := ShapeOf(legs);
    NeverAllDifferent(legs);
    assert s.sameDate;
    assert !s.sameAction by { assert legs[1].orderAction != legs[0].orderAction; }
    assert ClassifyAsWritten(legs, s) == QuadName(legs, s, false);
    BoxInnerLegs(legs);
    BoxStrikes(legs);
  }

  /** In a box the first sold call is leg 1 and the first sold put is leg 3. */
  lemma {:induction false} BoxInnerLegs(legs: seq<OptionTrade>)
    requires BoxLayout(legs)
    ensures FirstWhere(legs, IsCallSell) == Some(legs[1])
    ensures FirstWhere(legs, IsPutSell) == Some(legs[3])
  {
    assert !IsCallSell(legs[0]) && IsCallSell(legs[1]);
    assert !IsPutSell(legs[0]) && !IsPutSell(legs[1]) && !IsPutSell(legs[2]) && IsPutSell(legs[3]);
    assert legs[1..][1..][1..] == legs[3..];
    assert FirstWhere(legs[3..], IsPutSell) == Some(legs[3]);
  }

  /** A box has two distinct strikes. */
  lemma {:induction false} BoxStrikes(legs: seq<OptionTrade>)
    requires BoxLayout(legs)
    ensures |StrikeSet(legs)| == 2
  {
    var lo, hi := legs[0].strike, legs[1].strike;
    assert StrikeSet(legs) == {lo, hi} by {
      forall x | x in StrikeSet(legs) ensures x == lo || x == hi {
        var i :| 0 <= i < 4 && legs[i].strike == x;
        assert i == 0 || i == 1 || i == 2 || i == 3;
      }
      assert legs[0].strike in StrikeSet(legs);
      assert legs[1].strike in StrikeSet(legs);
    }
    assert lo != hi;
  }

  /**
   * Although every flag compares the legs with leg 0, no flag depends on
   * which leg comes first: a "same" flag holds exactly when every two legs
   * agree, and a kind flag exactly when every leg is of that kind.
   */
  lemma {:induction false} ShapeIgnoresLegZero(legs: seq<OptionTrade>)
    requires |legs| >= 1
    ensures var s := ShapeOf(legs);
      && (s.sameDate <==> forall x, y | x in legs && y in legs :: x.expiry == y.expiry)
      && (s.sameStrike <==> forall x, y | x in legs && y in legs :: x.strike == y.strike)
      && (s.sameAction <==> forall x, y | x in legs && y in legs :: x.orderAction == y.orderAction)
      && (s.sameAmount <==> forall x, y | x in legs && y in legs :: x.size == y.size)
      && (s.allCall <==> forall x | x in legs :: x.kind == Call)
      && (s.allPut <==> forall x | x in legs :: x.kind == Put)
  {
    assert legs[0] in legs;
  }

  /** The distinct sizes are the sizes of the member prints. */
  lemma {:induction false} SizeSetOfMembers(legs: seq<OptionTrade>)
    ensures SizeSet(legs) == set x | x in legs :: x.size
  {
    forall v | v in set x | x in legs :: x.size ensures v in SizeSet(legs) {
      var x :| x in legs && x.size == v;
      var i :| 0 <= i < |legs| && legs[i] == x;
    }
  }

  /**
   * With three legs, or five or more, the name depends only on which prints
   * make up the set and how many there are, not on their order.
   */
  lemma {:induction false} ClassifyIgnoresLegOrder(l1: seq<OptionTrade>, l2: seq<OptionTrade>)
    requires |l1| == |l2| && (|l1| == 3 || |l1| >= 5)
    requires forall t :: t in l1 <==> t in l2
    ensures ClassifyAsWritten(l1, ShapeOf(l1)) == ClassifyAsWritten(l2, ShapeOf(l2))
  {
    SameMembersSameFlags(l1, l2);
    ClassifyByFlags(l1);
    ClassifyByFlags(l2);
    if |l1| == 3 {
      TripleNameByFlags(l1, ShapeOf(l1), l2, ShapeOf(l2));
    }
  }

  /** The three-leg rules read only the side, size and kind flags and the distinct sizes. */
  lemma {:induction false} TripleNameByFlags(l1: seq<OptionTrade>, s1: Shape, l2: seq<OptionTrade>, s2: Shape)
    requires |l1| == 3 && |l2| == 3
    requires s1.sameAction == s2.sameAction && s1.sameAmount == s2.sameAmount && s1.SameType() == s2.SameType()
    requires SizeSet(l1) == SizeSet(l2)
    ensures TripleName(l1, s1) == TripleName(l2, s2)
  {
  }

  /** With three legs, or five or more, the name is read off the side, size and kind flags and the distinct sizes. */
  lemma {:induction false} ClassifyByFlags(legs: seq<OptionTrade>)
    requires |legs| == 3 || |legs| >= 5
    ensures var s := ShapeOf(legs);
      ClassifyAsWritten(legs, s) == if |legs| == 3 then TripleName(legs, s)
                                    else if s.sameAction && s.SameType() then Ladder else Unrecognized
  {
  }

  /** Two leg-sets with the same members agree on every flag the three- and many-leg rules read. */
  lemma {:induction false} SameMembersSameFlags(l1: seq<OptionTrade>, l2: seq<OptionTrade>)
    requires |l1| >= 1 && |l2| >= 1
    requires forall t :: t in l1 <==> t in l2
    ensures var s1, s2 := ShapeOf(l1), ShapeOf(l2);
      && s1.sameAction == s2.sameAction
      && s1.sameAmount == s2.sameAmount
      && s1.SameType() == s2.SameType()
      && SizeSet(l1) == SizeSet(l2)
  {
    ShapeIgnoresLegZero(l1);
    ShapeIgnoresLegZero(l2);
    SizeSetOfMembers(l1);
    SizeSetOfMembers(l2);
  }
}
