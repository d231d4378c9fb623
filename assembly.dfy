/**
 * The spread aggregator of src/spreads.rs: each registered leg-set is folded
 * into running totals and shape flags, named by the classifier, adjusted for
 * an implied stock leg when its condition says stock was traded alongside,
 * given its sequence-number trail, and pushed to the output unless one of its
 * legs has an unknown side; the output then loses adjacent duplicates.
 */
module Assembly {
  import opened Wrappers
  import opened SingleOptions
  import Conditions
  import opened Trades
  import opened Spreads
  import opened Grouping

  /** The sum of `f` over the legs, accumulated front to back. */
  function SumOf(legs: seq<OptionTrade>, f: OptionTrade -> real): real
  {
    if legs == [] then 0.0 else SumOf(legs[..|legs| - 1], f) + f(legs[|legs| - 1])
  }

  /** A running maximum started at `init`: replaced whenever a leg's value is strictly larger. */
  function MaxOf(init: int, legs: seq<OptionTrade>, f: OptionTrade -> int): int
  {
    if legs == [] then init
    else
      var before := MaxOf(init, legs[..|legs| - 1], f);
      if f(legs[|legs| - 1]) > before then f(legs[|legs| - 1]) else before
  }

  /** The running maximum is the largest of `init` and the legs' values. */
  lemma {:induction false} MaxOfBounds(init: int, legs: seq<OptionTrade>, f: OptionTrade -> int)
    ensures MaxOf(init, legs, f) >= init
    ensures forall i | 0 <= i < |legs| :: MaxOf(init, legs, f) >= f(legs[i])
    ensures MaxOf(init, legs, f) == init || exists i | 0 <= i < |legs| :: MaxOf(init, legs, f) == f(legs[i])
  {
    if legs != [] {
      var n := |legs| - 1;
      MaxOfBounds(init, legs[..n], f);
      if MaxOf(init, legs[..n], f) != init && f(legs[n]) <= MaxOf(init, legs[..n], f) {
        var i :| 0 <= i < n && MaxOf(init, legs[..n], f) == f(legs[..n][i]);
        assert legs[..n][i] == legs[i];
      }
    }
  }

  function ExpiryOf(t: OptionTrade): int { t.expiry }
  function DteOf(t: OptionTrade): int { t.dte }

  /** The summary clauses of the option legs, in leg order. */
  function Clauses(legs: seq<OptionTrade>): seq<LegClause>
  {
    if legs == [] then [] else Clauses(legs[..|legs| - 1]) + [LegClauseOf(legs[|legs| - 1])]
  }

  /** One clause per leg, in leg order. */
  lemma {:induction false} ClausesMeans(legs: seq<OptionTrade>)
    ensures |Clauses(legs)| == |legs|
    ensures forall i | 0 <= i < |legs| :: Clauses(legs)[i] == LegClauseOf(legs[i])
  {
    if legs != [] {
      var n := |legs| - 1;
      ClausesMeans(legs[..n]);
      forall i | 0 <= i < n ensures Clauses(legs)[i] == LegClauseOf(legs[i]) {
        assert legs[..n][i] == legs[i];
      }
    }
  }

  /** Whether every leg satisfies `p`, accumulated front to back. */
  predicate Every(legs: seq<OptionTrade>, p: OptionTrade -> bool)
  {
    legs == [] || (Every(legs[..|legs| - 1], p) && p(legs[|legs| - 1]))
  }

  /** Whether some leg satisfies `p`, accumulated front to back. */
  predicate AnyLeg(legs: seq<OptionTrade>, p: OptionTrade -> bool)
  {
    legs != [] && (p(legs[|legs| - 1]) || AnyLeg(legs[..|legs| - 1], p))
  }

  lemma {:induction false} EveryMeans(legs: seq<OptionTrade>, p: OptionTrade -> bool)
    ensures Every(legs, p) <==> forall i | 0 <= i < |legs| :: p(legs[i])
  {
    if legs != [] {
      EveryMeans(legs[..|legs| - 1], p);
    }
  }

  lemma {:induction false} AnyLegMeans(legs: seq<OptionTrade>, p: OptionTrade -> bool)
    ensures AnyLeg(legs, p) <==> exists i | 0 <= i < |legs| :: p(legs[i])
  {
    if legs != [] {
      AnyLegMeans(legs[..|legs| - 1], p);
      var n := |legs| - 1;
      if exists i | 0 <= i < |legs| :: p(legs[i]) {
        var i :| 0 <= i < |legs| && p(legs[i]);
        if i < n {
          assert legs[..n][i] == legs[i];
        }
      }
    }
  }

  /** The per-leg tests the aggregation loop folds, each against a value taken from leg 0. */
  function SameExpiryAs(expiry: int): OptionTrade -> bool { (t: OptionTrade) => t.expiry == expiry }
  function SameStrikeAs(strike: real): OptionTrade -> bool { (t: OptionTrade) => t.strike == strike }
  function OtherStrikeThan(strike: real): OptionTrade -> bool { (t: OptionTrade) => t.strike != strike }
  function SameActionAs(action: OrderAction): OptionTrade -> bool { (t: OptionTrade) => t.orderAction == action }
  function SameSizeAs(size: int): OptionTrade -> bool { (t: OptionTrade) => t.size == size }
  predicate UnknownSide(t: OptionTrade) { t.orderAction == OrderAction.Unknown }

  /** A leg-set is poisoned when some leg's side could not be determined. */
  predicate Poisoned(legs: seq<OptionTrade>)
  {
    exists i | 0 <= i < |legs| :: legs[i].orderAction == OrderAction.Unknown
  }

  /** Everything the aggregation loop accumulates over the legs of one set. */
  datatype Fold = Fold(
    netValue: real,
    expiry: int,
    dte: int,
    netIv: real,
    delta: real,
    currentDelta: real,
    summary: seq<LegClause>,
    openingTrade: bool,
    poisoned: bool,
    shape: Shape)

  /**
   * The totals of a leg-set, each flag measured against the leg `first`:
   * signed premium, implied volatility and deltas summed, the latest expiry
   * (starting from `today`), the largest days to expiry (starting from 0),
   * the per-leg clauses, whether any leg opens a position, whether any leg is
   * poisoned, and the shape flags.
   */
  function Totals(legs: seq<OptionTrade>, first: OptionTrade, today: int): Fold
  {
    Fold(
      SumOf(legs, AmountPaid),
      MaxOf(today, legs, ExpiryOf),
      MaxOf(0, legs, DteOf),
      SumOf(legs, NetIv),
      SumOf(legs, NetDelta),
      SumOf(legs, NetCurrentDelta),
      Clauses(legs),
      AnyLeg(legs, IsOpening),
      AnyLeg(legs, UnknownSide),
      Shape(
        Every(legs, SameExpiryAs(first.expiry)),
        Every(legs, SameStrikeAs(first.strike)),
        Every(legs, OtherStrikeThan(first.strike)),
        Every(legs, SameActionAs(first.orderAction)),
        Every(legs, SameSizeAs(first.size)),
        Every(legs, IsCall),
        Every(legs, IsPut)))
  }

  /** The totals of a leg-set, with the flags measured against leg 0. */
  function FoldOf(legs: seq<OptionTrade>, today: int): Fold
    requires |legs| >= 1
  {
    Totals(legs, legs[0], today)
  }

  /** The accumulators after one more leg. */
  function Step(acc: Fold, trade: OptionTrade, first: OptionTrade): Fold
  {
    Fold(
      acc.netValue + AmountPaid(trade),
      if trade.expiry > acc.expiry then trade.expiry else acc.expiry,
      if trade.dte > acc.dte then trade.dte else acc.dte,
      acc.netIv + NetIv(trade),
      acc.delta + NetDelta(trade),
      acc.currentDelta + NetCurrentDelta(trade),
      acc.summary + [LegClauseOf(trade)],
      IsOpening(trade) || acc.openingTrade,
      UnknownSide(trade) || acc.poisoned,
      Shape(
        acc.shape.sameDate && trade.expiry == first.expiry,
        acc.shape.sameStrike && trade.strike == first.strike,
        acc.shape.allDifferentStrikes && trade.strike != first.strike,
        acc.shape.sameAction && trade.orderAction == first.orderAction,
        acc.shape.sameAmount && trade.size == first.size,
        acc.shape.allCall && trade.kind == Call,
        acc.shape.allPut && trade.kind == Put))
  }

  /** The initial accumulators: nothing summed, expiry `today`, every flag true except opening and poison. */
  function Start(today: int): Fold
  {
    Fold(0.0, today, 0, 0.0, 0.0, 0.0, [], false, false, Shape(true, true, true, true, true, true, true))
  }

  /** The accumulators after the legs, one step per leg. */
  function Folded(legs: seq<OptionTrade>, first: OptionTrade, today: int): Fold
  {
    if legs == [] then Start(today) else Step(Folded(legs[..|legs| - 1], first, today), legs[|legs| - 1], first)
  }

  /** Stepping through the legs computes their totals. */
  lemma {:induction false} FoldedIsTotals(legs: seq<OptionTrade>, first: OptionTrade, today: int)
    ensures Folded(legs, first, today) == Totals(legs, first, today)
  {
    if legs != [] {
      FoldedIsTotals(legs[..|legs| - 1], first, today);
    }
  }

  /** The folded shape flags are the shape the classifier is given. */
  lemma {:induction false} FoldShape(legs: seq<OptionTrade>, today: int)
    requires |legs| >= 1
    ensures FoldOf(legs, today).shape == ShapeOf(legs)
  {
    var first := legs[0];
    EveryMeans(legs, SameExpiryAs(first.expiry));
    EveryMeans(legs, SameStrikeAs(first.strike));
    EveryMeans(legs, OtherStrikeThan(first.strike));
    EveryMeans(legs, SameActionAs(first.orderAction));
    EveryMeans(legs, SameSizeAs(first.size));
    EveryMeans(legs, IsCall);
    EveryMeans(legs, IsPut);
  }

  /** The folded poison flag is `Poisoned`, and the opening flag says some leg opens a position. */
  lemma {:induction false} FoldFlags(legs: seq<OptionTrade>, today: int)
    requires |legs| >= 1
    ensures FoldOf(legs, today).poisoned == Poisoned(legs)
    ensures FoldOf(legs, today).openingTrade <==> exists i | 0 <= i < |legs| :: IsOpening(legs[i])
  {
    AnyLegMeans(legs, UnknownSide);
    AnyLegMeans(legs, IsOpening);
  }

  /**
   * The aggregation loop over one leg-set: the accumulators start as in
   * `Start` and take one `Step` per leg, flags measured against leg 0.
   */
  method FoldLegs(legs: seq<OptionTrade>, today: int) returns (f: Fold)
    requires |legs| >= 1
    ensures f == FoldOf(legs, today)
  {
    var first := legs[0];
    f := Start(today);
    for i := 0 to |legs|
      invariant f == Folded(legs[..i], first, today)
    {
      assert legs[..i + 1][..i] == legs[..i];
      f := Step(f, legs[i], first);
    }
    assert legs[..|legs|] == legs;
    FoldedIsTotals(legs, first, today);
  }

  /** Names whose implied stock leg is bought. */
  const LongStock: set<SpreadName> := {CoveredCall, Conversion, SyntheticCall}

  /** Names whose implied stock leg is shorted. */
  const ShortStock: set<SpreadName> := {CoveredPut, Reversal, SyntheticPut}

  /** The total number of contracts over the legs. */
  function TotalContracts(legs: seq<OptionTrade>): int
  {
    if legs == [] then 0 else TotalContracts(legs[..|legs| - 1]) + legs[|legs| - 1].size
  }

  /**
   * The dollar value of the implied shares, 100 per contract over all legs:
   * paid at leg 0's implied ask for a bought stock leg, received at its
   * implied bid for a shorted one, nothing for any other name.
   */
  function SharesValue(name: SpreadName, legs: seq<OptionTrade>): (r: real)
    requires |legs| >= 1
    ensures name !in LongStock && name !in ShortStock ==> r == 0.0
    ensures TotalContracts(legs) > 0 && legs[0].impliedUnderlyingAsk > 0.0 && name in LongStock ==> r > 0.0
    ensures TotalContracts(legs) > 0 && legs[0].impliedUnderlyingBid > 0.0 && name in ShortStock ==> r < 0.0
  {
    var total := TotalContracts(legs) as real;
    if name in LongStock then total * 100.0 * legs[0].impliedUnderlyingAsk
    else if name in ShortStock then -total * 100.0 * legs[0].impliedUnderlyingBid
    else 0.0
  }

  /** The clause describing the implied stock leg: 100 shares per contract of leg 0, at the side's price. */
  function StockClause(name: SpreadName, legs: seq<OptionTrade>): (r: LegClause)
    requires |legs| >= 1
    ensures r.StockLeg? && r.shares == 100 * legs[0].size
    ensures r.verb == BoughtShares <==> name in LongStock
    ensures r.verb == ShortedShares <==> name in ShortStock
  {
    if name in LongStock then StockLeg(BoughtShares, 100 * legs[0].size, legs[0].impliedUnderlyingAsk)
    else if name in ShortStock then StockLeg(ShortedShares, 100 * legs[0].size, legs[0].impliedUnderlyingBid)
    else StockLeg(TradedShares, 100 * legs[0].size, legs[0].impliedUnderlyingMid)
  }

  /**
   * The delta of the implied shares (one per share): long for a bought stock
   * leg, short for a shorted one; for a collar, long when the first sold leg
   * is a call and short when it is a put; none otherwise.
   */
  function DeltaAdjustment(name: SpreadName, legs: seq<OptionTrade>): (r: real)
    ensures var shares := TotalContracts(legs) as real * 100.0;
      && (name in LongStock ==> r == shares)
      && (name in ShortStock ==> r == -shares)
      && (name == Collar && FirstWhere(legs, IsSell).Some? ==>
            r == (if FirstWhere(legs, IsSell).value.kind == Call then shares else -shares))
      && (name == Collar && FirstWhere(legs, IsSell) == None ==> r == 0.0)
      && (name !in LongStock && name !in ShortStock && name != Collar ==> r == 0.0)
  {
    var shares := TotalContracts(legs) as real * 100.0;
    if name in LongStock then shares
    else if name in ShortStock then -shares
    else if name == Collar then
      match FirstWhere(legs, IsSell)
      case Some(sold) => (if sold.kind == Call then shares else -shares)
      case None => 0.0
    else 0.0
  }

  /** The view of a position by the sign of its delta. */
  function ExpectationOfDelta(delta: real): Expectation
  {
    if delta > 0.0 then Bullish else if delta < 0.0 then Bearish else Neutral
  }

  /**
   * The three stock adjustments agree on the side of the implied shares: for
   * a bought or shorted stock leg, the delta added is long exactly when the
   * summary says the shares were bought, and, at positive prices, exactly
   * when the shares' value is paid rather than received.
   */
  lemma {:induction false} StockSideAgrees(name: SpreadName, legs: seq<OptionTrade>)
    requires |legs| >= 1 && TotalContracts(legs) > 0
    requires name in LongStock || name in ShortStock
    ensures DeltaAdjustment(name, legs) > 0.0 <==> StockClause(name, legs).verb == BoughtShares
    ensures DeltaAdjustment(name, legs) < 0.0 <==> StockClause(name, legs).verb == ShortedShares
    ensures legs[0].impliedUnderlyingAsk > 0.0 && legs[0].impliedUnderlyingBid > 0.0 ==>
      (DeltaAdjustment(name, legs) > 0.0 <==> SharesValue(name, legs) > 0.0)
  {
  }

  /** The contracts of one leg are its size. */
  lemma {:induction false} OneLegContracts(t: OptionTrade)
    ensures TotalContracts([t]) == t.size
  {
    assert [t][..0] == [];
  }

  /**
   * The implied shares hedge a lone option printed with stock: their delta is
   * long exactly when the option's view is bearish, short exactly when it is
   * bullish, and absent when the option's side is unknown.
   */
  lemma {:induction false} SingleLegHedge(t: OptionTrade)
    requires Conditions.IncludesStockTrade(t.conditionId) && t.size > 0
    ensures var d := DeltaAdjustment(ClassifyAsWritten([t], ShapeOf([t])), [t]);
      && (d > 0.0 <==> ExpectationOf(t.kind, t.orderAction) == Bearish)
      && (d < 0.0 <==> ExpectationOf(t.kind, t.orderAction) == Bullish)
      && (d == 0.0 <==> t.orderAction == OrderAction.Unknown)
  {
    OneLegContracts(t);
    assert ClassifyAsWritten([t], ShapeOf([t])) == SingleLegWithStock(t);
  }

  /**
   * For two options printed with stock and named a conversion, reversal,
   * collar or covered position, the sold leg decides the shares: a sold call
   * is covered by bought stock (long delta), a sold put by shorted stock.
   */
  lemma {:induction false} SoldLegDecidesStockSide(a: OptionTrade, b: OptionTrade)
    requires Conditions.IncludesStockTrade(a.conditionId) && TotalContracts([a, b]) > 0
    requires ClassifyAsWritten([a, b], ShapeOf([a, b])) in {Conversion, Reversal, Collar, CoveredCall, CoveredPut}
    ensures var name, sold := ClassifyAsWritten([a, b], ShapeOf([a, b])), FirstWhere([a, b], IsSell);
      && sold.Some?
      && (DeltaAdjustment(name, [a, b]) > 0.0 <==> sold.value.kind == Call)
      && (DeltaAdjustment(name, [a, b]) < 0.0 <==> sold.value.kind == Put)
  {
    var sameStrike := ShapeOf([a, b]).sameStrike;
    assert ClassifyAsWritten([a, b], ShapeOf([a, b])) == PairWithStock([a, b], sameStrike);
    PairSoldLegDecides(a, b, sameStrike);
  }

  /** The stock side of a named stock pair follows its first sold leg. */
  lemma {:induction false} PairSoldLegDecides(a: OptionTrade, b: OptionTrade, sameStrike: bool)
    requires TotalContracts([a, b]) > 0
    requires PairWithStock([a, b], sameStrike) in {Conversion, Reversal, Collar, CoveredCall, CoveredPut}
    ensures var name, sold := PairWithStock([a, b], sameStrike), FirstWhere([a, b], IsSell);
      && sold.Some?
      && (DeltaAdjustment(name, [a, b]) > 0.0 <==> sold.value.kind == Call)
      && (DeltaAdjustment(name, [a, b]) < 0.0 <==> sold.value.kind == Put)
  {
    var legs := [a, b];
    var name := PairWithStock(legs, sameStrike);
    PairWithStockMeans(legs, sameStrike);
    FirstSoldOfPair(a, b);
  }

  /** The first sold leg of a pair: the first leg when it is sold, else the second when that one is. */
  lemma {:induction false} FirstSoldOfPair(a: OptionTrade, b: OptionTrade)
    ensures IsSell(a) ==> FirstWhere([a, b], IsSell) == Some(a)
    ensures !IsSell(a) && IsSell(b) ==> FirstWhere([a, b], IsSell) == Some(b)
  {
    assert [a, b][1..] == [b];
    assert [b][1..] == [];
  }

  /** The sequence numbers of `s` in order. */
  function Numbers(s: seq<OptionTrade>, f: SeqField): (r: seq<int>)
    ensures |r| == |s| && forall i | 0 <= i < |s| :: r[i] == SeqOf(s[i], f)
  {
    if s == [] then [] else Numbers(s[..|s| - 1], f) + [SeqOf(s[|s| - 1], f)]
  }

  /** Numbers in ascending order. */
  predicate Ascending(ns: seq<int>)
  {
    forall i | 0 < i < |ns| :: ns[i - 1] <= ns[i]
  }

  /** Listing the numbers of a concatenation lists each part's numbers in turn. */
  lemma {:induction false} NumbersAppend(u: seq<OptionTrade>, v: seq<OptionTrade>, f: SeqField)
    ensures Numbers(u + v, f) == Numbers(u, f) + Numbers(v, f)
  {
    assert forall i | 0 <= i < |u + v| :: (u + v)[i] == if i < |u| then u[i] else v[i - |u|];
  }

  /** Two orderings of the same legs list the same numbers, counted with multiplicity. */
  lemma {:induction false} NumbersPermutation(a: seq<OptionTrade>, b: seq<OptionTrade>, f: SeqField)
    requires multiset(a) == multiset(b)
    ensures multiset(Numbers(a, f)) == multiset(Numbers(b, f))
    decreases |a|
  {
    if a != [] {
      var n := |a| - 1;
      var j := MatchLast(a, b);
      var rest := b[..j] + b[j + 1..];
      NumbersPermutation(a[..n], rest, f);
      NumbersWithout(b, j, f);
      NumbersWithout(a, n, f);
      assert a[..n] + a[n + 1..] == a[..n];
    }
  }

  /** The last element of `a` sits somewhere in a permutation `b`, and the rest of both agree. */
  lemma {:induction false} MatchLast(a: seq<OptionTrade>, b: seq<OptionTrade>) returns (j: int)
    requires multiset(a) == multiset(b) && a != []
    ensures 0 <= j < |b| && b[j] == a[|a| - 1]
    ensures multiset(a[..|a| - 1]) == multiset(b[..j] + b[j + 1..])
  {
    var n := |a| - 1;
    var x := a[n];
    assert a == a[..n] + [x];
    assert x in multiset(b);
    j :| 0 <= j < |b| && b[j] == x;
    assert b == b[..j] + [x] + b[j + 1..];
    assert multiset(b) == multiset(b[..j] + b[j + 1..]) + multiset{x} by {
      assert multiset(b) == multiset(b[..j]) + multiset{x} + multiset(b[j + 1..]);
    }
    assert multiset(a[..n]) == multiset(a) - multiset{x};
    assert multiset(b[..j] + b[j + 1..]) == multiset(b) - multiset{x};
  }

  /** Listing the numbers with one leg taken out lists them with that leg's number taken out. */
  lemma {:induction false} NumbersWithout(b: seq<OptionTrade>, j: int, f: SeqField)
    requires 0 <= j < |b|
    ensures multiset(Numbers(b, f)) == multiset(Numbers(b[..j] + b[j + 1..], f)) + multiset{SeqOf(b[j], f)}
  {
    assert b == b[..j] + [b[j]] + b[j + 1..];
    NumbersAppend(b[..j] + [b[j]], b[j + 1..], f);
    NumbersAppend(b[..j], [b[j]], f);
    NumbersAppend(b[..j], b[j + 1..], f);
  }

  /** Sorting the legs by a number and listing that number gives the legs' numbers in ascending order. */
  lemma {:induction false} SortedListing(legs: seq<OptionTrade>, f: SeqField)
    ensures Ascending(Numbers(SortBy(legs, f), f))
    ensures multiset(Numbers(SortBy(legs, f), f)) == multiset(Numbers(legs, f))
  {
    SortByMeans(legs, f);
    NumbersPermutation(SortBy(legs, f), legs, f);
  }

  /** Re-sorting the global order by exchange number lists every exchange number, ascending. */
  lemma {:induction false} ExchangeListing(legs: seq<OptionTrade>)
    ensures var ns := Numbers(SortBy(SortBy(legs, GlobalSeq), ExchangeSeq), ExchangeSeq);
      Ascending(ns) && multiset(ns) == multiset(Numbers(legs, ExchangeSeq))
  {
    SortedListing(SortBy(legs, GlobalSeq), ExchangeSeq);
    SortByMeans(legs, GlobalSeq);
    NumbersPermutation(SortBy(legs, GlobalSeq), legs, ExchangeSeq);
  }

  /** The trail's test as the source writes it: each number one LESS than the one before. */
  predicate DescendingRun(s: seq<OptionTrade>)
  {
    forall m | 1 <= m < |s| - 1 :: s[m].seqNo == s[m - 1].seqNo - 1
  }

  /**
   * The sequence-number trail as written: the global numbers when the legs
   * sorted ascending by them form a descending run, otherwise the exchange
   * numbers after re-sorting by those.
   */
  function SequenceTrailAsWritten(legs: seq<OptionTrade>): (r: SequenceTrail)
    requires |legs| >= 1
    ensures |legs| <= 2 ==> r.SeqNoTrail?
  {
    var bySeq := SortBy(legs, GlobalSeq);
    if DescendingRun(bySeq) then SeqNoTrail(Numbers(bySeq, GlobalSeq))
    else ExchangeSeqNoTrail(Numbers(SortBy(bySeq, ExchangeSeq), ExchangeSeq))
  }

  /** As written, a set of three or more legs never gets the global-number trail, whatever its numbers. */
  lemma {:induction false} AsWrittenTrailNeverGlobal(legs: seq<OptionTrade>)
    requires |legs| >= 3
    ensures SequenceTrailAsWritten(legs).ExchangeSeqNoTrail?
  {
    var bySeq := SortBy(legs, GlobalSeq);
    SortByMeans(legs, GlobalSeq);
    assert SeqOf(bySeq[0], GlobalSeq) <= SeqOf(bySeq[1], GlobalSeq);
    assert !DescendingRun(bySeq);
  }

  /**
   * The numbers a trail as written lists: every global number of the legs in
   * ascending order for a global trail, every exchange number in ascending
   * order otherwise.
   */
  lemma {:induction false} AsWrittenTrailLists(legs: seq<OptionTrade>)
    requires |legs| >= 1
    ensures var r := SequenceTrailAsWritten(legs);
      && !r.BothNumbers?
      && Ascending(r.numbers)
      && (r.SeqNoTrail? ==> multiset(r.numbers) == multiset(Numbers(legs, GlobalSeq)))
      && (r.ExchangeSeqNoTrail? ==> multiset(r.numbers) == multiset(Numbers(legs, ExchangeSeq)))
  {
    SortedListing(legs, GlobalSeq);
    ExchangeListing(legs);
  }

  /**
   * The trail with the test the leg check uses (each number one more than the
   * one before): the global numbers exactly when the leg check accepted the
   * set by its global numbers, and then in the order the check left the legs.
   */
  function SequenceTrail(legs: seq<OptionTrade>): (r: SequenceTrail)
    requires |legs| >= 1
    ensures r.SeqNoTrail? <==> RunOk(SortBy(legs, GlobalSeq), GlobalSeq)
    ensures r.SeqNoTrail? ==> r.numbers == Numbers(Arranged(legs), GlobalSeq)
    ensures r.ExchangeSeqNoTrail? ==> |r.numbers| == |legs|
    ensures !r.BothNumbers?
    ensures |legs| <= 2 ==> r.SeqNoTrail?
  {
    var bySeq := SortBy(legs, GlobalSeq);
    if RunOk(bySeq, GlobalSeq) then SeqNoTrail(Numbers(bySeq, GlobalSeq))
    else ExchangeSeqNoTrail(Numbers(SortBy(bySeq, ExchangeSeq), ExchangeSeq))
  }
  /** The numbers the corrected trail lists: every global, or else every exchange, number of the legs, ascending. */
  lemma {:induction false} SequenceTrailLists(legs: seq<OptionTrade>)
    requires |legs| >= 1
    ensures var r := SequenceTrail(legs);
      && Ascending(r.numbers)
      && (r.SeqNoTrail? ==> multiset(r.numbers) == multiset(Numbers(legs, GlobalSeq)))
      && (r.ExchangeSeqNoTrail? ==> multiset(r.numbers) == multiset(Numbers(legs, ExchangeSeq)))
  {
    SortedListing(legs, GlobalSeq);
    ExchangeListing(legs);
  }


  /** Three legs numbered 1, 2, 3 form a run, and list those numbers. */
  lemma {:induction false} RunOfThree(a: OptionTrade, b: OptionTrade, c: OptionTrade)
    requires a.seqNo == 1 && b.seqNo == 2 && c.seqNo == 3
    ensures RunOk([a, b, c], GlobalSeq)
    ensures Numbers([a, b, c], GlobalSeq) == [1, 2, 3]
  {
  }

  /** Legs numbered 1, 2, 3 get the global trail 1-2-3 (which, as written, `AsWrittenTrailNeverGlobal` rules out). */
  lemma {:induction false} ConsecutiveLegsGetGlobalTrail(a: OptionTrade, b: OptionTrade, c: OptionTrade)
    requires a.seqNo == 1 && b.seqNo == 2 && c.seqNo == 3
    ensures SequenceTrail([a, b, c]) == SeqNoTrail([1, 2, 3])
  {
    SortedTripleUnchanged(a, b, c, GlobalSeq);
    RunOfThree(a, b, c);
  }

  /** Lists the sequence numbers of the sorted legs one by one. */
  method ListNumbers(s: seq<OptionTrade>, f: SeqField) returns (ns: seq<int>)
    ensures ns == Numbers(s, f)
  {
    ns := [];
    for k := 0 to |s|
      invariant ns == Numbers(s[..k], f)
    {
      assert s[..k + 1][..k] == s[..k];
      ns := ns + [SeqOf(s[k], f)];
    }
    assert s[..|s|] == s;
  }

  /**
   * Builds the trail as the source does: sorts by global number, tests each
   * number against the one before minus one over the indices 1 .. len-1, and
   * lists whichever numbers that settles on.
   */
  method ConsecutiveSummary(legs: seq<OptionTrade>) returns (trail: SequenceTrail)
    requires |legs| >= 1
    ensures trail == SequenceTrailAsWritten(legs)
  {
    var sorted := SortBy(legs, GlobalSeq);
    var consecutive := true;
    var n := 1;
    while n < |sorted| - 1
      invariant 1 <= n && (n <= |sorted| - 1 || n == 1)
      invariant consecutive == forall m | 1 <= m < n :: sorted[m].seqNo == sorted[m - 1].seqNo - 1
    {
      consecutive := consecutive && sorted[n].seqNo == sorted[n - 1].seqNo - 1;
      n := n + 1;
    }
    if consecutive {
      var ns := ListNumbers(sorted, GlobalSeq);
      trail := SeqNoTrail(ns);
    } else {
      sorted := SortBy(sorted, ExchangeSeq);
      var ns := ListNumbers(sorted, ExchangeSeq);
      trail := ExchangeSeqNoTrail(ns);
    }
  }

  /**
   * The strategy record built from a leg-set's fold, its name and its trail:
   * the stock adjustment is applied when leg 0's condition says stock was
   * traded alongside, and type and view are read off the adjusted totals.
   */
  function Assemble(legs: seq<OptionTrade>, f: Fold, name: SpreadName, trail: SequenceTrail): OptionSpread
    requires |legs| >= 1
  {
    var stock := Conditions.IncludesStockTrade(legs[0].conditionId);
    var netValue := if stock then f.netValue + SharesValue(name, legs) else f.netValue;
    var adjustment := if stock then DeltaAdjustment(name, legs) else 0.0;
    OptionSpread(
      legs[0].root,
      name,
      if netValue > 0.0 then Debit else Credit,
      netValue,
      f.expiry,
      f.dte,
      f.netIv,
      f.currentDelta + adjustment,
      f.delta + adjustment,
      ExpectationOfDelta(f.delta + adjustment),
      legs[0].timestamp,
      legs[0].conditionId,
      legs[0].exchangeId,
      |legs| + (if stock then 1 else 0),
      if stock then f.summary + [StockClause(name, legs)] else f.summary,
      f.openingTrade,
      trail)
  }

  /** The strategy reconstructed from one leg-set, named and trailed as the source does. */
  function SpreadOf(legs: seq<OptionTrade>, today: int): OptionSpread
    requires |legs| >= 1
  {
    Assemble(legs, FoldOf(legs, today), ClassifyAsWritten(legs, ShapeOf(legs)), SequenceTrailAsWritten(legs))
  }

  /** The strategy the evidently intended classifier and trail would give. */
  function IntendedSpreadOf(legs: seq<OptionTrade>, today: int): OptionSpread
    requires |legs| >= 1
  {
    Assemble(legs, FoldOf(legs, today), Classify(legs, ShapeOf(legs)), SequenceTrail(legs))
  }

  /**
   * The two corrections change the name and the trail and nothing else: the
   * stock adjustment, totals and summary are those of the source's strategy.
   */
  lemma {:induction false} CorrectionsChangeOnlyNameAndTrail(legs: seq<OptionTrade>, today: int)
    requires |legs| >= 1
    ensures var r := IntendedSpreadOf(legs, today);
      SpreadOf(legs, today) == r.(spreadName := ClassifyAsWritten(legs, ShapeOf(legs)),
                                  sequenceNumbers := SequenceTrailAsWritten(legs))
  {
    var shape, f := ShapeOf(legs), FoldOf(legs, today);
    assert SpreadOf(legs, today) == Assemble(legs, f, ClassifyAsWritten(legs, shape), SequenceTrailAsWritten(legs));
    assert IntendedSpreadOf(legs, today) == Assemble(legs, f, Classify(legs, shape), SequenceTrail(legs));
    CondorTestOnlyNamesFourLegs(legs, shape, shape.allDifferentStrikes, |StrikeSet(legs)| == |legs|);
    AssembleRenamed(legs, f, ClassifyAsWritten(legs, shape), Classify(legs, shape),
                    SequenceTrailAsWritten(legs), SequenceTrail(legs));
  }

  /**
   * The iron-condor strike test only matters for four legs, and there every
   * outcome is an option-only name that adds no stock delta, value or side.
   */
  lemma {:induction false} CondorTestOnlyNamesFourLegs(legs: seq<OptionTrade>, s: Shape, c1: bool, c2: bool)
    requires |legs| >= 1
    ensures var n1, n2 := ClassifyWith(legs, s, c1), ClassifyWith(legs, s, c2);
      n1 == n2 || (n1 in {IronCondoor, IronButterfly, Box, Unrecognized} && n2 in {IronCondoor, IronButterfly, Box, Unrecognized})
  {
  }

  /**
   * Two four-leg names, which add no stock delta, value or side, assemble
   * the same strategy apart from the name and the trail.
   */
  lemma {:induction false} AssembleRenamed(legs: seq<OptionTrade>, f: Fold, n1: SpreadName, n2: SpreadName,
                                           t1: SequenceTrail, t2: SequenceTrail)
    requires |legs| >= 1
    requires n1 == n2 || (n1 in {IronCondoor, IronButterfly, Box, Unrecognized} && n2 in {IronCondoor, IronButterfly, Box, Unrecognized})
    ensures Assemble(legs, f, n1, t1) == Assemble(legs, f, n2, t2).(spreadName := n1, sequenceNumbers := t1)
  {
    if n1 != n2 {
      assert n1 !in LongStock && n1 !in ShortStock && n1 != Collar;
      assert n2 !in LongStock && n2 !in ShortStock && n2 != Collar;
      assert SharesValue(n1, legs) == SharesValue(n2, legs);
      assert DeltaAdjustment(n1, legs) == DeltaAdjustment(n2, legs);
      assert StockClause(n1, legs) == StockClause(n2, legs);
    }
  }

  /** A textbook iron condor leaves the source unrecognized but is named an iron condor once corrected. */
  lemma {:induction false} PipelineIronCondor(legs: seq<OptionTrade>, today: int)
    requires TextbookIronCondor(legs)
    ensures SpreadOf(legs, today).spreadName == Unrecognized
    ensures IntendedSpreadOf(legs, today).spreadName == IronCondoor
  {
    IronCondorUnrecognizedAsWritten(legs);
    IronCondorRecognized(legs);
  }

  /** Legs numbered 1, 2, 3 get the exchange trail from the source and the global trail 1-2-3 once corrected. */
  lemma {:induction false} PipelineTrailOfThree(a: OptionTrade, b: OptionTrade, c: OptionTrade, today: int)
    requires a.seqNo == 1 && b.seqNo == 2 && c.seqNo == 3
    ensures SpreadOf([a, b, c], today).sequenceNumbers.ExchangeSeqNoTrail?
    ensures IntendedSpreadOf([a, b, c], today).sequenceNumbers == SeqNoTrail([1, 2, 3])
  {
    AsWrittenTrailNeverGlobal([a, b, c]);
    ConsecutiveLegsGetGlobalTrail(a, b, c);
  }

  /**
   * Net value: the legs' signed premium plus, for a stock-combined set, the
   * signed value of the implied shares; a debit exactly when positive, a
   * credit otherwise, never of unknown type.
   */
  lemma {:induction false} SpreadNetValue(legs: seq<OptionTrade>, today: int)
    requires |legs| >= 1
    ensures var r := SpreadOf(legs, today);
      && r.netValue == SumOf(legs, AmountPaid)
           + (if Conditions.IncludesStockTrade(legs[0].conditionId) then SharesValue(r.spreadName, legs) else 0.0)
      && (r.spreadType == Debit <==> r.netValue > 0.0)
      && (r.spreadType == Credit <==> r.netValue <= 0.0)
  {
  }

  /**
   * Delta and live delta are the legs' signed sums plus the same stock
   * adjustment, the delta of the implied shares for a stock-combined set and
   * none otherwise; the view follows the sign of the adjusted delta.
   */
  lemma {:induction false} SpreadDelta(legs: seq<OptionTrade>, today: int)
    requires |legs| >= 1
    ensures var r := SpreadOf(legs, today);
      var adjustment := if Conditions.IncludesStockTrade(legs[0].conditionId) then DeltaAdjustment(r.spreadName, legs) else 0.0;
      && r.deltaWhenOpened == SumOf(legs, NetDelta) + adjustment
      && r.currentDelta == SumOf(legs, NetCurrentDelta) + adjustment
      && r.deltaWhenOpened - SumOf(legs, NetDelta) == r.currentDelta - SumOf(legs, NetCurrentDelta)
      && (!Conditions.IncludesStockTrade(legs[0].conditionId) ==> r.deltaWhenOpened == SumOf(legs, NetDelta))
      && (r.expectation == Bullish <==> r.deltaWhenOpened > 0.0)
      && (r.expectation == Bearish <==> r.deltaWhenOpened < 0.0)
      && (r.expectation == Neutral <==> r.deltaWhenOpened == 0.0)
  {
  }

  /**
   * One summary clause per option leg in leg order, followed by one stock
   * clause exactly when stock was traded alongside; the leg count matches.
   */
  lemma {:induction false} SpreadLegs(legs: seq<OptionTrade>, today: int)
    requires |legs| >= 1
    ensures var r := SpreadOf(legs, today);
      var stock := Conditions.IncludesStockTrade(legs[0].conditionId);
      && r.legNumber == |legs| + (if stock then 1 else 0)
      && |r.summary| == r.legNumber
      && (forall i | 0 <= i < |legs| :: r.summary[i] == LegClauseOf(legs[i]))
      && (forall i | |legs| <= i < |r.summary| :: r.summary[i] == StockClause(r.spreadName, legs))
  {
    AssembledSummary(legs, FoldOf(legs, today), ClassifyAsWritten(legs, ShapeOf(legs)), SequenceTrailAsWritten(legs));
  }

  /** The summary an assembled record carries, whatever its name and trail. */
  lemma {:induction false} AssembledSummary(legs: seq<OptionTrade>, f: Fold, name: SpreadName, trail: SequenceTrail)
    requires |legs| >= 1 && f.summary == Clauses(legs)
    ensures var r := Assemble(legs, f, name, trail);
      var stock := Conditions.IncludesStockTrade(legs[0].conditionId);
      && r.legNumber == |legs| + (if stock then 1 else 0)
      && |r.summary| == r.legNumber
      && (forall i | 0 <= i < |legs| :: r.summary[i] == LegClauseOf(legs[i]))
      && (forall i | |legs| <= i < |r.summary| :: r.summary[i] == StockClause(name, legs))
  {
    ClausesMeans(legs);
  }

  /**
   * The expiry is the latest of today and the legs' expiries, the days to
   * expiry the largest of 0 and the legs' days, the IV the legs' signed IV
   * sum; the strategy
   * opens a position when any leg does; it is named by the source's
   * classifier from the folded shape, carries the source's trail, and keeps
   * leg 0's identity.
   */
  lemma {:induction false} SpreadIdentity(legs: seq<OptionTrade>, today: int)
    requires |legs| >= 1
    ensures var r := SpreadOf(legs, today);
      && r.expirationDate >= today
      && (forall i | 0 <= i < |legs| :: r.expirationDate >= legs[i].expiry)
      && (r.expirationDate == today || exists i | 0 <= i < |legs| :: r.expirationDate == legs[i].expiry)
      && r.dte == MaxOf(0, legs, DteOf)
      && (forall i | 0 <= i < |legs| :: r.dte >= legs[i].dte)
      && r.netIv == SumOf(legs, NetIv)
      && (r.openingTrade <==> exists i | 0 <= i < |legs| :: IsOpening(legs[i]))
      && r.spreadName == ClassifyAsWritten(legs, ShapeOf(legs))
      && r.sequenceNumbers == SequenceTrailAsWritten(legs)
      && r.symbol == legs[0].root && r.timestamp == legs[0].timestamp
      && r.conditionId == legs[0].conditionId && r.exchange == legs[0].exchangeId
  {
    MaxOfBounds(today, legs, ExpiryOf);
    MaxOfBounds(0, legs, DteOf);
    FoldFlags(legs, today);
  }

  /**
   * The loop body of the aggregator for one leg-set: fold, classify, adjust
   * for stock, and report whether the set is poisoned.
   */
  method BuildSpread(legs: seq<OptionTrade>, today: int) returns (spread: OptionSpread, poisoned: bool)
    requires |legs| >= 1
    ensures spread == SpreadOf(legs, today)
    ensures poisoned == Poisoned(legs)
  {
    var f := FoldLegs(legs, today);
    FoldShape(legs, today);
    FoldFlags(legs, today);
    var spreadName := ClassifyAsWritten(legs, f.shape);
    var trail := ConsecutiveSummary(legs);
    spread := Assemble(legs, f, spreadName, trail);
    poisoned := f.poisoned;
  }

  /** A covered call: a sold call executed with stock carries a bought stock leg at the implied ask. */
  lemma {:induction false} ScenarioCoveredCall(t: OptionTrade, today: int)
    requires Conditions.IncludesStockTrade(t.conditionId) && t.kind == Call && t.orderAction == Sold
    ensures var r := SpreadOf([t], today);
      && r.spreadName == CoveredCall
      && r.legNumber == 2
      && r.netValue == -t.notionalValue + t.size as real * 100.0 * t.impliedUnderlyingAsk
      && r.deltaWhenOpened == -t.delta * t.size as real + t.size as real * 100.0
      && r.summary == [LegClauseOf(t), StockLeg(BoughtShares, 100 * t.size, t.impliedUnderlyingAsk)]
  {
    var f := FoldOf([t], today);
    SoldCallWithStockIsCovered(t);
    assert SpreadOf([t], today) == Assemble([t], f, CoveredCall, SequenceTrailAsWritten([t]));
    SingleLegFold(t, today);
    AssembleCoveredCall(t, f, SequenceTrailAsWritten([t]));
  }

  /** A covered call assembled from a sold call's own totals. */
  lemma {:induction false} AssembleCoveredCall(t: OptionTrade, f: Fold, trail: SequenceTrail)
    requires Conditions.IncludesStockTrade(t.conditionId) && t.orderAction == Sold
    requires f.netValue == AmountPaid(t) && f.delta == NetDelta(t) && f.summary == [LegClauseOf(t)]
    ensures var r := Assemble([t], f, CoveredCall, trail);
      && r.spreadName == CoveredCall
      && r.legNumber == 2
      && r.netValue == -t.notionalValue + t.size as real * 100.0 * t.impliedUnderlyingAsk
      && r.deltaWhenOpened == -t.delta * t.size as real + t.size as real * 100.0
      && r.summary == [LegClauseOf(t), StockLeg(BoughtShares, 100 * t.size, t.impliedUnderlyingAsk)]
  {
    OneLegContracts(t);
    AssembleLongStock([t], f, CoveredCall, trail);
    var stockLeg := StockLeg(BoughtShares, 100 * t.size, t.impliedUnderlyingAsk);
    assert [LegClauseOf(t)] + [stockLeg] == [LegClauseOf(t), stockLeg];
  }

  /** With stock and a bought-stock name, the shares add their value, their delta and their clause. */
  lemma {:induction false} AssembleLongStock(legs: seq<OptionTrade>, f: Fold, name: SpreadName, trail: SequenceTrail)
    requires |legs| >= 1 && Conditions.IncludesStockTrade(legs[0].conditionId) && name in LongStock
    ensures var r, shares := Assemble(legs, f, name, trail), TotalContracts(legs) as real * 100.0;
      && r.spreadName == name
      && r.legNumber == |legs| + 1
      && r.netValue == f.netValue + shares * legs[0].impliedUnderlyingAsk
      && r.deltaWhenOpened == f.delta + shares
      && r.summary == f.summary + [StockLeg(BoughtShares, 100 * legs[0].size, legs[0].impliedUnderlyingAsk)]
  {
  }

  /** A lone sold call printed with stock is named a covered call. */
  lemma {:induction false} SoldCallWithStockIsCovered(t: OptionTrade)
    requires Conditions.IncludesStockTrade(t.conditionId) && t.kind == Call && t.orderAction == Sold
    ensures ClassifyAsWritten([t], ShapeOf([t])) == CoveredCall
  {
    assert IsCallSell(t);
  }

  /** The totals of one leg are that leg's own signed premium, delta and clause. */
  lemma {:induction false} SingleLegFold(t: OptionTrade, today: int)
    ensures var f := FoldOf([t], today);
      && f.netValue == AmountPaid(t)
      && f.delta == NetDelta(t)
      && f.summary == [LegClauseOf(t)]
  {
    var legs := [t];
    assert legs[..|legs| - 1] == [];
    assert SumOf(legs, AmountPaid) == 0.0 + AmountPaid(t);
    assert SumOf(legs, NetDelta) == 0.0 + NetDelta(t);
    assert Clauses(legs) == [] + [LegClauseOf(t)];
  }

  /** Every leg's side reversed. */
  function FlipAll(legs: seq<OptionTrade>): (r: seq<OptionTrade>)
    ensures |r| == |legs|
    ensures forall i | 0 <= i < |legs| :: r[i] == legs[i].(orderAction := Flip(legs[i].orderAction))
  {
    if legs == [] then [] else FlipAll(legs[..|legs| - 1]) + [legs[|legs| - 1].(orderAction := Flip(legs[|legs| - 1].orderAction))]
  }

  /** Reversing every side negates a sum of side-signed quantities. */
  lemma {:induction false} FlipAllNegatesSums(legs: seq<OptionTrade>)
    ensures SumOf(FlipAll(legs), AmountPaid) == -SumOf(legs, AmountPaid)
    ensures SumOf(FlipAll(legs), NetDelta) == -SumOf(legs, NetDelta)
    ensures SumOf(FlipAll(legs), NetCurrentDelta) == -SumOf(legs, NetCurrentDelta)
  {
    if legs != [] {
      var n := |legs| - 1;
      FlipAllNegatesSums(legs[..n]);
      assert FlipAll(legs)[..n] == FlipAll(legs[..n]);
      FlippedSideNegates(legs[n]);
    }
  }

  /**
   * The counterparty's view of a set without stock: its net value and deltas
   * are negated, its view is the opposite, and each side is a debit exactly
   * when the other's net value is negative (so debit and credit swap unless
   * the net value is zero, where both are credits).
   */
  lemma {:induction false} CounterpartyView(legs: seq<OptionTrade>, today: int)
    requires |legs| >= 1 && !Conditions.IncludesStockTrade(legs[0].conditionId)
    ensures var r, q := SpreadOf(legs, today), SpreadOf(FlipAll(legs), today);
      && q.netValue == -r.netValue
      && q.deltaWhenOpened == -r.deltaWhenOpened
      && q.currentDelta == -r.currentDelta
      && q.expectation == Opposite(r.expectation)
      && (q.spreadType == Debit <==> r.netValue < 0.0)
      && (r.spreadType == Debit <==> q.netValue < 0.0)
  {
    var flipped := FlipAll(legs);
    FlipAllNegatesSums(legs);
    assert flipped[0].conditionId == legs[0].conditionId;
    SpreadNetValue(legs, today);
    SpreadNetValue(flipped, today);
    SpreadDelta(legs, today);
    SpreadDelta(flipped, today);
  }

  /** Removes adjacent repeats, keeping the first of each run (an iterator `dedup`). */
  function Dedup(s: seq<OptionSpread>): (r: seq<OptionSpread>)
    ensures |r| <= |s|
    ensures forall x :: x in r <==> x in s
    ensures forall i | 0 < i < |r| :: r[i - 1] != r[i]
    ensures s != [] ==> r != [] && r[0] == s[0]
  {
    if |s| <= 1 then s
    else
      var rest := Dedup(s[1..]);
      assert s == [s[0]] + s[1..];
      if s[0] == rest[0] then rest else [s[0]] + rest
  }

  /**
   * The reference meaning of removing adjacent repeats: keep position 0 and
   * every later position whose element differs from the one just before it,
   * in order.
   */
  function RunHeads(s: seq<OptionSpread>): seq<OptionSpread>
  {
    if |s| <= 1 then s
    else RunHeads(s[..|s| - 1]) + (if s[|s| - 1] == s[|s| - 2] then [] else [s[|s| - 1]])
  }

  /** Putting an element in front keeps it, and drops the old first element exactly when it repeats it. */
  lemma {:induction false} RunHeadsCons(x: OptionSpread, t: seq<OptionSpread>)
    ensures RunHeads([x] + t) == if t != [] && t[0] == x then RunHeads(t) else [x] + RunHeads(t)
    decreases |t|
  {
    if |t| >= 2 {
      var n := |t| - 1;
      RunHeadsCons(x, t[..n]);
      assert ([x] + t)[..|t|] == [x] + t[..n];
      assert t[..n][0] == t[0];
    } else if |t| == 1 {
      assert ([x] + t)[..1] == [x];
    }
  }

  /** `Dedup` removes exactly the positions that repeat their predecessor, keeping the order of the rest. */
  lemma {:induction false} DedupIsRunHeads(s: seq<OptionSpread>)
    ensures Dedup(s) == RunHeads(s)
  {
    if |s| > 1 {
      DedupIsRunHeads(s[1..]);
      RunHeadsCons(s[0], s[1..]);
      assert [s[0]] + s[1..] == s;
    }
  }

  /** Only adjacent repeats go: `a, a, b, a` becomes `a, b, a`, not `a, b`. */
  lemma {:induction false} DedupKeepsSeparatedRepeats(a: OptionSpread, b: OptionSpread)
    requires a != b
    ensures Dedup([a, a, b, a]) == [a, b, a]
  {
    DedupIsRunHeads([a, a, b, a]);
    assert [a, a, b, a][..3] == [a, a, b];
    assert [a, a, b][..2] == [a, a];
    assert [a, a][..1] == [a];
  }

  /** A sequence without adjacent repeats is left as it is, so deduplicating twice is deduplicating once. */
  lemma {:induction false} DedupIdempotent(s: seq<OptionSpread>)
    requires forall i | 0 < i < |s| :: s[i - 1] != s[i]
    ensures Dedup(s) == s
  {
    if |s| > 1 {
      DedupIdempotent(s[1..]);
      assert s[0] != s[1];
    }
  }

  /** The output before deduplication: one strategy per non-poisoned set, in registration order. */
  function Built(order: seq<GroupKey>, groups: map<GroupKey, seq<OptionTrade>>, today: int): (r: seq<OptionSpread>)
    requires forall g | g in order :: g in groups && |groups[g]| >= 1
    ensures |r| <= |order|
  {
    if order == [] then []
    else
      var g := order[|order| - 1];
      var rest := Built(order[..|order| - 1], groups, today);
      if Poisoned(groups[g]) then rest else rest + [SpreadOf(groups[g], today)]
  }

  /** Every strategy built comes from a registered, unpoisoned set. */
  lemma {:induction false} BuiltSound(order: seq<GroupKey>, groups: map<GroupKey, seq<OptionTrade>>, today: int)
    requires forall g | g in order :: g in groups && |groups[g]| >= 1
    ensures forall x | x in Built(order, groups, today) ::
      exists g | g in order :: |groups[g]| >= 1 && !Poisoned(groups[g]) && x == SpreadOf(groups[g], today)
  {
    if order != [] {
      var n := |order| - 1;
      BuiltSound(order[..n], groups, today);
      forall x | x in Built(order, groups, today)
        ensures exists g | g in order :: |groups[g]| >= 1 && !Poisoned(groups[g]) && x == SpreadOf(groups[g], today)
      {
        if x in Built(order[..n], groups, today) {
          var g :| g in order[..n] && |groups[g]| >= 1 && !Poisoned(groups[g]) && x == SpreadOf(groups[g], today);
          assert g in order;
        } else {
          assert order[n] in order;
        }
      }
    }
  }

  /** Every registered, unpoisoned set has its strategy built. */
  lemma {:induction false} BuiltComplete(order: seq<GroupKey>, groups: map<GroupKey, seq<OptionTrade>>, today: int)
    requires forall g | g in order :: g in groups && |groups[g]| >= 1
    ensures forall g | g in order && !Poisoned(groups[g]) :: SpreadOf(groups[g], today) in Built(order, groups, today)
  {
    if order != [] {
      var n := |order| - 1;
      BuiltComplete(order[..n], groups, today);
      forall g | g in order && !Poisoned(groups[g]) ensures SpreadOf(groups[g], today) in Built(order, groups, today) {
        if g != order[n] {
          assert g in order[..n];
        }
      }
    }
  }

  /** A summary of option-leg clauses for legs of known side, then stock clauses, has no clause of unknown side. */
  lemma {:induction false} KnownSides(legs: seq<OptionTrade>, summary: seq<LegClause>)
    requires !Poisoned(legs) && |legs| <= |summary|
    requires forall i | 0 <= i < |legs| :: summary[i] == LegClauseOf(legs[i])
    requires forall i | |legs| <= i < |summary| :: summary[i].StockLeg?
    ensures forall c | c in summary && c.OptionLeg? :: c.action != OrderAction.Unknown
  {
    forall c | c in summary && c.OptionLeg? ensures c.action != OrderAction.Unknown {
      var k :| 0 <= k < |summary| && summary[k] == c;
      if k < |legs| {
        assert c == LegClauseOf(legs[k]);
      }
    }
  }

  /** No summary clause of a strategy built from legs of known side has an unknown side. */
  lemma {:induction false} UnpoisonedSummary(legs: seq<OptionTrade>, today: int)
    requires |legs| >= 1 && !Poisoned(legs)
    ensures forall c | c in SpreadOf(legs, today).summary && c.OptionLeg? :: c.action != OrderAction.Unknown
  {
    var f := FoldOf(legs, today);
    var r := Assemble(legs, f, ClassifyAsWritten(legs, ShapeOf(legs)), SequenceTrailAsWritten(legs));
    AssembledSummary(legs, f, r.spreadName, r.sequenceNumbers);
    KnownSides(legs, r.summary);
  }

  /** The registered sets of a well-formed registry are exactly the keys listed, none of them empty. */
  lemma {:induction false} RegisteredSetsNonEmpty(trades: seq<OptionTrade>, groups: map<GroupKey, seq<OptionTrade>>, order: seq<GroupKey>)
    requires Registry(groups, order)
    requires forall g | g in groups :: WellGrouped(trades, g, groups[g])
    ensures forall g | g in order :: g in groups && |groups[g]| >= 1
  {
  }

  /** One more registered set adds its strategy unless it is poisoned. */
  lemma {:induction false} BuiltStep(order: seq<GroupKey>, groups: map<GroupKey, seq<OptionTrade>>, today: int, i: int)
    requires 0 <= i < |order|
    requires forall g | g in order :: g in groups && |groups[g]| >= 1
    ensures Built(order[..i + 1], groups, today)
      == Built(order[..i], groups, today)
         + (if Poisoned(groups[order[i]]) then [] else [SpreadOf(groups[order[i]], today)])
  {
    assert order[..i + 1][..i] == order[..i];
  }

  /** The aggregation loop over the registered sets: builds each, keeps the unpoisoned ones in order. */
  method BuildAll(order: seq<GroupKey>, groups: map<GroupKey, seq<OptionTrade>>, today: int) returns (output: seq<OptionSpread>)
    requires forall g | g in order :: g in groups && |groups[g]| >= 1
    ensures output == Built(order, groups, today)
  {
    output := [];
    for i := 0 to |order|
      invariant output == Built(order[..i], groups, today)
    {
      BuiltStep(order, groups, today, i);
      var spread, poisoned := BuildSpread(groups[order[i]], today);
      if !poisoned {
        output := output + [spread];
      }
    }
    assert order[..|order|] == order;
  }

  /**
   * Reconstructs the multi-leg strategies of a batch of prints: groups the
   * legs, builds one strategy per registered set in registration order, drops
   * the poisoned ones, and removes adjacent duplicates. The grouping is
   * returned beside the output so that its guarantees can be stated.
   */
  method GetSpreads(trades: seq<OptionTrade>, today: int)
    returns (spreads: seq<OptionSpread>, ghost groups: map<GroupKey, seq<OptionTrade>>, ghost order: seq<GroupKey>)
    ensures Registry(groups, order)
    ensures forall g | g in groups :: WellGrouped(trades, g, groups[g])
    ensures forall t | t in trades && Conditions.IsMultiLeg(t.conditionId) :: Covered(groups, KeyOf(t))
    ensures forall g | g in order :: g in groups && |groups[g]| >= 1
    ensures spreads == Dedup(Built(order, groups, today))
    ensures forall i | 0 < i < |spreads| :: spreads[i - 1] != spreads[i]
  {
    var registered, registration := GroupLegs(trades);
    groups, order := registered, registration;
    RegisteredSetsNonEmpty(trades, registered, registration);
    var output := BuildAll(registration, registered, today);
    spreads := Dedup(output);
  }

  /**
   * What the output holds: a strategy for every registered set whose legs
   * all have a known side, and nothing else.
   */
  lemma {:induction false} OutputMeans(trades: seq<OptionTrade>, today: int, spreads: seq<OptionSpread>,
                    groups: map<GroupKey, seq<OptionTrade>>, order: seq<GroupKey>)
    requires Registry(groups, order)
    requires forall g | g in groups :: WellGrouped(trades, g, groups[g])
    requires forall g | g in order :: g in groups && |groups[g]| >= 1
    requires spreads == Dedup(Built(order, groups, today))
    ensures forall x | x in spreads ::
      exists g | g in groups :: |groups[g]| >= 1 && !Poisoned(groups[g]) && x == SpreadOf(groups[g], today)
    ensures forall g | g in groups && !Poisoned(groups[g]) :: SpreadOf(groups[g], today) in spreads
  {
    BuiltSound(order, groups, today);
    BuiltComplete(order, groups, today);
  }

  /** No strategy in the output has a leg whose side is unknown. */
  lemma {:induction false} OutputNeverPoisoned(today: int, spreads: seq<OptionSpread>, groups: map<GroupKey, seq<OptionTrade>>)
    requires forall x | x in spreads ::
      exists g | g in groups :: |groups[g]| >= 1 && !Poisoned(groups[g]) && x == SpreadOf(groups[g], today)
    ensures forall x, c | x in spreads && c in x.summary && c.OptionLeg? :: c.action != OrderAction.Unknown
  {
    forall x, c | x in spreads && c in x.summary && c.OptionLeg? ensures c.action != OrderAction.Unknown {
      var g :| g in groups && |groups[g]| >= 1 && !Poisoned(groups[g]) && x == SpreadOf(groups[g], today);
      UnpoisonedSummary(groups[g], today);
    }
  }
}
