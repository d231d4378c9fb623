/**
 * The leg grouper of src/spreads.rs: multi-leg prints are gathered by the
 * composite key (timestamp, exchange, condition, size), each gathered set is
 * checked for consecutive sequence numbers, first by the global sequence
 * number and then by the exchange-local one, and the set is registered under
 * its key, or under the key extended with the size when neither check passes.
 */
module Grouping {
  import opened Conditions
  import opened Trades

  /** Which of a print's two sequence numbers to order by. */
  datatype SeqField = GlobalSeq | ExchangeSeq

  function SeqOf(t: OptionTrade, f: SeqField): int
  {
    match f
    case GlobalSeq => t.seqNo
    case ExchangeSeq => t.exchangeSeqNo
  }

  predicate SortedBy(s: seq<OptionTrade>, f: SeqField)
  {
    forall i | 0 < i < |s| :: SeqOf(s[i - 1], f) <= SeqOf(s[i], f)
  }

  /** Inserts `x` before the first element of `s` with a larger or equal sequence number. */
  function Insert(x: OptionTrade, s: seq<OptionTrade>, f: SeqField): (r: seq<OptionTrade>)
    ensures |r| == |s| + 1
  {
    if s == [] then [x]
    else if SeqOf(x, f) <= SeqOf(s[0], f) then [x] + s
    else [s[0]] + Insert(x, s[1..], f)
  }

  /** Inserting adds exactly `x`, puts `x` or the old head first, and keeps a sorted sequence sorted. */
  lemma {:induction false} InsertMeans(x: OptionTrade, s: seq<OptionTrade>, f: SeqField)
    ensures multiset(Insert(x, s, f)) == multiset(s) + multiset{x}
    ensures Insert(x, s, f)[0] == x || (s != [] && Insert(x, s, f)[0] == s[0])
    ensures SortedBy(s, f) ==> SortedBy(Insert(x, s, f), f)
  {
    InsertPermutes(x, s, f);
    InsertHead(x, s, f);
    if SortedBy(s, f) {
      InsertSorted(x, s, f);
    }
  }

  lemma {:induction false} InsertPermutes(x: OptionTrade, s: seq<OptionTrade>, f: SeqField)
    ensures multiset(Insert(x, s, f)) == multiset(s) + multiset{x}
  {
    if s != [] && SeqOf(x, f) > SeqOf(s[0], f) {
      InsertPermutes(x, s[1..], f);
      assert s == [s[0]] + s[1..];
    }
  }

  lemma {:induction false} InsertHead(x: OptionTrade, s: seq<OptionTrade>, f: SeqField)
    ensures Insert(x, s, f)[0] == x || (s != [] && Insert(x, s, f)[0] == s[0])
  {
  }

  lemma {:induction false} InsertSorted(x: OptionTrade, s: seq<OptionTrade>, f: SeqField)
    requires SortedBy(s, f)
    ensures SortedBy(Insert(x, s, f), f)
  {
    if s != [] && SeqOf(x, f) > SeqOf(s[0], f) {
      var t := s[1..];
      assert SortedBy(t, f);
      InsertSorted(x, t, f);
      InsertHead(x, t, f);
      var r := Insert(x, s, f);
      assert r == [s[0]] + Insert(x, t, f);
      assert t != [] ==> SeqOf(s[0], f) <= SeqOf(t[0], f);
    }
  }

  /**
   * The legs ordered by one sequence number. The source's `sort_unstable_by_key`
   * is modelled by a stable insertion sort, which is one of its possible outcomes.
   */
  function SortBy(s: seq<OptionTrade>, f: SeqField): (r: seq<OptionTrade>)
    ensures |r| == |s|
  {
    if s == [] then [] else Insert(s[0], SortBy(s[1..], f), f)
  }

  /** Sorting permutes the legs into ascending order of the chosen sequence number. */
  lemma {:induction false} SortByMeans(s: seq<OptionTrade>, f: SeqField)
    ensures multiset(SortBy(s, f)) == multiset(s)
    ensures SortedBy(SortBy(s, f), f)
  {
    if s != [] {
      SortByMeans(s[1..], f);
      InsertMeans(s[0], SortBy(s[1..], f), f);
      assert s == [s[0]] + s[1..];
    }
  }

  /**
   * The consecutiveness test as the source writes it: every adjacent pair in
   * the range 1 .. len-1 differs by one, so the last pair is never compared.
   */
  predicate RunOk(s: seq<OptionTrade>, f: SeqField)
  {
    forall m | 1 <= m < |s| - 1 :: SeqOf(s[m], f) == SeqOf(s[m - 1], f) + 1
  }

  /** The loop that computes the consecutive flag over an ordered leg-set. */
  method CheckRun(legs: seq<OptionTrade>, f: SeqField) returns (consecutive: bool)
    requires |legs| >= 1
    ensures consecutive == RunOk(legs, f)
  {
    consecutive := true;
    var n := 1;
    while n < |legs| - 1
      invariant 1 <= n && (n <= |legs| - 1 || n == 1)
      invariant consecutive == forall m | 1 <= m < n :: SeqOf(legs[m], f) == SeqOf(legs[m - 1], f) + 1
    {
      consecutive := consecutive && SeqOf(legs[n], f) == SeqOf(legs[n - 1], f) + 1;
      n := n + 1;
    }
  }

  /** A gathered set is accepted when it is consecutive by either sequence number. */
  predicate LegsConsecutive(legs: seq<OptionTrade>)
  {
    RunOk(SortBy(legs, GlobalSeq), GlobalSeq) || RunOk(SortBy(legs, ExchangeSeq), ExchangeSeq)
  }

  /** The leg order the check leaves behind: by global sequence number if that passed, else by exchange sequence number. */
  function Arranged(legs: seq<OptionTrade>): seq<OptionTrade>
  {
    if RunOk(SortBy(legs, GlobalSeq), GlobalSeq) then SortBy(legs, GlobalSeq) else SortBy(legs, ExchangeSeq)
  }

  /**
   * Sorts the legs in place by global sequence number and tests them; only
   * when that fails, re-sorts by exchange sequence number and tests again.
   */
  method VerifySpreadLegs(legs: seq<OptionTrade>) returns (ok: bool, arranged: seq<OptionTrade>)
    requires |legs| >= 1
    ensures ok == LegsConsecutive(legs)
    ensures arranged == Arranged(legs)
    ensures multiset(arranged) == multiset(legs)
    ensures RunOk(SortBy(legs, GlobalSeq), GlobalSeq) ==> arranged == SortBy(legs, GlobalSeq)
    ensures ok ==> RunOk(arranged, GlobalSeq) || RunOk(arranged, ExchangeSeq)
  {
    SortByMeans(legs, GlobalSeq);
    SortByMeans(legs, ExchangeSeq);
    arranged := SortBy(legs, GlobalSeq);
    ok := CheckRun(arranged, GlobalSeq);
    if !ok {
      arranged := SortBy(legs, ExchangeSeq);
      ok := CheckRun(arranged, ExchangeSeq);
    }
  }

  /** Sets of one or two legs always pass, whatever their sequence numbers. */
  lemma {:induction false} ShortSetsPass(legs: seq<OptionTrade>)
    requires |legs| <= 2
    ensures LegsConsecutive(legs)
  {
  }

  /** Sorting a non-empty sequence inserts its head into the sorted tail. */
  lemma {:induction false} SortCons(x: OptionTrade, s: seq<OptionTrade>, f: SeqField)
    ensures SortBy([x] + s, f) == Insert(x, SortBy(s, f), f)
  {
    assert ([x] + s)[1..] == s;
  }

  /** Three legs already in ascending order are left as they are. */
  lemma {:induction false} SortedTripleUnchanged(a: OptionTrade, b: OptionTrade, c: OptionTrade, f: SeqField)
    requires SeqOf(a, f) <= SeqOf(b, f) <= SeqOf(c, f)
    ensures SortBy([a, b, c], f) == [a, b, c]
  {
    SortCons(c, [], f);
    assert [c] + [] == [c];
    SortCons(b, [c], f);
    assert [b] + [c] == [b, c];
    SortCons(a, [b, c], f);
    assert [a] + [b, c] == [a, b, c];
  }

  /** Three legs numbered 1, 2, 9 pass the global check: the gap in the last pair is never looked at. */
  lemma {:induction false} LastPairNeverCompared(a: OptionTrade, b: OptionTrade, c: OptionTrade)
    requires a.seqNo == 1 && b.seqNo == 2 && c.seqNo == 9
    ensures LegsConsecutive([a, b, c]) && Arranged([a, b, c]) == [a, b, c]
  {
    SortedTripleUnchanged(a, b, c, GlobalSeq);
    assert RunOk([a, b, c], GlobalSeq);
  }

  /**
   * Global numbers 5, 7, 9 fail, exchange numbers 100, 101, 102 pass: the set
   * is accepted through the second ordering and kept in that order.
   */
  lemma {:induction false} AcceptedByExchangeOrder(a: OptionTrade, b: OptionTrade, c: OptionTrade)
    requires a.seqNo == 5 && b.seqNo == 7 && c.seqNo == 9
    requires a.exchangeSeqNo == 100 && b.exchangeSeqNo == 101 && c.exchangeSeqNo == 102
    ensures LegsConsecutive([a, b, c]) && Arranged([a, b, c]) == [a, b, c]
    ensures !RunOk(SortBy([a, b, c], GlobalSeq), GlobalSeq)
  {
    SortedTripleUnchanged(a, b, c, GlobalSeq);
    SortedTripleUnchanged(a, b, c, ExchangeSeq);
    assert SeqOf([a, b, c][1], GlobalSeq) != SeqOf([a, b, c][0], GlobalSeq) + 1;
    assert RunOk([a, b, c], ExchangeSeq);
  }

  /** The coarse grouping key of a print. */
  datatype LegKey = LegKey(timestamp: int, exchange: Exchange, condition: ConditionID, size: int)

  /** A registered key: the coarse key, or the coarse key extended with a size after a failed check. */
  datatype GroupKey = Primary(key: LegKey) | BySize(key: LegKey, extraSize: int)

  function KeyOf(t: OptionTrade): LegKey
  {
    LegKey(t.timestamp, t.exchangeId, t.conditionId, t.size)
  }

  /** The elements of `s` satisfying `p`, in order (an iterator `filter`). */
  function Filter(s: seq<OptionTrade>, p: OptionTrade -> bool): (r: seq<OptionTrade>)
    ensures |r| <= |s|
    ensures forall u | u in r :: p(u)
    ensures forall u :: multiset(r)[u] == if p(u) then multiset(s)[u] else 0
  {
    if s == [] then []
    else
      var rest := Filter(s[1..], p);
      assert s == [s[0]] + s[1..];
      if p(s[0]) then [s[0]] + rest else rest
  }

  /** The prints whose condition marks them as legs of a multi-leg execution. */
  function MultiLegs(trades: seq<OptionTrade>): (r: seq<OptionTrade>)
    ensures forall t :: t in r <==> t in trades && IsMultiLeg(t.conditionId)
  {
    var r := Filter(trades, (t: OptionTrade) => IsMultiLeg(t.conditionId));
    assert forall t :: t in r <==> multiset(r)[t] > 0;
    r
  }

  /** Every print of the batch sharing the coarse key `k`. */
  function Matching(trades: seq<OptionTrade>, k: LegKey): (r: seq<OptionTrade>)
    ensures forall u :: u in r <==> u in trades && KeyOf(u) == k
    ensures forall u :: multiset(r)[u] == if KeyOf(u) == k then multiset(trades)[u] else 0
  {
    var r := Filter(trades, (u: OptionTrade) => KeyOf(u) == k);
    assert forall t :: t in r <==> multiset(r)[t] > 0;
    r
  }

  /** The members of `legs` of the given size; all of them when every member has that size. */
  function WithSize(legs: seq<OptionTrade>, size: int): (r: seq<OptionTrade>)
    ensures (forall u | u in legs :: u.size == size) ==> r == legs
  {
    if legs == [] then []
    else
      var rest := WithSize(legs[1..], size);
      if legs[0].size == size then [legs[0]] + rest else rest
  }

  /** The key a coarse key's set ends up under: itself when consecutive, else extended with its own size. */
  function RegisteredKey(trades: seq<OptionTrade>, k: LegKey): GroupKey
  {
    if LegsConsecutive(Matching(trades, k)) then Primary(k) else BySize(k, k.size)
  }

  /** What the grouper guarantees of one registered set. */
  predicate WellGrouped(trades: seq<OptionTrade>, g: GroupKey, legs: seq<OptionTrade>)
  {
    && |legs| >= 1
    && IsMultiLeg(g.key.condition)
    && g == RegisteredKey(trades, g.key)
    && legs == Arranged(Matching(trades, g.key))
  }

  /** `order` lists the registered keys in registration order, each once. */
  ghost predicate Registry(groups: map<GroupKey, seq<OptionTrade>>, order: seq<GroupKey>)
  {
    && (forall a, b | 0 <= a < b < |order| :: order[a] != order[b])
    && (forall g :: g in groups <==> g in order)
  }

  /**
   * The fallback of the grouper: for each leg of a set that failed the check,
   * the set's members of that leg's size are registered under the coarse key
   * extended with that size, unless that key is already present. All members
   * share the coarse key's size, so this registers the whole set under one
   * extended key.
   */
  method RegisterBySize(groups: map<GroupKey, seq<OptionTrade>>, order: seq<GroupKey>, key: LegKey, arranged: seq<OptionTrade>)
    returns (groups': map<GroupKey, seq<OptionTrade>>, order': seq<GroupKey>)
    requires |arranged| >= 1
    requires forall u | u in arranged :: u.size == key.size
    ensures BySize(key, key.size) in groups ==> groups' == groups && order' == order
    ensures BySize(key, key.size) !in groups ==>
      groups' == groups[BySize(key, key.size) := arranged] && order' == order + [BySize(key, key.size)]
  {
    groups', order' := groups, order;
    var j := 0;
    while j < |arranged|
      invariant 0 <= j <= |arranged|
      invariant BySize(key, key.size) in groups || j == 0 ==> groups' == groups && order' == order
      invariant BySize(key, key.size) !in groups && j > 0 ==>
        groups' == groups[BySize(key, key.size) := arranged] && order' == order + [BySize(key, key.size)]
    {
      var secondTrade := arranged[j];
      var bySize := WithSize(arranged, secondTrade.size);
      var secondaryKey := BySize(key, secondTrade.size);
      if secondaryKey !in groups' {
        groups' := groups'[secondaryKey := bySize];
        order' := order' + [secondaryKey];
      }
      j := j + 1;
    }
  }

  /** Appending a fresh key keeps the registration order duplicate-free and in step with the map. */
  lemma {:induction false} RegistryExtends(groups: map<GroupKey, seq<OptionTrade>>, order: seq<GroupKey>, g: GroupKey, legs: seq<OptionTrade>)
    requires Registry(groups, order) && g !in groups
    ensures Registry(groups[g := legs], order + [g])
  {
    var order' := order + [g];
    forall a, b | 0 <= a < b < |order'| ensures order'[a] != order'[b] {
      if b == |order| {
        assert order'[a] == order[a] && order[a] in groups;
      }
    }
  }

  /** Registering a well-grouped set keeps every registered set well-grouped. */
  lemma {:induction false} GroupedExtends(trades: seq<OptionTrade>, groups: map<GroupKey, seq<OptionTrade>>, g: GroupKey, legs: seq<OptionTrade>)
    requires forall h | h in groups :: WellGrouped(trades, h, groups[h])
    requires WellGrouped(trades, g, legs)
    ensures var m := groups[g := legs]; forall h | h in m :: WellGrouped(trades, h, m[h])
  {
  }

  /** Some set is registered under the coarse key `k`, plainly or extended with its own size. */
  predicate Covered(groups: map<GroupKey, seq<OptionTrade>>, k: LegKey)
  {
    Primary(k) in groups || BySize(k, k.size) in groups
  }

  /** Once every registered set is well-grouped, a covered key is registered under the form its check dictates. */
  lemma {:induction false} CoveredIsRegistered(trades: seq<OptionTrade>, groups: map<GroupKey, seq<OptionTrade>>, k: LegKey)
    requires forall g | g in groups :: WellGrouped(trades, g, groups[g])
    requires Covered(groups, k)
    ensures RegisteredKey(trades, k) in groups
  {
    if Primary(k) in groups {
      assert WellGrouped(trades, Primary(k), groups[Primary(k)]);
    } else {
      assert WellGrouped(trades, BySize(k, k.size), groups[BySize(k, k.size)]);
    }
  }

  /**
   * One step of the grouper: registers the set of the seed's coarse key unless
   * that key is already registered plainly.
   */
  method GroupSeed(trades: seq<OptionTrade>, groups: map<GroupKey, seq<OptionTrade>>, order: seq<GroupKey>, trade: OptionTrade)
    returns (groups': map<GroupKey, seq<OptionTrade>>, order': seq<GroupKey>)
    requires trade in trades && IsMultiLeg(trade.conditionId)
    requires Registry(groups, order)
    requires forall g | g in groups :: WellGrouped(trades, g, groups[g])
    ensures Registry(groups', order')
    ensures forall g | g in groups' :: WellGrouped(trades, g, groups'[g])
    ensures groups.Keys <= groups'.Keys
    ensures forall k | Covered(groups, k) :: Covered(groups', k)
    ensures RegisteredKey(trades, KeyOf(trade)) in groups'
    ensures Covered(groups', KeyOf(trade))
  {
    var key := KeyOf(trade);
    if Primary(key) in groups {
      assert WellGrouped(trades, Primary(key), groups[Primary(key)]);
      return groups, order;
    }
    var tradesInThisKey := Matching(trades, key);
    assert trade in tradesInThisKey;
    var ok, arranged := VerifySpreadLegs(tradesInThisKey);
    if !ok {
      forall u | u in arranged ensures u.size == key.size {
        assert multiset(arranged)[u] > 0;
      }
      assert WellGrouped(trades, BySize(key, key.size), arranged);
      if BySize(key, key.size) !in groups {
        RegistryExtends(groups, order, BySize(key, key.size), arranged);
        GroupedExtends(trades, groups, BySize(key, key.size), arranged);
      }
      groups', order' := RegisterBySize(groups, order, key, arranged);
    } else {
      assert WellGrouped(trades, Primary(key), arranged);
      RegistryExtends(groups, order, Primary(key), arranged);
      GroupedExtends(trades, groups, Primary(key), arranged);
      groups' := groups[Primary(key) := arranged];
      order' := order + [Primary(key)];
    }
  }

  /** Coverage of the first `i` seeds survives a step that covers seed `i` and loses no key. */
  lemma {:induction false} CoverageStep(prev: map<GroupKey, seq<OptionTrade>>, groups: map<GroupKey, seq<OptionTrade>>, seeds: seq<OptionTrade>, i: nat)
    requires i < |seeds|
    requires forall j | 0 <= j < i :: Covered(prev, KeyOf(seeds[j]))
    requires forall k | Covered(prev, k) :: Covered(groups, k)
    requires Covered(groups, KeyOf(seeds[i]))
    ensures forall j | 0 <= j < i + 1 :: Covered(groups, KeyOf(seeds[j]))
  {
  }

  /** Covering every multi-leg seed covers every multi-leg print of the batch. */
  lemma {:induction false} CoverageComplete(trades: seq<OptionTrade>, seeds: seq<OptionTrade>, groups: map<GroupKey, seq<OptionTrade>>)
    requires forall t :: t in seeds <==> t in trades && IsMultiLeg(t.conditionId)
    requires forall j | 0 <= j < |seeds| :: Covered(groups, KeyOf(seeds[j]))
    ensures forall t | t in trades && IsMultiLeg(t.conditionId) :: Covered(groups, KeyOf(t))
  {
    forall t | t in trades && IsMultiLeg(t.conditionId) ensures Covered(groups, KeyOf(t)) {
      var j :| 0 <= j < |seeds| && seeds[j] == t;
    }
  }

  /**
   * Builds the map from key to leg-set, one multi-leg print at a time, and
   * returns the map's order of registration beside it.
   */
  method GroupLegs(trades: seq<OptionTrade>) returns (groups: map<GroupKey, seq<OptionTrade>>, order: seq<GroupKey>)
    ensures Registry(groups, order)
    ensures forall g | g in groups :: WellGrouped(trades, g, groups[g])
    ensures forall t | t in trades && IsMultiLeg(t.conditionId) :: Covered(groups, KeyOf(t))
  {
    groups, order := map[], [];
    var multilegs := MultiLegs(trades);
    for i := 0 to |multilegs|
      invariant Registry(groups, order)
      invariant forall g | g in groups :: WellGrouped(trades, g, groups[g])
      invariant forall j | 0 <= j < i :: Covered(groups, KeyOf(multilegs[j]))
    {
      ghost var prev := groups;
      groups, order := GroupSeed(trades, groups, order, multilegs[i]);
      CoverageStep(prev, groups, multilegs, i);
    }
    CoverageComplete(trades, multilegs, groups);
  }

  /** Every leg of a registered set is a multi-leg print of the batch carrying the set's coarse key. */
  lemma {:induction false} GroupMembers(trades: seq<OptionTrade>, g: GroupKey, legs: seq<OptionTrade>)
    requires WellGrouped(trades, g, legs)
    ensures multiset(legs) == multiset(Matching(trades, g.key))
    ensures forall u | u in legs :: u in trades && KeyOf(u) == g.key && IsMultiLeg(u.conditionId)
  {
    SortByMeans(Matching(trades, g.key), GlobalSeq);
    SortByMeans(Matching(trades, g.key), ExchangeSeq);
    forall u | u in legs ensures u in trades && KeyOf(u) == g.key {
      assert multiset(legs)[u] > 0;
    }
  }

  /**
   * Exactly-once grouping: a print lies in at most one registered set, so a
   * coarse key is never registered both plainly and extended.
   */
  lemma {:induction false} AtMostOneGroup(trades: seq<OptionTrade>, groups: map<GroupKey, seq<OptionTrade>>, g1: GroupKey, g2: GroupKey, u: OptionTrade)
    requires forall g | g in groups :: WellGrouped(trades, g, groups[g])
    requires g1 in groups && g2 in groups && u in groups[g1] && u in groups[g2]
    ensures g1 == g2
  {
    GroupMembers(trades, g1, groups[g1]);
    GroupMembers(trades, g2, groups[g2]);
  }

  /** A coarse key is registered under one form only. */
  lemma {:induction false} NeverBothForms(trades: seq<OptionTrade>, groups: map<GroupKey, seq<OptionTrade>>, k: LegKey, extra: int)
    requires forall g | g in groups :: WellGrouped(trades, g, groups[g])
    ensures !(Primary(k) in groups && BySize(k, extra) in groups)
  {
  }
}
