/** Read-only views of the case list: lookup by id, the dashboard's filter
    chain, and the integer metrics of the sidebar and the analytics tab. */
module Query {
  import opened Wrappers
  import opened Text
  import opened Cases

  /** `next((c for c in cases if c.id == id), None)`: the position of the
      first case with that id, or None. */
  function Find(cs: seq<AICase>, id: string): (r: Option<nat>)
    ensures r.Some? ==> r.value < |cs| && cs[r.value].id == id
    ensures r.Some? ==> forall j :: 0 <= j < r.value ==> cs[j].id != id
    ensures r.None? <==> forall j :: 0 <= j < |cs| ==> cs[j].id != id
  {
    if cs == [] then None
    else if cs[0].id == id then Some(0)
    else match Find(cs[1..], id)
      case None => None
      case Some(k) => Some(k + 1)
  }

  /** A case appended under an id not yet present is what lookup then finds. */
  lemma FindAppended(cs: seq<AICase>, c: AICase)
    requires Find(cs, c.id).None?
    ensures Find(cs + [c], c.id) == Some(|cs|)
  {
    assert (cs + [c])[|cs|] == c;
  }

  /** `a` is `b` with some entries dropped, the rest kept in their order. */
  ghost predicate IsSubsequence<T>(a: seq<T>, b: seq<T>)
    decreases |b|
  {
    a == [] ||
    (b != [] && ((a[0] == b[0] && IsSubsequence(a[1..], b[1..])) || IsSubsequence(a, b[1..])))
  }

  /** One active filter of the dashboard. */
  datatype Criterion =
    | PriorityIs(priority: string)
    | StatusIs(status: string)
    | CategoryIs(category: string)
    | PlatformHas(fragment: string)

  /** Priority, status and category compare exactly; the platform filter is a
      case-insensitive substring test. */
  predicate Holds(k: Criterion, c: AICase)
  {
    match k
    case PriorityIs(p) => c.priority == p
    case StatusIs(s) => c.status == s
    case CategoryIs(g) => c.category == g
    case PlatformHas(f) => Contains(Lower(c.platform), Lower(f))
  }

  /** `[c for c in cs if Holds(k, c)]`. */
  function Keep(cs: seq<AICase>, k: Criterion): (r: seq<AICase>)
    ensures |r| <= |cs|
    ensures forall c :: c in r <==> c in cs && Holds(k, c)
    ensures forall c :: multiset(r)[c] == if Holds(k, c) then multiset(cs)[c] else 0
    ensures IsSubsequence(r, cs)
  {
    if cs == [] then []
    else
      var rest := Keep(cs[1..], k);
      assert multiset(cs) == multiset{cs[0]} + multiset(cs[1..]) by { assert cs == [cs[0]] + cs[1..]; }
      if Holds(k, cs[0]) then
        assert multiset([cs[0]] + rest) == multiset{cs[0]} + multiset(rest);
        [cs[0]] + rest
      else rest
  }

  /** The comprehensions applied one after the other, in the given order. */
  function KeepEach(cs: seq<AICase>, ks: seq<Criterion>): (r: seq<AICase>)
    ensures |r| <= |cs|
    ensures forall c :: c in r <==> c in cs && HoldsAll(ks, c)
    decreases |ks|
  {
    if ks == [] then cs
    else
      assert forall c :: HoldsAll(ks, c) <==> Holds(ks[0], c) && HoldsAll(ks[1..], c) by {
        assert ks == [ks[0]] + ks[1..];
      }
      KeepEach(Keep(cs, ks[0]), ks[1..])
  }

  /** A case passes every criterion of the list. */
  predicate HoldsAll(ks: seq<Criterion>, c: AICase)
  {
    forall k :: k in ks ==> Holds(k, c)
  }

  /** Reference definition: one pass keeping the cases that pass every criterion. */
  function KeepMatching(cs: seq<AICase>, ks: seq<Criterion>): (r: seq<AICase>)
    ensures forall c :: c in r <==> c in cs && HoldsAll(ks, c)
    ensures forall c :: multiset(r)[c] == if HoldsAll(ks, c) then multiset(cs)[c] else 0
    ensures IsSubsequence(r, cs)
  {
    if cs == [] then []
    else
      var rest := KeepMatching(cs[1..], ks);
      assert multiset(cs) == multiset{cs[0]} + multiset(cs[1..]) by { assert cs == [cs[0]] + cs[1..]; }
      if HoldsAll(ks, cs[0]) then
        assert multiset([cs[0]] + rest) == multiset{cs[0]} + multiset(rest);
        [cs[0]] + rest
      else rest
  }

  lemma {:induction false} KeepThenMatching(cs: seq<AICase>, k: Criterion, ks: seq<Criterion>)
    ensures KeepMatching(Keep(cs, k), ks) == KeepMatching(cs, [k] + ks)
    decreases |cs|
  {
    if cs != [] {
      KeepThenMatching(cs[1..], k, ks);
      assert HoldsAll([k] + ks, cs[0]) <==> Holds(k, cs[0]) && HoldsAll(ks, cs[0]);
    }
  }

  lemma {:induction false} KeepNothing(cs: seq<AICase>)
    ensures KeepMatching(cs, []) == cs
    decreases |cs|
  {
    if cs != [] {
      KeepNothing(cs[1..]);
      assert [cs[0]] + cs[1..] == cs;
    }
  }

  /** Filtering criterion by criterion equals filtering once by all of them. */
  lemma {:induction false} KeepEachIsKeepMatching(cs: seq<AICase>, ks: seq<Criterion>)
    ensures KeepEach(cs, ks) == KeepMatching(cs, ks)
    decreases |ks|
  {
    if ks == [] {
      KeepNothing(cs);
    } else {
      KeepEachIsKeepMatching(Keep(cs, ks[0]), ks[1..]);
      KeepThenMatching(cs, ks[0], ks[1..]);
      assert [ks[0]] + ks[1..] == ks;
    }
  }

  /** The selector value that switches a filter off. */
  const All := "All"

  /** The filters the dashboard's four widgets switch on, in the order the
      comprehensions apply them; a case passes them all exactly when it
      passes every filter that is switched on. */
  function ActiveCriteria(priority: string, status: string, category: string, platform: string): (r: seq<Criterion>)
    ensures |r| <= 4
    ensures forall c :: HoldsAll(r, c) <==> PassesFilters(c, priority, status, category, platform)
  {
    var p := if priority != All then [PriorityIs(priority)] else [];
    var s := if status != All then [StatusIs(status)] else [];
    var g := if category != All then [CategoryIs(category)] else [];
    var f := if platform != "" then [PlatformHas(platform)] else [];
    assert forall c :: HoldsAll(p + s + g + f, c) <==> PassesFilters(c, priority, status, category, platform) by {
      forall c ensures HoldsAll(p + s + g + f, c) <==> PassesFilters(c, priority, status, category, platform) {
        HoldsAllAppend(p, s, c);
        HoldsAllAppend(p + s, g, c);
        HoldsAllAppend(p + s + g, f, c);
        HoldsAllSingle(PriorityIs(priority), c);
        HoldsAllSingle(StatusIs(status), c);
        HoldsAllSingle(CategoryIs(category), c);
        HoldsAllSingle(PlatformHas(platform), c);
      }
    }
    p + s + g + f
  }

  /** The dashboard's list of cases for the current widget values: the
      cases that pass every filter switched on. */
  function Filtered(cs: seq<AICase>, priority: string, status: string, category: string, platform: string): (r: seq<AICase>)
    ensures |r| <= |cs|
    ensures forall c :: c in r <==> c in cs && PassesFilters(c, priority, status, category, platform)
  {
    KeepEach(cs, ActiveCriteria(priority, status, category, platform))
  }

  /** The case passes every filter that is switched on. */
  predicate PassesFilters(c: AICase, priority: string, status: string, category: string, platform: string)
  {
    (priority != All ==> c.priority == priority) &&
    (status != All ==> c.status == status) &&
    (category != All ==> c.category == category) &&
    (platform != "" ==> Contains(Lower(c.platform), Lower(platform)))
  }

  lemma HoldsAllAppend(ks: seq<Criterion>, ls: seq<Criterion>, c: AICase)
    ensures HoldsAll(ks + ls, c) <==> HoldsAll(ks, c) && HoldsAll(ls, c)
  {
    if HoldsAll(ks, c) && HoldsAll(ls, c) {
      forall k | k in ks + ls ensures Holds(k, c) {
      }
    }
  }

  lemma HoldsAllSingle(k: Criterion, c: AICase)
    ensures HoldsAll([k], c) <==> Holds(k, c)
  {
    assert k in [k];
  }

  /** The filtered list is the one-pass filter over the switched-on
      criteria: it keeps, in their original order and with every copy,
      exactly the cases that pass every active filter. */
  lemma FilteredMeaning(cs: seq<AICase>, priority: string, status: string, category: string, platform: string)
    ensures Filtered(cs, priority, status, category, platform) ==
            KeepMatching(cs, ActiveCriteria(priority, status, category, platform))
    ensures IsSubsequence(Filtered(cs, priority, status, category, platform), cs)
    ensures forall c :: multiset(Filtered(cs, priority, status, category, platform))[c] ==
                        if PassesFilters(c, priority, status, category, platform) then multiset(cs)[c] else 0
  {
    KeepEachIsKeepMatching(cs, ActiveCriteria(priority, status, category, platform));
  }

  /** With every selector on "All" and no platform text the whole list is shown. */
  lemma FilterOffIsIdentity(cs: seq<AICase>)
    ensures Filtered(cs, All, All, All, "") == cs
  {
  }

  /** Upper-case letters in the platform text do not change the result. */
  lemma PlatformCaseInsensitive(cs: seq<AICase>, priority: string, status: string, category: string, platform: string)
    ensures Filtered(cs, priority, status, category, platform) ==
            Filtered(cs, priority, status, category, Lower(platform))
  {
    LowerIdempotent(platform);
    var ks := ActiveCriteria(priority, status, category, platform);
    var ls := ActiveCriteria(priority, status, category, Lower(platform));
    assert forall c :: HoldsAll(ks, c) <==> HoldsAll(ls, c);
    KeepEachIsKeepMatching(cs, ks);
    KeepEachIsKeepMatching(cs, ls);
    MatchingAgrees(cs, ks, ls);
  }

  /** Two criterion lists that accept the same cases keep the same cases. */
  lemma {:induction false} MatchingAgrees(cs: seq<AICase>, ks: seq<Criterion>, ls: seq<Criterion>)
    requires forall c :: HoldsAll(ks, c) <==> HoldsAll(ls, c)
    ensures KeepMatching(cs, ks) == KeepMatching(cs, ls)
    decreases |cs|
  {
    if cs != [] {
      MatchingAgrees(cs[1..], ks, ls);
    }
  }

  /** Cases that are not resolved (the "Active Cases" metric). */
  function ActiveCount(cs: seq<AICase>): (n: nat)
    ensures n <= |cs|
    ensures n == 0 <==> forall i :: 0 <= i < |cs| ==> cs[i].status == Resolved
  {
    if cs == [] then 0
    else (if cs[0].status != Resolved then 1 else 0) + ActiveCount(cs[1..])
  }

  /** Urgent cases that are not resolved (the "Urgent" metric). */
  function UrgentActiveCount(cs: seq<AICase>): (n: nat)
    ensures n <= ActiveCount(cs)
  {
    if cs == [] then 0
    else (if cs[0].priority == Urgent && cs[0].status != Resolved then 1 else 0) + UrgentActiveCount(cs[1..])
  }

  /** The urgent-active count is the active count of the urgent cases. */
  lemma {:induction false} UrgentActiveOfUrgent(cs: seq<AICase>)
    ensures UrgentActiveCount(cs) == ActiveCount(Keep(cs, PriorityIs(Urgent)))
    decreases |cs|
  {
    if cs != [] {
      UrgentActiveOfUrgent(cs[1..]);
    }
  }

  /** The urgent-active count is the number of urgent cases on the dashboard
      minus the urgent cases it lists as resolved. */
  lemma UrgentActiveCountIsFilterSize(cs: seq<AICase>)
    ensures UrgentActiveCount(cs) + |Filtered(cs, Urgent, Resolved, All, "")| == |Filtered(cs, Urgent, All, All, "")|
  {
    var p, s := PriorityIs(Urgent), StatusIs(Resolved);
    var u := Keep(cs, p);
    assert Urgent != All && Resolved != All;
    assert ActiveCriteria(Urgent, All, All, "") == [p];
    assert ActiveCriteria(Urgent, Resolved, All, "") == [p, s];
    assert [p][1..] == [] && [p, s][1..] == [s] && [s][1..] == [];
    assert Filtered(cs, Urgent, All, All, "") == u by {
      assert KeepEach(cs, [p]) == KeepEach(u, []);
    }
    assert Filtered(cs, Urgent, Resolved, All, "") == Keep(u, s) by {
      assert KeepEach(cs, [p, s]) == KeepEach(u, [s]) == KeepEach(Keep(u, s), []);
    }
    ResolvedIsKeep(u);
    ResolvedCountIsFilterSize(u);
    UrgentActiveOfUrgent(cs);
  }

  /** Resolved cases (the numerator of the resolution rate). */
  function ResolvedCount(cs: seq<AICase>): (n: nat)
    ensures n + ActiveCount(cs) == |cs|
  {
    if cs == [] then 0
    else (if cs[0].status == Resolved then 1 else 0) + ResolvedCount(cs[1..])
  }

  lemma ResolvedIsKeep(cs: seq<AICase>)
    ensures Filtered(cs, All, Resolved, All, "") == Keep(cs, StatusIs(Resolved))
  {
    var k := StatusIs(Resolved);
    assert Resolved != All;
    assert ActiveCriteria(All, Resolved, All, "") == [k];
    assert [k][1..] == [];
    calc {
      Filtered(cs, All, Resolved, All, "");
      KeepEach(cs, [k]);
      KeepEach(Keep(cs, k), []);
      Keep(cs, k);
    }
  }

  /** The resolved count is the size of the dashboard list filtered on "resolved". */
  lemma {:induction false} ResolvedCountIsFilterSize(cs: seq<AICase>)
    ensures ResolvedCount(cs) == |Filtered(cs, All, Resolved, All, "")|
    decreases |cs|
  {
    ResolvedIsKeep(cs);
    if cs != [] {
      ResolvedCountIsFilterSize(cs[1..]);
      ResolvedIsKeep(cs[1..]);
    }
  }

  /** An exact fraction; the dashboard shows it as a float. */
  datatype Ratio = Ratio(numerator: nat, denominator: nat)

  /** The resolution rate, computed only when there are cases. */
  function ResolutionRate(cs: seq<AICase>): (r: Option<Ratio>)
    ensures r.None? <==> cs == []
    ensures r.Some? ==> r.value.denominator == |cs| > 0 && r.value.numerator <= r.value.denominator
    ensures r.Some? ==> r.value.numerator == |Filtered(cs, All, Resolved, All, "")|
  {
    ResolvedCountIsFilterSize(cs);
    if cs == [] then None else Some(Ratio(ResolvedCount(cs), |cs|))
  }

  /** Sum of the severity scores. */
  function SeveritySum(cs: seq<AICase>): (s: int)
    requires forall c :: c in cs ==> MinSeverity <= c.severityScore <= MaxSeverity
    ensures MinSeverity * |cs| <= s <= MaxSeverity * |cs|
    ensures |cs| == 1 ==> s == cs[0].severityScore
  {
    if cs == [] then 0 else cs[0].severityScore + SeveritySum(cs[1..])
  }

  /** The sum over a concatenation is the sum of the two parts' sums. */
  lemma {:induction false} SeveritySumAppend(a: seq<AICase>, b: seq<AICase>)
    requires forall c :: c in a ==> MinSeverity <= c.severityScore <= MaxSeverity
    requires forall c :: c in b ==> MinSeverity <= c.severityScore <= MaxSeverity
    ensures SeveritySum(a + b) == SeveritySum(a) + SeveritySum(b)
    decreases |a|
  {
    if a == [] {
      assert a + b == b;
    } else {
      assert (a + b)[1..] == a[1..] + b;
      SeveritySumAppend(a[1..], b);
    }
  }

  /** The average severity, computed only when there are cases: the sum of
      the scores over the number of cases, within the score range. */
  function AverageSeverity(cs: seq<AICase>): (r: Option<Ratio>)
    requires forall c :: c in cs ==> MinSeverity <= c.severityScore <= MaxSeverity
    ensures r.None? <==> cs == []
    ensures r.Some? ==> r.value.denominator == |cs| > 0
    ensures r.Some? ==> r.value.numerator == SeveritySum(cs)
    ensures r.Some? ==> MinSeverity * r.value.denominator <= r.value.numerator <= MaxSeverity * r.value.denominator
  {
    if cs == [] then None else Some(Ratio(SeveritySum(cs), |cs|))
  }
}
