/**
 Preset selection: filtering and sorting rules by priority, and the service
 configuration whose rules are ordered by their place in the file.
 */
module PresetSelection {
  import opened Wrappers
  import opened Conditions
  import opened Machine

  /** matcher is None for a nil function. */
  datatype Rule = Rule(priority: Int64, matcher: Option<Matcher>, preset: string)

  datatype Indexed = Indexed(rule: Rule, index: nat)

  /** The comparison function handed to slices.SortFunc. */
  function Compare(a: Indexed, b: Indexed): int {
    if a.rule.priority != b.rule.priority then Wrap(b.rule.priority - a.rule.priority)
    else if a.index < b.index then -1
    else if a.index > b.index then 1
    else 0
  }

  /** The intended order: higher priority first, earlier rule first. */
  predicate Before(a: Indexed, b: Indexed) {
    a.rule.priority > b.rule.priority || (a.rule.priority == b.rule.priority && a.index < b.index)
  }

  predicate DifferenceFits(a: Indexed, b: Indexed) {
    INT_MIN <= b.rule.priority - a.rule.priority <= INT_MAX
  }

  /** The comparison tells the intended order apart exactly while the priority
      difference fits a 64-bit int. */
  lemma CompareIsOrder(a: Indexed, b: Indexed)
    ensures (Compare(a, b) < 0 <==> Before(a, b)) <==> DifferenceFits(a, b)
  {
  }

  predicate Usable(r: Rule) {
    r.matcher.Some? && r.preset != ""
  }

  ghost predicate FromRules(kept: seq<Indexed>, rules: seq<Rule>) {
    forall i :: 0 <= i < |kept| ==>
      kept[i].index < |rules| && kept[i].rule == rules[kept[i].index] && Usable(kept[i].rule)
  }

  /** Drops rules without a matcher or a preset name, remembering positions. */
  method KeepUsable(rules: seq<Rule>) returns (kept: seq<Indexed>)
    ensures Kept(kept, rules)
    ensures forall i, j :: 0 <= i < j < |kept| ==> kept[i].index < kept[j].index
  {
    kept := [];
    for p := 0 to |rules|
      invariant FromRules(kept, rules)
      invariant forall i :: 0 <= i < |kept| ==> kept[i].index < p
      invariant forall i, j :: 0 <= i < j < |kept| ==> kept[i].index < kept[j].index
      invariant forall q :: 0 <= q < p && Usable(rules[q]) ==> HasIndex(kept, q)
    {
      hide HasIndex;
      if rules[p].matcher.None? || rules[p].preset == "" {
        continue;
      }
      forall q: nat {
        IndexAppended(kept, Indexed(rules[p], p), q);
      }
      kept := kept + [Indexed(rules[p], p)];
    }
  }

  predicate HasIndex(kept: seq<Indexed>, q: nat) {
    exists i :: 0 <= i < |kept| && kept[i].index == q
  }

  lemma IndexAppended(kept: seq<Indexed>, x: Indexed, q: nat)
    ensures HasIndex(kept + [x], q) <==> HasIndex(kept, q) || x.index == q
  {
    var more := kept + [x];
    assert more[|kept|] == x;
    if HasIndex(kept, q) {
      var i :| 0 <= i < |kept| && kept[i].index == q;
      assert more[i].index == q;
    }
  }

  predicate Ordered(s: seq<Indexed>) {
    forall i, j :: 0 <= i < j < |s| ==> Compare(s[i], s[j]) <= 0
  }

  /** No two priorities are so far apart that their difference overflows. */
  predicate AllFit(kept: seq<Indexed>) {
    forall i, j :: 0 <= i < |kept| && 0 <= j < |kept| ==> kept[i].rule.priority - kept[j].rule.priority <= INT_MAX
  }

  /** What slices.SortFunc promises of its result: the same elements, and order if the comparison
      is a strict weak ordering, which it is when no difference overflows. */
  ghost predicate Sorts(kept: seq<Indexed>, sorted: seq<Indexed>) {
    multiset(kept) == multiset(sorted) && (AllFit(kept) ==> Ordered(sorted))
  }

  /** The scan of selectPresetForClaims over the sorted rules. */
  method SelectPreset(sorted: seq<Indexed>, c: Claims) returns (name: string)
    requires forall i :: 0 <= i < |sorted| ==> sorted[i].rule.matcher.Some?
    ensures name == FirstMatch(sorted, c)
  {
    for i := 0 to |sorted|
      invariant FirstMatch(sorted, c) == FirstMatch(sorted[i..], c)
    {
      if sorted[i].rule.matcher.value(c) {
        return sorted[i].rule.preset;
      }
      assert sorted[i..][1..] == sorted[i + 1..];
    }
    return "";
  }

  function FirstMatch(sorted: seq<Indexed>, c: Claims): string
    requires forall i :: 0 <= i < |sorted| ==> sorted[i].rule.matcher.Some?
  {
    if sorted == [] then ""
    else if sorted[0].rule.matcher.value(c) then sorted[0].rule.preset
    else FirstMatch(sorted[1..], c)
  }

  predicate Matches(r: Rule, c: Claims) {
    Usable(r) && r.matcher.value(c)
  }

  /** p is the matching rule of highest priority, the earliest among equals. */
  predicate Best(rules: seq<Rule>, c: Claims, p: nat) {
    && p < |rules| && Matches(rules[p], c)
    && forall q :: 0 <= q < |rules| && Matches(rules[q], c) && q != p ==>
      Before(Indexed(rules[p], p), Indexed(rules[q], q))
  }

  /** No two rules that reach the sort, matching or not, have overflowing priorities. */
  predicate UsableFit(rules: seq<Rule>) {
    forall p, q :: 0 <= p < |rules| && 0 <= q < |rules| && Usable(rules[p]) && Usable(rules[q]) ==>
      rules[p].priority - rules[q].priority <= INT_MAX
  }

  /** The one difference for which the comparison puts either rule before the other. */
  const TIE: int := INT_MAX + 1

  /** The rule that decides: the first in the sorted list that matches. */
  function Deciding(sorted: seq<Indexed>, c: Claims): Option<Indexed>
    requires forall i :: 0 <= i < |sorted| ==> sorted[i].rule.matcher.Some?
  {
    if sorted == [] then None
    else if sorted[0].rule.matcher.value(c) then Some(sorted[0])
    else Deciding(sorted[1..], c)
  }

  lemma {:induction false} FirstMatchIs(sorted: seq<Indexed>, c: Claims, k: nat)
    requires forall i :: 0 <= i < |sorted| ==> sorted[i].rule.matcher.Some?
    requires k < |sorted| && sorted[k].rule.matcher.value(c)
    requires forall i :: 0 <= i < k ==> !sorted[i].rule.matcher.value(c)
    ensures Deciding(sorted, c) == Some(sorted[k]) && FirstMatch(sorted, c) == sorted[k].rule.preset
  {
    if k > 0 {
      FirstMatchIs(sorted[1..], c, k - 1);
    }
  }

  lemma {:induction false} FirstMatchNone(sorted: seq<Indexed>, c: Claims)
    requires forall i :: 0 <= i < |sorted| ==> sorted[i].rule.matcher.Some? && !sorted[i].rule.matcher.value(c)
    ensures FirstMatch(sorted, c) == ""
  {
    if sorted != [] {
      FirstMatchNone(sorted[1..], c);
    }
  }

  /** kept holds each usable rule with its position, as KeepUsable leaves it. */
  ghost predicate Kept(kept: seq<Indexed>, rules: seq<Rule>) {
    && FromRules(kept, rules)
    && forall p :: 0 <= p < |rules| && Usable(rules[p]) ==> HasIndex(kept, p)
  }

  lemma SortedElements(kept: seq<Indexed>, sorted: seq<Indexed>, rules: seq<Rule>)
    requires Kept(kept, rules) && Sorts(kept, sorted)
    ensures FromRules(sorted, rules)
    ensures forall p :: 0 <= p < |rules| && Usable(rules[p]) ==> Indexed(rules[p], p) in sorted
  {
    forall i | 0 <= i < |sorted|
      ensures sorted[i] in kept
    {
      assert sorted[i] in multiset(sorted);
    }
    forall p | 0 <= p < |rules| && Usable(rules[p])
      ensures Indexed(rules[p], p) in sorted
    {
      var i :| 0 <= i < |kept| && kept[i].index == p;
      assert kept[i] == Indexed(rules[p], p) && kept[i] in multiset(kept);
    }
  }

  lemma KeptFit(kept: seq<Indexed>, rules: seq<Rule>)
    requires Kept(kept, rules)
    ensures AllFit(kept) <==> UsableFit(rules)
  {
    if AllFit(kept) {
      forall p, q | 0 <= p < |rules| && 0 <= q < |rules| && Usable(rules[p]) && Usable(rules[q])
        ensures rules[p].priority - rules[q].priority <= INT_MAX
      {
        var i :| 0 <= i < |kept| && kept[i].index == p;
        var j :| 0 <= j < |kept| && kept[j].index == q;
        assert kept[i].rule == rules[p] && kept[j].rule == rules[q];
      }
    }
  }

  /** While no two usable rules overflow, selection returns the preset of the best matching
      rule, whatever the sort does internally. */
  lemma SelectsBest(rules: seq<Rule>, kept: seq<Indexed>, sorted: seq<Indexed>, c: Claims, p: nat)
    requires Kept(kept, rules) && Sorts(kept, sorted) && Best(rules, c, p) && UsableFit(rules)
    ensures Decides(sorted, c, Indexed(rules[p], p)) && FirstMatch(sorted, c) == rules[p].preset
  {
    hide AllFit, UsableFit, Ordered, Before, HasIndex;
    KeptFit(kept, rules);
    SortedElements(kept, sorted, rules);
    FitSame(kept, sorted);
    assert Indexed(rules[p], p) in sorted;
    var k :| 0 <= k < |sorted| && sorted[k] == Indexed(rules[p], p);
    var first := FirstIndex(sorted, c, k);
    FirstMatchIs(sorted, c, first);
    NoneBefore(rules, sorted, c, p, first, k);
  }

  /** In an ordered list no other matching rule stands before the best. */
  lemma NoneBefore(rules: seq<Rule>, sorted: seq<Indexed>, c: Claims, p: nat, first: nat, k: nat)
    requires FromRules(sorted, rules) && AllFit(sorted) && Ordered(sorted) && Best(rules, c, p)
    requires first <= k < |sorted| && sorted[k] == Indexed(rules[p], p) && sorted[first].rule.matcher.value(c)
    ensures sorted[first] == sorted[k]
  {
    FitCompare(sorted, first, k);
    hide AllFit, Before, Compare;
    assert sorted[first] == Indexed(rules[sorted[first].index], sorted[first].index);
  }

  ghost predicate Decides(sorted: seq<Indexed>, c: Claims, x: Indexed) {
    (forall i :: 0 <= i < |sorted| ==> sorted[i].rule.matcher.Some?) && Deciding(sorted, c) == Some(x)
  }

  /** And that is exact: as soon as any two usable rules overflow, matching or not, the sort's
      promise leaves every matching rule a chance to decide. */
  lemma SelectsBestExactly(rules: seq<Rule>, kept: seq<Indexed>, c: Claims, p: nat, q: nat)
    requires Kept(kept, rules) && Best(rules, c, p) && q < |rules| && Matches(rules[q], c) && q != p
    ensures (forall sorted :: Sorts(kept, sorted) ==> Decides(sorted, c, Indexed(rules[p], p))) <==> UsableFit(rules)
  {
    if UsableFit(rules) {
      forall sorted | Sorts(kept, sorted)
        ensures Decides(sorted, c, Indexed(rules[p], p))
      {
        SelectsBest(rules, kept, sorted, c, p);
      }
    } else {
      var sorted := AnyMayDecide(rules, kept, c, q);
    }
  }

  lemma AnyMayDecide(rules: seq<Rule>, kept: seq<Indexed>, c: Claims, q: nat) returns (sorted: seq<Indexed>)
    requires Kept(kept, rules) && !UsableFit(rules) && q < |rules| && Matches(rules[q], c)
    ensures Sorts(kept, sorted) && Decides(sorted, c, Indexed(rules[q], q))
  {
    hide AllFit, UsableFit, Ordered;
    KeptFit(kept, rules);
    var i :| 0 <= i < |kept| && kept[i].index == q;
    sorted := MoveToFront(kept, i);
    SortedElements(kept, sorted, rules);
    FirstMatchIs(sorted, c, 0);
  }

  lemma MoveToFront(kept: seq<Indexed>, i: nat) returns (sorted: seq<Indexed>)
    requires i < |kept|
    ensures multiset(kept) == multiset(sorted) && sorted != [] && sorted[0] == kept[i]
  {
    sorted := [kept[i]] + kept[..i] + kept[i + 1..];
    assert kept == kept[..i] + [kept[i]] + kept[i + 1..];
  }

  /** Position of the first match at or before k. */
  lemma FirstIndex(sorted: seq<Indexed>, c: Claims, k: nat) returns (f: nat)
    requires forall i :: 0 <= i < |sorted| ==> sorted[i].rule.matcher.Some?
    requires k < |sorted| && sorted[k].rule.matcher.value(c)
    ensures f <= k && sorted[f].rule.matcher.value(c)
    ensures forall i :: 0 <= i < f ==> !sorted[i].rule.matcher.value(c)
  {
    f := 0;
    while !sorted[f].rule.matcher.value(c)
      invariant f <= k
      invariant forall i :: 0 <= i < f ==> !sorted[i].rule.matcher.value(c)
      decreases k - f
    {
      f := f + 1;
    }
  }

  lemma SelectsNone(rules: seq<Rule>, kept: seq<Indexed>, sorted: seq<Indexed>, c: Claims)
    requires Kept(kept, rules) && Sorts(kept, sorted)
    requires forall p :: 0 <= p < |rules| ==> !Matches(rules[p], c)
    ensures forall i :: 0 <= i < |sorted| ==> sorted[i].rule.matcher.Some?
    ensures FirstMatch(sorted, c) == ""
  {
    SortedElements(kept, sorted, rules);
    FirstMatchNone(sorted, c);
  }

  // Insertion sort, which slices.SortFunc uses for up to twelve elements

  /** Moves the element at j to the left past everything it compares less than. */
  function Sink(s: seq<Indexed>, j: nat): (r: seq<Indexed>)
    requires j < |s|
    ensures |r| == |s| && multiset(r) == multiset(s)
    decreases j
  {
    if j > 0 && Compare(s[j], s[j - 1]) < 0 then
      var t := s[j - 1 := s[j]][j := s[j - 1]];
      assert multiset(t) == multiset(s);
      Sink(t, j - 1)
    else s
  }

  function InsertionSort(s: seq<Indexed>, n: nat): (r: seq<Indexed>)
    requires n <= |s|
    ensures |r| == |s| && multiset(r) == multiset(s)
  {
    if n == 0 then s else Sink(InsertionSort(s, n - 1), n - 1)
  }

  predicate Le(a: Indexed, b: Indexed) {
    !Before(b, a)
  }

  /** The first n elements are in order, except that the one at j may belong further left. */
  predicate OrderedBut(s: seq<Indexed>, j: nat, n: nat) {
    j < n <= |s| && forall i, k :: 0 <= i < k < n && k != j ==> Le(s[i], s[k])
  }

  predicate OrderedUpTo(s: seq<Indexed>, n: nat) {
    n <= |s| && forall i, k :: 0 <= i < k < n ==> Le(s[i], s[k])
  }

  lemma FitCompare(s: seq<Indexed>, i: nat, j: nat)
    requires AllFit(s) && i < |s| && j < |s|
    ensures Compare(s[i], s[j]) < 0 <==> Before(s[i], s[j])
    ensures Compare(s[i], s[j]) <= 0 <==> Le(s[i], s[j])
  {
    assert s[i].rule.priority - s[j].rule.priority <= INT_MAX && s[j].rule.priority - s[i].rule.priority <= INT_MAX;
  }

  lemma FitSame(s: seq<Indexed>, t: seq<Indexed>)
    requires AllFit(s) && multiset(s) == multiset(t)
    ensures AllFit(t)
  {
    forall i | 0 <= i < |t|
      ensures t[i] in s
    {
      assert t[i] in multiset(t);
    }
  }

  lemma {:induction false} SinkOrders(s: seq<Indexed>, j: nat, n: nat)
    requires AllFit(s) && OrderedBut(s, j, n)
    ensures OrderedUpTo(Sink(s, j), n)
    decreases j
  {
    if j > 0 {
      FitCompare(s, j, j - 1);
    }
    if j > 0 && Compare(s[j], s[j - 1]) < 0 {
      var t := s[j - 1 := s[j]][j := s[j - 1]];
      SwapKeepsOrder(s, t, j, n);
      hide OrderedBut, OrderedUpTo, Compare;
      assert multiset(t) == multiset(s);
      FitSame(s, t);
      SinkOrders(t, j - 1, n);
    } else {
      InPlace(s, j, n);
    }
  }

  lemma InPlace(s: seq<Indexed>, j: nat, n: nat)
    requires OrderedBut(s, j, n) && (j > 0 ==> Le(s[j - 1], s[j]))
    ensures OrderedUpTo(s, n)
  {
    forall i | 0 <= i < j
      ensures Le(s[i], s[j])
    {
      assert i < j - 1 ==> Le(s[i], s[j - 1]);
    }
  }

  lemma SwapKeepsOrder(s: seq<Indexed>, t: seq<Indexed>, j: nat, n: nat)
    requires 0 < j && OrderedBut(s, j, n) && Before(s[j], s[j - 1])
    requires t == s[j - 1 := s[j]][j := s[j - 1]]
    ensures OrderedBut(t, j - 1, n)
  {
  }

  lemma {:induction false} InsertionOrders(s: seq<Indexed>, n: nat)
    requires AllFit(s) && n <= |s|
    ensures OrderedUpTo(InsertionSort(s, n), n)
  {
    hide OrderedBut, OrderedUpTo, AllFit, Sink;
    if n > 0 {
      InsertionOrders(s, n - 1);
      var r := InsertionSort(s, n - 1);
      FitSame(s, r);
      NextMayMove(r, n);
      SinkOrders(r, n - 1, n);
    } else {
      NothingToOrder(s);
    }
  }

  lemma NothingToOrder(s: seq<Indexed>)
    ensures OrderedUpTo(s, 0)
  {
  }

  lemma NextMayMove(s: seq<Indexed>, n: nat)
    requires 0 < n <= |s| && OrderedUpTo(s, n - 1)
    ensures OrderedBut(s, n - 1, n)
  {
  }

  /** Insertion sort keeps the promise. */
  lemma InsertionSorts(kept: seq<Indexed>)
    ensures Sorts(kept, InsertionSort(kept, |kept|))
  {
    if AllFit(kept) {
      var r := InsertionSort(kept, |kept|);
      InsertionOrders(kept, |kept|);
      FitSame(kept, r);
      forall i, j | 0 <= i < j < |r|
        ensures Compare(r[i], r[j]) <= 0
      {
        FitCompare(r, i, j);
      }
    }
  }

  lemma CompareFarApart(h: Indexed, l: Indexed)
    requires h.rule.priority - l.rule.priority > INT_MAX
    ensures Compare(l, h) < 0 && (Compare(h, l) < 0 <==> h.rule.priority - l.rule.priority == TIE)
  {
  }

  lemma SortPair(x: Indexed, y: Indexed)
    ensures InsertionSort([x, y], 2) == if Compare(y, x) < 0 then [y, x] else [x, y]
  {
    hide Compare;
    var s := [x, y];
    assert Sink(s, 0) == s && InsertionSort(s, 0) == s;
    assert InsertionSort(s, 1) == s;
    assert Compare(y, x) < 0 ==> s[0 := s[1]][1 := s[0]] == [y, x];
  }

  lemma PairKept(a: Rule, b: Rule)
    requires Usable(a) && Usable(b)
    ensures Kept([Indexed(a, 0), Indexed(b, 1)], [a, b])
  {
    var kept := [Indexed(a, 0), Indexed(b, 1)];
    assert kept[0].index == 0 && kept[1].index == 1;
  }

  /** The sort in use lets the lower of two matching rules win whenever their priorities overflow,
      in whichever order they are given; only at the tie does it reverse the order it finds. */
  lemma OverflowPicksLower(high: Rule, low: Rule, c: Claims)
    requires Matches(high, c) && Matches(low, c) && high.priority - low.priority > INT_MAX
    ensures
      var kept := [Indexed(high, 0), Indexed(low, 1)];
      Kept(kept, [high, low]) && Best([high, low], c, 0) && Decides(InsertionSort(kept, 2), c, kept[1])
    ensures
      var kept := [Indexed(low, 0), Indexed(high, 1)];
      && Kept(kept, [low, high]) && Best([low, high], c, 1)
      && Decides(InsertionSort(kept, 2), c, if high.priority - low.priority == TIE then kept[1] else kept[0])
  {
    hide Compare, Kept, InsertionSort, Sink;
    PairKept(high, low);
    PairKept(low, high);
    SortPair(Indexed(high, 0), Indexed(low, 1));
    SortPair(Indexed(low, 0), Indexed(high, 1));
    CompareFarApart(Indexed(high, 0), Indexed(low, 1));
    CompareFarApart(Indexed(high, 1), Indexed(low, 0));
  }

  lemma TripleKept(a: Rule, b: Rule, d: Rule)
    requires Usable(a) && Usable(b) && Usable(d)
    ensures Kept([Indexed(a, 0), Indexed(b, 1), Indexed(d, 2)], [a, b, d])
  {
    var kept := [Indexed(a, 0), Indexed(b, 1), Indexed(d, 2)];
    assert kept[0].index == 0 && kept[1].index == 1 && kept[2].index == 2;
  }

  lemma SortTriple(x: Indexed, y: Indexed, z: Indexed)
    requires Compare(y, x) >= 0 && Compare(z, y) >= 0
    ensures InsertionSort([x, y, z], 3) == [x, y, z]
  {
    hide Compare;
    var s := [x, y, z];
    assert Sink(s, 0) == s && InsertionSort(s, 0) == s;
    assert InsertionSort(s, 1) == s && Sink(s, 1) == s;
    assert InsertionSort(s, 2) == s && Sink(s, 2) == s;
  }

  /** A rule that does not match can make the wrong rule win: standing between two matching rules
      that do not overflow, it overflows with the better one and so keeps it from moving up. */
  lemma IdleRuleDecides(high: Rule, middle: Rule, idle: Rule, c: Claims)
    requires Matches(high, c) && Matches(middle, c) && Usable(idle) && !Matches(idle, c)
    requires high.priority > middle.priority > idle.priority
    requires high.priority - middle.priority <= INT_MAX && middle.priority - idle.priority <= INT_MAX
    requires high.priority - idle.priority > TIE
    ensures
      var rules, kept := [middle, idle, high], [Indexed(middle, 0), Indexed(idle, 1), Indexed(high, 2)];
      Kept(kept, rules) && Best(rules, c, 2) && Decides(InsertionSort(kept, 3), c, kept[0])
  {
    TripleKept(middle, idle, high);
    SortTriple(Indexed(middle, 0), Indexed(idle, 1), Indexed(high, 2));
  }

  datatype CelRule = CelRule(name: string, expression: string)

  datatype LifetimeLimits = LifetimeLimits(min: string, max: string)

  /** The parts of a validation section that can be malformed. */
  datatype Section = Section(
    leeway: string,
    verifyExpiration: Option<bool>,
    verifyNotBefore: Option<bool>,
    lifetime: Option<LifetimeLimits>,
    celRules: seq<CelRule>)

  datatype PresetDef = PresetDef(name: string, validation: Option<Section>)

  datatype RuleDef = RuleDef(preset: string, conditions: map<string, Json>)

  datatype ServiceConfig = ServiceConfig(
    version: string, defaultValidation: Option<Section>, presets: seq<PresetDef>, rules: seq<RuleDef>)

  const SUPPORTED_VERSION := "1.0"

  predicate KnownPreset(cfg: ServiceConfig, name: string) {
    exists i :: 0 <= i < |cfg.presets| && cfg.presets[i].name == name
  }

  predicate DurationOk(env: Env, text: string) {
    text == "" || env.duration(text)
  }

  /** The switches must not be set to false, durations must parse, CEL rules must be named and compile. */
  predicate SectionOk(env: Env, v: Section) {
    && DurationOk(env, v.leeway)
    && v.verifyExpiration != Some(false) && v.verifyNotBefore != Some(false)
    && (v.lifetime.Some? ==> DurationOk(env, v.lifetime.value.min) && DurationOk(env, v.lifetime.value.max))
    && forall i :: 0 <= i < |v.celRules| ==>
         v.celRules[i].name != "" && v.celRules[i].expression != "" && env.cel(v.celRules[i].expression).Some?
  }

  method ValidateSection(env: Env, v: Section) returns (ok: bool)
    ensures ok <==> SectionOk(env, v)
  {
    if v.leeway != "" && !env.duration(v.leeway) {
      return false;
    }
    if v.verifyExpiration.Some? && !v.verifyExpiration.value {
      return false;
    }
    if v.verifyNotBefore.Some? && !v.verifyNotBefore.value {
      return false;
    }
    if v.lifetime.Some? {
      if v.lifetime.value.min != "" && !env.duration(v.lifetime.value.min) {
        return false;
      }
      if v.lifetime.value.max != "" && !env.duration(v.lifetime.value.max) {
        return false;
      }
    }
    for i := 0 to |v.celRules|
      invariant forall j :: 0 <= j < i ==>
        v.celRules[j].name != "" && v.celRules[j].expression != "" && env.cel(v.celRules[j].expression).Some?
    {
      var rule := v.celRules[i];
      if rule.name == "" || rule.expression == "" || env.cel(rule.expression).None? {
        return false;
      }
    }
    return true;
  }

  predicate PresetsOk(env: Env, presets: seq<PresetDef>) {
    && (forall i :: 0 <= i < |presets| ==>
          presets[i].name != "" && presets[i].validation.Some? && SectionOk(env, presets[i].validation.value))
    && (forall i, j :: 0 <= i < j < |presets| ==> presets[i].name != presets[j].name)
  }

  predicate RuleOk(env: Env, cfg: ServiceConfig, r: RuleDef) {
    r.preset != "" && KnownPreset(cfg, r.preset) && |r.conditions| > 0 && WellFormed(env, Obj(r.conditions))
  }

  /** The configurations that pass validation. */
  predicate Accepted(env: Env, cfg: ServiceConfig) {
    && cfg.version == SUPPORTED_VERSION
    && (cfg.defaultValidation.Some? ==> SectionOk(env, cfg.defaultValidation.value))
    && PresetsOk(env, cfg.presets)
    && forall i :: 0 <= i < |cfg.rules| ==> RuleOk(env, cfg, cfg.rules[i])
  }

  method ValidateServiceConfig(env: Env, cfg: ServiceConfig) returns (ok: bool)
    ensures ok <==> Accepted(env, cfg)
  {
    hide SectionOk, WellFormed;
    if cfg.version == "" || cfg.version != SUPPORTED_VERSION {
      return false;
    }
    if cfg.defaultValidation.Some? {
      var valid := ValidateSection(env, cfg.defaultValidation.value);
      if !valid {
        return false;
      }
    }
    var names: set<string> := {};
    for i := 0 to |cfg.presets|
      invariant PresetsOk(env, cfg.presets[..i])
      invariant names == set p | p in cfg.presets[..i] :: p.name
    {
      var preset := cfg.presets[i];
      assert cfg.presets[..i + 1] == cfg.presets[..i] + [preset];
      if preset.name == "" || preset.name in names || preset.validation.None? {
        return false;
      }
      var valid := ValidateSection(env, preset.validation.value);
      if !valid {
        return false;
      }
      names := names + {preset.name};
    }
    assert cfg.presets[..|cfg.presets|] == cfg.presets;
    assert forall n :: n in names <==> KnownPreset(cfg, n);
    for i := 0 to |cfg.rules|
      invariant forall j :: 0 <= j < i ==> RuleOk(env, cfg, cfg.rules[j])
    {
      var rule := cfg.rules[i];
      if rule.preset == "" || rule.preset !in names || |rule.conditions| == 0 {
        return false;
      }
      var m := ConditionsToMatcher(env, Obj(rule.conditions));
      if m.Err? {
        return false;
      }
    }
    return true;
  }

  /** rules are the compiled rules of cfg: priorities count down the file. */
  ghost predicate CompiledFrom(env: Env, cfg: ServiceConfig, rules: seq<Rule>) {
    && |rules| == |cfg.rules|
    && forall i :: 0 <= i < |rules| ==>
      && rules[i].priority == |rules| - i
      && rules[i].preset == cfg.rules[i].preset
      && rules[i].matcher.Some?
      && WellFormed(env, Obj(cfg.rules[i].conditions))
      && forall c :: rules[i].matcher.value(c) <==> Holds(env, Obj(cfg.rules[i].conditions), c)
  }

  /** The preset-rule part of ToProviderOptions. */
  method ToPresetRules(env: Env, cfg: ServiceConfig) returns (r: Result<seq<Rule>, ConfigError>)
    requires |cfg.rules| <= INT_MAX
    ensures r.Ok? <==> forall i :: 0 <= i < |cfg.rules| ==> WellFormed(env, Obj(cfg.rules[i].conditions))
    ensures r.Ok? ==> CompiledFrom(env, cfg, r.value)
  {
    hide Holds, WellFormed;
    var rules: seq<Rule> := [];
    var total := |cfg.rules|;
    for i := 0 to total
      invariant |rules| == i
      invariant forall j :: 0 <= j < i ==>
        && rules[j].priority == total - j
        && rules[j].preset == cfg.rules[j].preset
        && rules[j].matcher.Some?
        && WellFormed(env, Obj(cfg.rules[j].conditions))
      invariant forall j, c :: 0 <= j < i ==>
        (rules[j].matcher.value(c) <==> Holds(env, Obj(cfg.rules[j].conditions), c))
    {
      var m := ConditionsToMatcher(env, Obj(cfg.rules[i].conditions));
      if m.Err? {
        return Err(m.error);
      }
      rules := rules + [Rule(total - i, Some(m.value), cfg.rules[i].preset)];
    }
    return Ok(rules);
  }

  /** The specification of a configuration: the first rule in the file whose
      condition tree holds. */
  function FirstInFile(env: Env, rules: seq<RuleDef>, c: Claims): string
    requires forall i :: 0 <= i < |rules| ==> WellFormed(env, Obj(rules[i].conditions))
  {
    if rules == [] then ""
    else if Holds(env, Obj(rules[0].conditions), c) then rules[0].preset
    else FirstInFile(env, rules[1..], c)
  }

  lemma {:induction false} FirstInFileIs(env: Env, rules: seq<RuleDef>, c: Claims) returns (p: int)
    requires forall i :: 0 <= i < |rules| ==> WellFormed(env, Obj(rules[i].conditions))
    ensures -1 <= p < |rules|
    ensures forall i :: 0 <= i < (if p == -1 then |rules| else p) ==> !Holds(env, Obj(rules[i].conditions), c)
    ensures p == -1 ==> FirstInFile(env, rules, c) == ""
    ensures p >= 0 ==> Holds(env, Obj(rules[p].conditions), c) && FirstInFile(env, rules, c) == rules[p].preset
  {
    if rules == [] {
      p := -1;
    } else if Holds(env, Obj(rules[0].conditions), c) {
      p := 0;
    } else {
      p := FirstInFileIs(env, rules[1..], c);
      assert forall i :: 0 < i < |rules| ==> rules[i] == rules[1..][i - 1];
      p := if p == -1 then -1 else p + 1;
    }
  }

  /** Meaning preservation: for every accepted configuration, every compilation
      of it, every outcome of the sort and every claim set, selection returns
      the preset of the first rule in the file that holds, and that preset is
      registered; it returns nothing exactly when no rule holds. */
  lemma ConfigMeaning(env: Env, cfg: ServiceConfig, rules: seq<Rule>, kept: seq<Indexed>, sorted: seq<Indexed>,
      c: Claims)
    requires Accepted(env, cfg) && |cfg.rules| <= INT_MAX
    requires CompiledFrom(env, cfg, rules) && Kept(kept, rules) && Sorts(kept, sorted)
    ensures forall i :: 0 <= i < |sorted| ==> sorted[i].rule.matcher.Some?
    ensures FirstMatch(sorted, c) == FirstInFile(env, cfg.rules, c)
    ensures FirstMatch(sorted, c) != "" ==> KnownPreset(cfg, FirstMatch(sorted, c))
    ensures FirstMatch(sorted, c) == "" <==>
      forall i :: 0 <= i < |cfg.rules| ==> !Holds(env, Obj(cfg.rules[i].conditions), c)
  {
    assert forall i :: 0 <= i < |cfg.rules| ==> RuleOk(env, cfg, cfg.rules[i]);
    var p := FirstInFileIs(env, cfg.rules, c);
    if p == -1 {
      SelectsNone(rules, kept, sorted, c);
    } else {
      FirstIsBest(env, cfg, rules, c, p);
      SelectsBest(rules, kept, sorted, c, p);
    }
  }

  /** Priorities count down the file, so they fit and the first rule that holds is the best. */
  lemma FirstIsBest(env: Env, cfg: ServiceConfig, rules: seq<Rule>, c: Claims, p: nat)
    requires Accepted(env, cfg) && |cfg.rules| <= INT_MAX && CompiledFrom(env, cfg, rules) && p < |rules|
    requires Holds(env, Obj(cfg.rules[p].conditions), c)
    requires forall i :: 0 <= i < p ==> !Holds(env, Obj(cfg.rules[i].conditions), c)
    ensures Best(rules, c, p) && UsableFit(rules)
  {
    hide Holds, WellFormed, PresetsOk;
    forall i | 0 <= i < |rules|
      ensures Matches(rules[i], c) <==> Holds(env, Obj(cfg.rules[i].conditions), c)
    {
      assert RuleOk(env, cfg, cfg.rules[i]);
    }
  }
}
