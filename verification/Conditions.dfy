/**
 The condition language of preset selection rules: decoded JSON compiled into
 matcher closures. The compiler's loops over JSON objects visit the entries in
 an unspecified order; the result is proved to mean the condition tree itself.
 */
module Conditions {
  import opened Wrappers
  import opened ScopeMatcher

  /** Decoded JSON, as encoding/json produces it for `any`. */
  datatype Json =
    | Null
    | Bool(b: bool)
    | Number(n: real)
    | Str(s: string)
    | Arr(items: seq<Json>)
    | Obj(fields: map<string, Json>)

  type Claims = map<string, Json>

  type Matcher = Claims -> bool

  datatype ConfigError = InvalidConfig | InvalidCel

  /** Foreign code: CEL compilation (with evaluation errors already read as
      false), fmt's %v, and whether time.ParseDuration accepts a text. */
  datatype Env = Env(cel: string -> Option<Matcher>, sprint: Json -> string, duration: string -> bool)

  predicate IsSpace(c: char) {
    c in "\t\n\U{B}\U{C}\r \U{85}\U{A0}\U{1680}\U{2028}\U{2029}\U{202F}\U{205F}\U{3000}"
      || '\U{2000}' <= c <= '\U{200A}'
  }

  /** strings.TrimSpace(s) == "". */
  predicate Blank(s: string) {
    forall c :: c in s ==> IsSpace(c)
  }

  /** strings.FieldsSeq: the maximal runs of non-space characters. */
  function Fields(s: string): seq<string> {
    if s == [] then []
    else if IsSpace(s[0]) then Fields(s[1..])
    else
      var n := WordLength(s);
      [s[..n]] + Fields(s[n..])
  }

  function WordLength(s: string): (n: nat)
    ensures n <= |s|
    ensures s != [] && !IsSpace(s[0]) ==> n > 0
  {
    if s == [] || IsSpace(s[0]) then 0 else 1 + WordLength(s[1..])
  }

  function Strings(items: seq<Json>): seq<string> {
    if items == [] then []
    else (if items[0].Str? then [items[0].s] else []) + Strings(items[1..])
  }

  /** The scopes a token carries: a space-separated string or an array. */
  function ScopesOf(c: Claims): seq<string> {
    if "scope" !in c then []
    else
      match c["scope"]
      case Str(s) => Fields(s)
      case Arr(items) => Strings(items)
      case _ => []
  }

  /** w is s[i..j], a run of non-space characters that cannot be extended on either side. */
  predicate IsField(s: string, i: int, j: int, w: string) {
    && 0 <= i < j <= |s| && s[i..j] == w && (forall c :: c in w ==> !IsSpace(c))
    && (i == 0 || IsSpace(s[i - 1])) && (j == |s| || IsSpace(s[j]))
  }

  lemma {:induction false} WordEnds(s: string)
    ensures forall k :: 0 <= k < WordLength(s) ==> !IsSpace(s[k])
    ensures WordLength(s) == |s| || IsSpace(s[WordLength(s)])
  {
    hide IsSpace;
    if s != [] && !IsSpace(s[0]) {
      WordEnds(s[1..]);
      assert forall k :: 0 < k < WordLength(s) ==> s[k] == s[1..][k - 1];
    }
  }

  /** A field of a tail that starts after a space, or after a whole word, is a field of the string. */
  lemma FieldOfTail(s: string, n: nat, i: int, j: int, w: string)
    requires n <= |s| && IsField(s[n..], i, j, w) && (i > 0 || n == 0 || IsSpace(s[n - 1]))
    ensures IsField(s, n + i, n + j, w)
  {
    assert s[n..][i..j] == s[n + i..n + j];
  }

  lemma FieldInTail(s: string, n: nat, i: int, j: int, w: string)
    requires n <= i && IsField(s, i, j, w)
    ensures IsField(s[n..], i - n, j - n, w)
  {
    assert s[n..][i - n..j - n] == s[i..j];
  }

  lemma FieldIsNoSpace(s: string, i: int, j: int, w: string)
    requires IsField(s, i, j, w)
    ensures forall k :: i <= k < j ==> !IsSpace(s[k])
  {
    assert forall k :: i <= k < j ==> s[k] == w[k - i];
  }

  lemma FieldAtFront(s: string, i: int, j: int, w: string)
    requires IsField(s, i, j, w) && i < WordLength(s)
    ensures i == 0 && j == WordLength(s)
  {
    hide IsSpace;
    WordEnds(s);
    FieldIsNoSpace(s, i, j, w);
  }

  lemma {:induction false} FieldsAreFields(s: string, w: string) returns (i: int, j: int)
    requires w in Fields(s)
    ensures IsField(s, i, j, w)
    decreases |s|
  {
    hide IsSpace;
    if IsSpace(s[0]) {
      i, j := FieldsAreFields(s[1..], w);
      FieldOfTail(s, 1, i, j, w);
      i, j := i + 1, j + 1;
    } else {
      var n := WordLength(s);
      WordEnds(s);
      if w == s[..n] {
        i, j := 0, n;
      } else {
        i, j := FieldsAreFields(s[n..], w);
        FieldIsNoSpace(s[n..], i, j, w);
        FieldOfTail(s, n, i, j, w);
        i, j := i + n, j + n;
      }
    }
  }

  lemma {:induction false} FieldsHaveAll(s: string, i: int, j: int, w: string)
    requires IsField(s, i, j, w)
    ensures w in Fields(s)
    decreases |s|
  {
    hide IsSpace;
    FieldIsNoSpace(s, i, j, w);
    var n := if IsSpace(s[0]) then 1 else WordLength(s);
    if n <= i {
      FieldInTail(s, n, i, j, w);
      hide IsField;
      FieldsHaveAll(s[n..], i - n, j - n, w);
    } else {
      FieldAtFront(s, i, j, w);
    }
  }

  lemma {:induction false} StringsMeaning(items: seq<Json>, w: string)
    ensures w in Strings(items) <==> Str(w) in items
  {
    if items != [] {
      StringsMeaning(items[1..], w);
    }
  }

  /** w is one of the words of a string claim, which is cut at white space and nowhere else, or one
      of the strings of an array. */
  predicate Carries(c: Claims, w: string) {
    "scope" in c &&
    match c["scope"]
    case Str(s) => exists i, j :: 0 <= i < j <= |s| && IsField(s, i, j, w)
    case Arr(items) => Str(w) in items
    case _ => false
  }

  lemma ScopesMeaning(c: Claims, w: string)
    ensures w in ScopesOf(c) <==> Carries(c, w)
  {
    if "scope" in c {
      match c["scope"]
      case Str(s) =>
        if w in Fields(s) {
          var i, j := FieldsAreFields(s, w);
        }
        if i, j :| IsField(s, i, j, w) {
          FieldsHaveAll(s, i, j, w);
        }
      case Arr(items) => StringsMeaning(items, w);
      case _ =>
    }
  }

  predicate Substring(sub: string, s: string) {
    sub <= s || (s != [] && Substring(sub, s[1..]))
  }

  predicate OccursAt(sub: string, s: string, i: nat) {
    i + |sub| <= |s| && s[i..i + |sub|] == sub
  }

  lemma {:induction false} SubstringMeaning(sub: string, s: string)
    ensures Substring(sub, s) <==> exists i :: 0 <= i <= |s| && OccursAt(sub, s, i)
  {
    if sub <= s {
      assert OccursAt(sub, s, 0);
    } else if s != [] {
      SubstringMeaning(sub, s[1..]);
      forall i | 0 <= i <= |s[1..]|
        ensures OccursAt(sub, s[1..], i) <==> OccursAt(sub, s, i + 1)
      {
        assert i + |sub| <= |s[1..]| ==> s[1..][i..i + |sub|] == s[i + 1..i + 1 + |sub|];
      }
      if i :| 0 <= i <= |s| && OccursAt(sub, s, i) {
        assert i > 0 && OccursAt(sub, s[1..], i - 1);
      }
    }
  }

  predicate ClaimEquals(env: Env, name: string, expected: Json, c: Claims) {
    name in c &&
    match expected
    case Arr(_) => env.sprint(c[name]) == env.sprint(expected)
    case Obj(_) => env.sprint(c[name]) == env.sprint(expected)
    case _ => c[name] == expected
  }

  predicate ClaimContains(name: string, sub: string, c: Claims) {
    name in c && c[name].Str? && Substring(sub, c[name].s)
  }

  lemma ContainsMeaning(name: string, sub: string, c: Claims)
    ensures ClaimContains(name, sub, c) <==>
      name in c && c[name].Str? && exists i :: 0 <= i <= |c[name].s| && OccursAt(sub, c[name].s, i)
  {
    if name in c && c[name].Str? {
      SubstringMeaning(sub, c[name].s);
    }
  }

  predicate Texts(items: seq<Json>) {
    items != [] && forall i :: 0 <= i < |items| ==> items[i].Str? && !Blank(items[i].s)
  }

  /** What the compiler accepts. */
  predicate WellFormed(env: Env, cond: Json)
    decreases cond
  {
    cond.Obj? && |cond.fields| == 1 && forall k :: k in cond.fields ==> EntryWellFormed(env, k, cond.fields[k])
  }

  predicate EntryWellFormed(env: Env, key: string, v: Json)
    decreases v
  {
    match key
    case "claim_equals" => v.Obj? && |v.fields| > 0
    case "claim_exists" => v.Arr? && Texts(v.items)
    case "claim_contains" => v.Obj? && |v.fields| > 0 && forall k :: k in v.fields ==> v.fields[k].Str?
    case "has_scope" => v.Str? && !Blank(v.s)
    case "has_any_scope" => v.Arr? && Texts(v.items)
    case "has_all_scopes" => v.Arr? && Texts(v.items)
    case "cel_expression" => v.Str? && !Blank(v.s) && env.cel(v.s).Some?
    case "matcher_and" => v.Arr? && |v.items| > 0 && forall i :: 0 <= i < |v.items| ==> WellFormed(env, v.items[i])
    case "matcher_or" => v.Arr? && |v.items| > 0 && forall i :: 0 <= i < |v.items| ==> WellFormed(env, v.items[i])
    case _ => false
  }

  /** The meaning of a condition tree, read directly off the JSON. */
  predicate Holds(env: Env, cond: Json, c: Claims)
    requires WellFormed(env, cond)
    decreases cond
  {
    forall k :: k in cond.fields ==> EntryHolds(env, k, cond.fields[k], c)
  }

  predicate EntryHolds(env: Env, key: string, v: Json, c: Claims)
    requires EntryWellFormed(env, key, v)
    decreases v
  {
    match key
    case "claim_equals" => forall k :: k in v.fields ==>
      k in c && if v.fields[k].Arr? || v.fields[k].Obj? then env.sprint(c[k]) == env.sprint(v.fields[k])
                else c[k] == v.fields[k]
    case "claim_exists" => forall i :: 0 <= i < |v.items| ==> v.items[i].s in c
    case "claim_contains" => forall k :: k in v.fields ==>
      k in c && c[k].Str? && exists i :: 0 <= i <= |c[k].s| && OccursAt(v.fields[k].s, c[k].s, i)
    case "has_scope" => Carries(c, v.s)
    case "has_any_scope" => exists i :: 0 <= i < |v.items| && Carries(c, v.items[i].s)
    case "has_all_scopes" => forall i :: 0 <= i < |v.items| ==> Carries(c, v.items[i].s)
    case "cel_expression" => env.cel(v.s).value(c)
    case "matcher_and" => forall i :: 0 <= i < |v.items| ==> Holds(env, v.items[i], c)
    case _ => exists i :: 0 <= i < |v.items| && Holds(env, v.items[i], c)
  }

  predicate AllMatch(ms: seq<Matcher>, c: Claims) {
    ms == [] || (ms[0](c) && AllMatch(ms[1..], c))
  }

  predicate AnyMatch(ms: seq<Matcher>, c: Claims) {
    ms != [] && (ms[0](c) || AnyMatch(ms[1..], c))
  }

  /** MatcherAnd and MatcherOr: closures that scan the matchers in order. */
  function MatcherAnd(ms: seq<Matcher>): Matcher {
    c => AllMatch(ms, c)
  }

  function MatcherOr(ms: seq<Matcher>): Matcher {
    c => AnyMatch(ms, c)
  }

  lemma {:induction false} ScanMeaning(ms: seq<Matcher>, c: Claims)
    ensures AllMatch(ms, c) <==> forall i :: 0 <= i < |ms| ==> ms[i](c)
    ensures AnyMatch(ms, c) <==> exists i :: 0 <= i < |ms| && ms[i](c)
  {
    if ms != [] {
      ScanMeaning(ms[1..], c);
      if AnyMatch(ms[1..], c) {
        var i :| 0 <= i < |ms[1..]| && ms[1..][i](c);
        assert ms[i + 1](c);
      }
      assert forall i :: 0 < i < |ms| ==> ms[i] == ms[1..][i - 1];
    }
  }

  lemma {:induction false} TextsAreStrings(items: seq<Json>)
    requires forall i :: 0 <= i < |items| ==> items[i].Str?
    ensures |Strings(items)| == |items|
    ensures forall i :: 0 <= i < |items| ==> Strings(items)[i] == items[i].s
  {
    if items != [] {
      TextsAreStrings(items[1..]);
      assert forall i :: 0 < i < |items| ==> items[i] == items[1..][i - 1];
    }
  }

  lemma ScopeListMeaning(items: seq<Json>, c: Claims)
    requires forall i :: 0 <= i < |items| ==> items[i].Str?
    ensures ContainsAny(Strings(items), ScopesOf(c)) <==> exists i :: 0 <= i < |items| && Carries(c, items[i].s)
    ensures ContainsAll(Strings(items), ScopesOf(c)) <==> forall i :: 0 <= i < |items| ==> Carries(c, items[i].s)
  {
    hide Carries, ScopesOf;
    TextsAreStrings(items);
    forall i | 0 <= i < |items| {
      ScopesMeaning(c, items[i].s);
    }
    assert forall i :: 0 <= i < |items| ==> Strings(items)[i] == items[i].s;
    assert forall w :: w in Strings(items) ==> exists i :: 0 <= i < |items| && Strings(items)[i] == w;
  }

  /** parseNonEmptyStringArray. */
  method ParseTexts(v: Json) returns (r: Result<seq<string>, ConfigError>)
    ensures r.Ok? <==> v.Arr? && Texts(v.items)
    ensures r.Ok? ==> r.value == Strings(v.items) && r.value != []
  {
    if !v.Arr? || |v.items| == 0 {
      return Err(InvalidConfig);
    }
    var out: seq<string> := [];
    for i := 0 to |v.items|
      invariant |out| == i
      invariant forall j :: 0 <= j < i ==> v.items[j].Str? && !Blank(v.items[j].s) && out[j] == v.items[j].s
    {
      if !v.items[i].Str? || Blank(v.items[i].s) {
        return Err(InvalidConfig);
      }
      out := out + [v.items[i].s];
    }
    TextsAreStrings(v.items);
    assert out == Strings(v.items);
    return Ok(out);
  }

  /** m is the meaning of the entry (key, v). */
  ghost predicate Means(env: Env, m: Matcher, key: string, v: Json) {
    EntryWellFormed(env, key, v) && forall c :: m(c) <==> EntryHolds(env, key, v, c)
  }

  lemma EqualsHolds(env: Env, v: Json, c: Claims)
    requires EntryWellFormed(env, "claim_equals", v)
    ensures EntryHolds(env, "claim_equals", v, c) <==>
      forall k :: k in v.fields ==> ClaimEquals(env, k, v.fields[k], c)
  {
  }

  lemma ContainsHolds(env: Env, v: Json, c: Claims)
    requires EntryWellFormed(env, "claim_contains", v)
    ensures EntryHolds(env, "claim_contains", v, c) <==>
      forall k :: k in v.fields ==> ClaimContains(k, v.fields[k].s, c)
  {
    forall k | k in v.fields {
      ContainsMeaning(k, v.fields[k].s, c);
    }
  }

  method CompileClaimEquals(env: Env, v: Json) returns (r: Result<Matcher, ConfigError>)
    ensures r.Ok? <==> EntryWellFormed(env, "claim_equals", v)
    ensures r.Ok? ==> Means(env, r.value, "claim_equals", v)
  {
    hide EntryHolds, ClaimEquals;
    if !v.Obj? || |v.fields| == 0 {
      return Err(InvalidConfig);
    }
    var ms: seq<Matcher> := [];
    ghost var names: seq<string> := [];
    var todo := v.fields.Keys;
    while todo != {}
      invariant todo <= v.fields.Keys
      invariant |names| == |ms|
      invariant forall k :: k in v.fields ==> k in todo || k in names
      invariant forall i :: 0 <= i < |ms| ==> names[i] in v.fields
      invariant forall i, c :: 0 <= i < |ms| ==> (ms[i](c) <==> ClaimEquals(env, names[i], v.fields[names[i]], c))
      decreases |todo|
    {
      var k :| k in todo;
      todo := todo - {k};
      var expected := v.fields[k];
      ms := ms + [c => ClaimEquals(env, k, expected, c)];
      names := names + [k];
    }
    var m := MatcherAnd(ms);
    forall c
      ensures m(c) <==> EntryHolds(env, "claim_equals", v, c)
    {
      ScanMeaning(ms, c);
      EqualsHolds(env, v, c);
      assert forall k :: k in v.fields ==> exists i :: 0 <= i < |names| && names[i] == k;
    }
    return Ok(m);
  }

  method CompileClaimContains(env: Env, v: Json) returns (r: Result<Matcher, ConfigError>)
    ensures r.Ok? <==> EntryWellFormed(env, "claim_contains", v)
    ensures r.Ok? ==> Means(env, r.value, "claim_contains", v)
  {
    hide EntryHolds, ClaimContains;
    if !v.Obj? || |v.fields| == 0 {
      return Err(InvalidConfig);
    }
    var ms: seq<Matcher> := [];
    ghost var names: seq<string> := [];
    var todo := v.fields.Keys;
    while todo != {}
      invariant todo <= v.fields.Keys
      invariant |names| == |ms|
      invariant forall k :: k in v.fields ==> k in todo || k in names
      invariant forall i :: 0 <= i < |ms| ==> names[i] in v.fields && v.fields[names[i]].Str?
      invariant forall i, c :: 0 <= i < |ms| ==> (ms[i](c) <==> ClaimContains(names[i], v.fields[names[i]].s, c))
      decreases |todo|
    {
      var k :| k in todo;
      todo := todo - {k};
      if !v.fields[k].Str? {
        return Err(InvalidConfig);
      }
      var sub := v.fields[k].s;
      ms := ms + [c => ClaimContains(k, sub, c)];
      names := names + [k];
    }
    var m := MatcherAnd(ms);
    assert forall k :: k in v.fields ==> exists i :: 0 <= i < |names| && names[i] == k;
    forall c
      ensures m(c) <==> EntryHolds(env, "claim_contains", v, c)
    {
      ScanMeaning(ms, c);
      ContainsHolds(env, v, c);
    }
    return Ok(m);
  }

  lemma ListHolds(env: Env, key: string, v: Json, c: Claims)
    requires (key == "matcher_and" || key == "matcher_or") && EntryWellFormed(env, key, v)
    ensures EntryHolds(env, key, v, c) <==>
      if key == "matcher_and" then forall i :: 0 <= i < |v.items| ==> Holds(env, v.items[i], c)
      else exists i :: 0 <= i < |v.items| && Holds(env, v.items[i], c)
  {
  }

  /** matcher_and and matcher_or compile their operands, failing on the first bad one. */
  method CompileList(env: Env, key: string, v: Json) returns (r: Result<Matcher, ConfigError>)
    requires key == "matcher_and" || key == "matcher_or"
    ensures r.Ok? <==> EntryWellFormed(env, key, v)
    ensures r.Ok? ==> Means(env, r.value, key, v)
    decreases v, 0
  {
    hide EntryHolds, Holds;
    if !v.Arr? || |v.items| == 0 {
      return Err(InvalidConfig);
    }
    var ms: seq<Matcher> := [];
    for i := 0 to |v.items|
      invariant |ms| == i
      invariant forall j :: 0 <= j < i ==> WellFormed(env, v.items[j])
      invariant forall j, c :: 0 <= j < i ==> (ms[j](c) <==> Holds(env, v.items[j], c))
    {
      if !v.items[i].Obj? {
        return Err(InvalidConfig);
      }
      var sub := ConditionsToMatcher(env, v.items[i]);
      if sub.Err? {
        return sub;
      }
      ms := ms + [sub.value];
    }
    var m := if key == "matcher_and" then MatcherAnd(ms) else MatcherOr(ms);
    forall c
      ensures m(c) <==> EntryHolds(env, key, v, c)
    {
      ScanMeaning(ms, c);
      ListHolds(env, key, v, c);
    }
    return Ok(m);
  }

  /** conditionsToMatcher: accepts exactly the well-formed trees and yields
      their meaning, in whatever order object entries are visited. */
  method ConditionsToMatcher(env: Env, cond: Json) returns (r: Result<Matcher, ConfigError>)
    requires cond.Obj?
    ensures r.Ok? <==> WellFormed(env, cond)
    ensures r.Ok? ==> forall c :: r.value(c) <==> Holds(env, cond, c)
    decreases cond, 1
  {
    if |cond.fields| != 1 {
      return Err(InvalidConfig);
    }
    var key :| key in cond.fields;
    assert cond.fields.Keys == {key} by {
      assert |cond.fields.Keys - {key}| == 0;
    }
    var v := cond.fields[key];
    match key {
      case "claim_equals" =>
        r := CompileClaimEquals(env, v);
      case "claim_exists" =>
        var texts := ParseTexts(v);
        if texts.Err? {
          return Err(texts.error);
        }
        var names := texts.value;
        TextsAreStrings(v.items);
        return Ok(c => forall i :: 0 <= i < |names| ==> names[i] in c);
      case "claim_contains" =>
        r := CompileClaimContains(env, v);
      case "has_scope" =>
        if !v.Str? || Blank(v.s) {
          return Err(InvalidConfig);
        }
        forall c { ScopesMeaning(c, v.s); }
        return Ok(c => v.s in ScopesOf(c));
      case "has_any_scope" =>
        var texts := ParseTexts(v);
        if texts.Err? {
          return Err(texts.error);
        }
        var scopes := texts.value;
        forall c { ScopeListMeaning(v.items, c); }
        return Ok(c => ContainsAny(scopes, ScopesOf(c)));
      case "has_all_scopes" =>
        var texts := ParseTexts(v);
        if texts.Err? {
          return Err(texts.error);
        }
        var scopes := texts.value;
        forall c { ScopeListMeaning(v.items, c); }
        return Ok(c => scopes != [] && ContainsAll(scopes, ScopesOf(c)));
      case "cel_expression" =>
        if !v.Str? || Blank(v.s) {
          return Err(InvalidConfig);
        }
        var program := env.cel(v.s);
        if program.None? {
          return Err(InvalidCel);
        }
        return Ok(program.value);
      case "matcher_and" =>
        r := CompileList(env, key, v);
      case "matcher_or" =>
        r := CompileList(env, key, v);
      case _ =>
        return Err(InvalidConfig);
    }
  }
}
