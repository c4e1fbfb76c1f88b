/**
 The deep copy of a claim set that preset matchers are run on. Claims are decoded JSON on
 the heap: maps and slices that a matcher could write to. The copy has the same content and
 shares no map or slice with the original, at any depth.
 */
module ClaimCopy {
  import opened Conditions

  /** An `any` in a claim set. Scalars are immutable; objects and arrays are references. */
  datatype Value = Scalar(j: Json) | Object(m: ClaimMap) | Array(a: ClaimList)

  class ClaimMap {
    var fields: map<string, Value>

    constructor (fields: map<string, Value>)
      ensures this.fields == fields
    {
      this.fields := fields;
    }
  }

  class ClaimList {
    var items: seq<Value>

    constructor (items: seq<Value>)
      ensures this.items == items
    {
      this.items := items;
    }
  }

  /** Everything reachable from v lies in `foot`, and nesting ends within `depth` levels. */
  ghost predicate Within(v: Value, foot: set<object>, depth: nat)
    reads foot
    decreases depth
  {
    match v
    case Scalar(_) => true
    case Object(m) => depth > 0 && m in foot && forall k :: k in m.fields ==> Within(m.fields[k], foot, depth - 1)
    case Array(a) => depth > 0 && a in foot && forall i :: 0 <= i < |a.items| ==> Within(a.items[i], foot, depth - 1)
  }

  /** The JSON document a value stands for. */
  ghost function Content(v: Value, foot: set<object>, depth: nat): Json
    requires Within(v, foot, depth)
    reads foot
    decreases depth, 0
  {
    match v
    case Scalar(j) => j
    case Object(m) => Obj(map k | k in m.fields :: Content(m.fields[k], foot, depth - 1))
    case Array(a) => Arr(Contents(a.items, foot, depth - 1))
  }

  ghost function Contents(items: seq<Value>, foot: set<object>, depth: nat): (r: seq<Json>)
    requires forall i :: 0 <= i < |items| ==> Within(items[i], foot, depth)
    reads foot
    ensures |r| == |items|
    decreases depth, 1, |items|
  {
    if items == [] then [] else Contents(items[..|items| - 1], foot, depth) + [Content(items[|items| - 1], foot, depth)]
  }

  lemma {:induction false} FootGrows(v: Value, foot: set<object>, larger: set<object>, depth: nat)
    requires Within(v, foot, depth) && foot <= larger
    ensures Within(v, larger, depth) && Content(v, larger, depth) == Content(v, foot, depth)
    decreases depth, 0
  {
    match v
    case Scalar(_) =>
    case Object(m) =>
      forall k | k in m.fields
        ensures Within(m.fields[k], larger, depth - 1)
        ensures Content(m.fields[k], larger, depth - 1) == Content(m.fields[k], foot, depth - 1)
      {
        FootGrows(m.fields[k], foot, larger, depth - 1);
      }
    case Array(a) =>
      AllGrow(a.items, foot, larger, depth - 1);
  }

  lemma {:induction false} AllGrow(items: seq<Value>, foot: set<object>, larger: set<object>, depth: nat)
    requires foot <= larger && forall i :: 0 <= i < |items| ==> Within(items[i], foot, depth)
    ensures forall i :: 0 <= i < |items| ==> Within(items[i], larger, depth)
    ensures Contents(items, larger, depth) == Contents(items, foot, depth)
    decreases depth, 1, |items|
  {
    if items != [] {
      var last := items[|items| - 1];
      AllGrow(items[..|items| - 1], foot, larger, depth);
      FootGrows(last, foot, larger, depth);
      assert items == items[..|items| - 1] + [last];
    }
  }

  method CloneClaimValue(v: Value, ghost foot: set<object>, ghost depth: nat)
      returns (r: Value, ghost copy: set<object>)
    requires Within(v, foot, depth)
    ensures fresh(copy) && Within(r, copy, depth)
    ensures Within(v, foot, depth) && Content(r, copy, depth) == Content(v, foot, depth)
    decreases depth, 1
  {
    match v {
      case Scalar(_) =>
        r, copy := v, {};
      case Object(m) =>
        var c;
        c, copy := CloneClaims(m, foot, depth);
        r := Object(c);
      case Array(a) =>
        r, copy := CloneItems(a, foot, depth);
    }
  }

  /** The first values of `items` have been copied. */
  ghost predicate CopiedItems(out: seq<Value>, copy: set<object>, items: seq<Value>, foot: set<object>, depth: nat)
    reads copy, foot
  {
    && |out| <= |items|
    && (forall i :: 0 <= i < |out| ==> Within(out[i], copy, depth))
    && (forall i :: 0 <= i < |items| ==> Within(items[i], foot, depth))
    && Contents(out, copy, depth) == Contents(items[..|out|], foot, depth)
  }

  lemma AddItem(out: seq<Value>, copy: set<object>, items: seq<Value>, foot: set<object>, depth: nat, v: Value,
      more: set<object>)
    requires CopiedItems(out, copy, items, foot, depth) && |out| < |items|
    requires Within(v, more, depth) && Content(v, more, depth) == Content(items[|out|], foot, depth)
    ensures CopiedItems(out + [v], copy + more, items, foot, depth)
  {
    AllGrow(out, copy, copy + more, depth);
    FootGrows(v, more, copy + more, depth);
    assert (out + [v])[..|out|] == out && items[..|out| + 1][..|out|] == items[..|out|];
  }

  lemma FinishList(l: ClaimList, copy: set<object>, a: ClaimList, foot: set<object>, depth: nat)
    requires CopiedItems(l.items, copy, a.items, foot, depth) && |l.items| == |a.items| && a in foot
    ensures Within(Array(l), copy + {l}, depth + 1) && Within(Array(a), foot, depth + 1)
    ensures Content(Array(l), copy + {l}, depth + 1) == Content(Array(a), foot, depth + 1)
  {
    AllGrow(l.items, copy, copy + {l}, depth);
    assert a.items[..|a.items|] == a.items;
  }

  method CloneItems(a: ClaimList, ghost foot: set<object>, ghost depth: nat) returns (r: Value, ghost copy: set<object>)
    requires Within(Array(a), foot, depth)
    ensures fresh(copy) && Within(r, copy, depth)
    ensures Within(Array(a), foot, depth) && Content(r, copy, depth) == Content(Array(a), foot, depth)
    decreases depth, 0
  {
    hide CopiedItems;
    var out: seq<Value> := [];
    copy := {};
    StartItems(a, foot, depth);
    for i := 0 to |a.items|
      invariant |out| == i && fresh(copy)
      invariant CopiedItems(out, copy, a.items, foot, depth - 1)
    {
      ghost var more;
      var e;
      e, more := CloneClaimValue(a.items[i], foot, depth - 1);
      AddItem(out, copy, a.items, foot, depth - 1, e, more);
      out, copy := out + [e], copy + more;
    }
    var l := new ClaimList(out);
    FinishList(l, copy, a, foot, depth - 1);
    r, copy := Array(l), copy + {l};
  }

  lemma StartItems(a: ClaimList, foot: set<object>, depth: nat)
    requires Within(Array(a), foot, depth)
    ensures CopiedItems([], {}, a.items, foot, depth - 1)
  {
  }

  /** The fields in `out` have been copied from `fields`. */
  ghost predicate CopiedFields(out: map<string, Value>, copy: set<object>, fields: map<string, Value>,
      foot: set<object>, depth: nat)
    reads copy, foot
  {
    && (forall k :: k in out ==> k in fields && Within(out[k], copy, depth))
    && (forall k :: k in fields ==> Within(fields[k], foot, depth))
    && (forall k :: k in out ==> Content(out[k], copy, depth) == Content(fields[k], foot, depth))
  }

  lemma AddField(
      out: map<string, Value>, copy: set<object>, fields: map<string, Value>, foot: set<object>, depth: nat,
      k: string, v: Value, more: set<object>)
    requires CopiedFields(out, copy, fields, foot, depth) && k in fields
    requires Within(v, more, depth) && Content(v, more, depth) == Content(fields[k], foot, depth)
    ensures CopiedFields(out[k := v], copy + more, fields, foot, depth)
  {
    FieldsGrow(out, copy, copy + more, depth);
    FootGrows(v, more, copy + more, depth);
  }

  lemma FinishMap(c: ClaimMap, copy: set<object>, m: ClaimMap, foot: set<object>, depth: nat)
    requires CopiedFields(c.fields, copy, m.fields, foot, depth) && c.fields.Keys == m.fields.Keys && m in foot
    ensures Within(Object(c), copy + {c}, depth + 1) && Within(Object(m), foot, depth + 1)
    ensures Content(Object(c), copy + {c}, depth + 1) == Content(Object(m), foot, depth + 1)
  {
    FieldsGrow(c.fields, copy, copy + {c}, depth);
  }

  lemma FieldsGrow(fields: map<string, Value>, foot: set<object>, larger: set<object>, depth: nat)
    requires foot <= larger && forall k :: k in fields ==> Within(fields[k], foot, depth)
    ensures forall k :: k in fields ==> Within(fields[k], larger, depth)
    ensures forall k :: k in fields ==> Content(fields[k], larger, depth) == Content(fields[k], foot, depth)
  {
    forall k | k in fields
      ensures Within(fields[k], larger, depth) && Content(fields[k], larger, depth) == Content(fields[k], foot, depth)
    {
      FootGrows(fields[k], foot, larger, depth);
    }
  }

  lemma StartFields(m: ClaimMap, foot: set<object>, depth: nat)
    requires Within(Object(m), foot, depth)
    ensures CopiedFields(map[], {}, m.fields, foot, depth - 1)
  {
  }

  /** The loop of cloneClaims. */
  method CloneFields(m: ClaimMap, ghost foot: set<object>, ghost depth: nat)
      returns (out: map<string, Value>, ghost copy: set<object>)
    requires m in foot && CopiedFields(map[], {}, m.fields, foot, depth)
    ensures fresh(copy) && out.Keys == m.fields.Keys && CopiedFields(out, copy, m.fields, foot, depth)
    decreases depth, 2
  {
    out, copy := map[], {};
    var todo := m.fields.Keys;
    while todo != {}
      invariant todo <= m.fields.Keys && out.Keys == m.fields.Keys - todo && fresh(copy)
      invariant CopiedFields(out, copy, m.fields, foot, depth)
      decreases |todo|
    {
      hide CopiedFields;
      var k :| k in todo;
      FieldWithin(out, copy, m.fields, foot, depth, k);
      ghost var more;
      var v;
      v, more := CloneClaimValue(m.fields[k], foot, depth);
      AddField(out, copy, m.fields, foot, depth, k, v, more);
      out, copy, todo := out[k := v], copy + more, todo - {k};
    }
  }

  lemma FieldWithin(out: map<string, Value>, copy: set<object>, fields: map<string, Value>, foot: set<object>,
      depth: nat, k: string)
    requires CopiedFields(out, copy, fields, foot, depth) && k in fields
    ensures Within(fields[k], foot, depth)
  {
  }

  method CloneClaims(m: ClaimMap, ghost foot: set<object>, ghost depth: nat)
      returns (c: ClaimMap, ghost copy: set<object>)
    requires Within(Object(m), foot, depth)
    ensures fresh(copy) && Within(Object(c), copy, depth)
    ensures Within(Object(m), foot, depth) && Content(Object(c), copy, depth) == Content(Object(m), foot, depth)
    decreases depth, 0
  {
    hide CopiedFields;
    StartFields(m, foot, depth);
    var out;
    out, copy := CloneFields(m, foot, depth - 1);
    c := new ClaimMap(out);
    FinishMap(c, copy, m, foot, depth - 1);
    copy := copy + {c};
  }
}
