/**
 Scope matchers. HasAllScopes is a 64-bit bitmask form of set inclusion with a
 set-based fallback; both are proved to decide "every required scope occurs in
 the token", and the one list on which they part is named.
 */
module ScopeMatcher {
  import opened Machine

  const MAX_BITMASK_SCOPES: nat := 64
  const SMALL_SET_THRESHOLD: nat := 3

  type Scopes = seq<string>

  /** The specification: inclusion of the required scopes in the token's. */
  predicate ContainsAll(required: Scopes, token: Scopes) {
    forall s :: s in required ==> s in token
  }

  predicate ContainsAny(required: Scopes, token: Scopes) {
    exists s :: s in required && s in token
  }

  /** The bit of the i-th required scope, uint64(1) << i. */
  function Bit(i: nat): bv64 {
    if i == 0 then 1 else Bit(i - 1) + Bit(i - 1)
  }

  /** Each bit is the one before shifted left by one; Bit(0) is 1. */
  lemma BitShifts(i: nat, b: bv64)
    requires Bit(i) == b
    ensures Bit(i + 1) == b << 1
  {
    Double(i, b);
    DoublingShifts(b);
  }

  lemma DoublingShifts(x: bv64)
    ensures x + x == x << 1
  {
  }

  lemma ShiftFacts(x: bv64, y: bv64)
    requires x & y == 0
    ensures (x + x) & (y + y) == 0
  {
  }

  lemma LowBit(x: bv64)
    ensures 1 & (x + x) == 0
  {
  }

  lemma {:induction false} BitsApart(i: nat, j: nat)
    requires i < j
    ensures Bit(i) & Bit(j) == 0 && Bit(j) & Bit(i) == 0
  {
    if i == 0 {
      LowBit(Bit(j - 1));
    } else {
      BitsApart(i - 1, j - 1);
      ShiftFacts(Bit(i - 1), Bit(j - 1));
    }
  }

  /** No bit is shifted out before position 64: a lost bit would stay lost. */
  lemma {:induction false} BitLost(i: nat, j: nat)
    requires i <= j && Bit(i) == 0
    ensures Bit(j) == 0
  {
    if i < j {
      BitLost(i, j - 1);
    }
  }

  lemma Double(i: nat, b: bv64)
    requires Bit(i) == b
    ensures Bit(i + 1) == b + b
  {
  }

  lemma Twice(i: nat, b: bv64)
    requires Bit(i) == b
    ensures Bit(i + 2) == b * 4
  {
    Double(i, b);
    Double(i + 1, b + b);
  }

  lemma TopBit()
    ensures Bit(63) == 0x8000_0000_0000_0000
  {
    assert Bit(62) == 0x4000_0000_0000_0000 by {
      Twice(0, 0x1); Twice(2, 0x4); Twice(4, 0x10); Twice(6, 0x40);
      Twice(8, 0x100); Twice(10, 0x400); Twice(12, 0x1000); Twice(14, 0x4000);
      Twice(16, 0x10000); Twice(18, 0x40000); Twice(20, 0x100000); Twice(22, 0x400000);
      Twice(24, 0x1000000); Twice(26, 0x4000000); Twice(28, 0x10000000); Twice(30, 0x40000000);
      Twice(32, 0x100000000); Twice(34, 0x400000000); Twice(36, 0x1000000000); Twice(38, 0x4000000000);
      Twice(40, 0x10000000000); Twice(42, 0x40000000000); Twice(44, 0x100000000000); Twice(46, 0x400000000000);
      Twice(48, 0x1000000000000); Twice(50, 0x4000000000000); Twice(52, 0x10000000000000); Twice(54, 0x40000000000000);
      Twice(56, 0x100000000000000); Twice(58, 0x400000000000000); Twice(60, 0x1000000000000000);
    }
    Double(62, 0x4000_0000_0000_0000);
  }

  lemma BitSet(i: nat)
    requires i < 64
    ensures Bit(i) != 0
  {
    TopBit();
    if Bit(i) == 0 {
      BitLost(i, 63);
    }
  }

  /** Named so that proofs about lists of masks can hide the bit-vector theory. */
  function Or(x: bv64, y: bv64): bv64 { x | y }

  function And(x: bv64, y: bv64): bv64 { x & y }

  type Bits = seq<bv64>

  /** Non-zero masks without a common bit. */
  ghost predicate Apart(bit: Bits) {
    && (forall i :: 0 <= i < |bit| ==> bit[i] != 0)
    && (forall i, j :: 0 <= i < |bit| && 0 <= j < |bit| && i != j ==> And(bit[i], bit[j]) == 0)
  }

  /** The bits of the first n positions. */
  ghost function Table(n: nat): Bits {
    seq(n, i requires 0 <= i < n => Bit(i))
  }

  lemma TwoApart(i: nat, j: nat)
    requires i != j
    ensures And(Bit(i), Bit(j)) == 0
  {
    hide Bit;
    if i < j {
      BitsApart(i, j);
    } else {
      BitsApart(j, i);
    }
  }

  lemma TableApart(n: nat)
    requires n <= 64
    ensures Apart(Table(n))
  {
    hide Bit, And;
    forall i | 0 <= i < n
      ensures Table(n)[i] != 0
    {
      BitSet(i);
    }
    forall i, j | 0 <= i < n && 0 <= j < n && i != j
      ensures And(Table(n)[i], Table(n)[j]) == 0
    {
      TwoApart(i, j);
    }
  }

  /** The mask of a set of positions. */
  ghost function Mask(bit: Bits, bits: set<nat>): bv64 {
    if bit == [] then 0
    else
      var n := |bit| - 1;
      var low := Mask(bit[..n], bits);
      if n in bits then Or(low, bit[n]) else low
  }

  lemma AndSkips(u: bv64, p: bv64, b: bv64)
    requires And(p, b) == 0
    ensures And(Or(u, p), b) == And(u, b)
  {
  }

  lemma AndFinds(u: bv64, b: bv64)
    ensures And(Or(u, b), b) == b
    ensures And(0, b) == 0
  {
  }

  lemma OrFacts(u: bv64, a: bv64, b: bv64)
    ensures Or(Or(u, a), b) == Or(Or(u, b), a)
    ensures Or(Or(u, a), a) == Or(u, a)
  {
  }

  lemma {:induction false} MaskMisses(bit: Bits, bits: set<nat>, b: bv64)
    requires forall i :: 0 <= i < |bit| ==> And(bit[i], b) == 0
    ensures And(Mask(bit, bits), b) == 0
  {
    hide Or, And;
    AndFinds(0, b);
    if bit != [] {
      var n := |bit| - 1;
      MaskMisses(bit[..n], bits, b);
      AndSkips(Mask(bit[..n], bits), bit[n], b);
    }
  }

  /** A position is in the set exactly when the mask has its bit. */
  lemma {:induction false} MaskDecides(bit: Bits, bits: set<nat>, j: nat)
    requires Apart(bit) && j < |bit|
    ensures And(Mask(bit, bits), bit[j]) == if j in bits then bit[j] else 0
  {
    hide Or, And;
    var n := |bit| - 1;
    var low := bit[..n];
    if j == n {
      MaskMisses(low, bits, bit[n]);
      AndFinds(Mask(low, bits), bit[n]);
    } else {
      MaskDecides(low, bits, j);
      assert low[j] == bit[j];
      AndSkips(Mask(low, bits), bit[n], bit[j]);
    }
  }

  lemma {:induction false} MaskAdd(bit: Bits, bits: set<nat>, j: nat)
    requires j < |bit|
    ensures Or(Mask(bit, bits), bit[j]) == Mask(bit, bits + {j})
  {
    hide Or, And;
    var n := |bit| - 1;
    var low := bit[..n];
    if j == n {
      MaskFrame(low, bits, j);
      OrFacts(Mask(low, bits), bit[n], bit[n]);
    } else {
      MaskAdd(low, bits, j);
      assert low[j] == bit[j];
      OrFacts(Mask(low, bits), bit[n], bit[j]);
    }
  }

  lemma {:induction false} MaskFrame(bit: Bits, bits: set<nat>, j: nat)
    requires |bit| <= j
    ensures Mask(bit, bits + {j}) == Mask(bit, bits)
  {
    if bit != [] {
      MaskFrame(bit[..|bit| - 1], bits, j);
    }
  }

  lemma {:induction false} EmptyMask(bit: Bits)
    ensures Mask(bit, {}) == 0
  {
    if bit != [] {
      EmptyMask(bit[..|bit| - 1]);
    }
  }

  ghost predicate Below(bits: set<nat>, n: nat) {
    forall j :: j in bits ==> j < n
  }

  /** Comparing masks is comparing sets of positions. */
  lemma MasksCompareSets(bit: Bits, a: set<nat>, b: set<nat>)
    requires Apart(bit) && Below(a, |bit|) && Below(b, |bit|)
    ensures Mask(bit, a) == Mask(bit, b) <==> a == b
  {
    hide Or, And;
    if Mask(bit, a) == Mask(bit, b) {
      forall j: nat | j < |bit|
        ensures j in a <==> j in b
      {
        MaskDecides(bit, a, j);
        MaskDecides(bit, b, j);
      }
      assert a == b;
    }
  }

  type Index = map<string, bv64>

  /** Each distinct required scope owns the bit of one of its positions. */
  ghost predicate Indexed(index: Index, pos: map<string, nat>, required: Scopes) {
    && |required| <= 64
    && index.Keys == pos.Keys
    && forall s :: s in pos ==> pos[s] < |required| && required[pos[s]] == s && index[s] == Table(|required|)[pos[s]]
  }

  /** index covers exactly the required scopes, and allBits is all their bits. */
  ghost predicate Compiled(index: Index, allBits: bv64, pos: map<string, nat>, required: Scopes) {
    && Indexed(index, pos, required)
    && pos.Keys == (set s | s in required)
    && allBits == Mask(Table(|required|), pos.Values)
  }

  /** Building the index: one bit per distinct scope, at its first position. */
  method CompileBitmask(required: Scopes) returns (index: Index, allBits: bv64, ghost pos: map<string, nat>)
    requires |required| <= MAX_BITMASK_SCOPES
    ensures Compiled(index, allBits, pos, required)
  {
    hide Or, And, Mask, Bit;
    index := map[];
    allBits := 0;
    pos := map[];
    EmptyMask(Table(|required|));
    assert pos.Values == {};
    for i := 0 to |required|
      invariant Indexed(index, pos, required)
      invariant pos.Keys == set s | s in required[..i]
      invariant allBits == Mask(Table(|required|), pos.Values)
    {
      var bit := Bit(i);
      var s := required[i];
      assert required[..i + 1] == required[..i] + [s];
      if s !in index {
        MaskAdd(Table(|required|), pos.Values, i);
        ValuesGrow(pos, s, i);
        index := index[s := bit];
        allBits := Or(allBits, bit);
        pos := pos[s := i];
      }
    }
    assert required[..|required|] == required;
  }

  lemma ValuesGrow(pos: map<string, nat>, s: string, i: nat)
    requires s !in pos
    ensures pos[s := i].Values == pos.Values + {i}
  {
    var p' := pos[s := i];
    forall v | v in pos.Values + {i}
      ensures v in p'.Values
    {
      if v in pos.Values {
        var k :| k in pos && pos[k] == v;
        assert p'[k] == v;
      } else {
        assert p'[s] == v;
      }
    }
  }

  /** The positions of the scopes of a list that are required. */
  ghost function Positions(pos: map<string, nat>, scopes: Scopes): set<nat> {
    set s | s in scopes && s in pos :: pos[s]
  }

  lemma PositionsCompare(index: Index, pos: map<string, nat>, required: Scopes, scopes: Scopes)
    requires Indexed(index, pos, required) && pos.Keys == set s | s in required
    ensures Below(Positions(pos, scopes), |required|) && Below(pos.Values, |required|)
    ensures Positions(pos, scopes) == pos.Values <==> ContainsAll(required, scopes)
  {
    if Positions(pos, scopes) == pos.Values {
      forall s | s in required
        ensures s in scopes
      {
        assert pos[s] in Positions(pos, scopes);
      }
    }
    if ContainsAll(required, scopes) {
      assert Positions(pos, scopes) == pos.Values;
    }
  }

  /** The matcher closure over a compiled bitmask. */
  method MatchBitmask(index: Index, allBits: bv64, ghost pos: map<string, nat>, ghost required: Scopes, token: Scopes)
      returns (r: bool)
    requires Compiled(index, allBits, pos, required)
    ensures r <==> required != [] && ContainsAll(required, token)
  {
    hide Or, And, Mask, Bit;
    var seen: bv64 := 0;
    EmptyMask(Table(|required|));
    assert Positions(pos, token[..0]) == {};
    assert required != [] ==> required[0] in required;
    for i := 0 to |token|
      invariant seen == Mask(Table(|required|), Positions(pos, token[..i]))
      invariant required != [] ==> !ContainsAll(required, token[..i])
    {
      var s := token[i];
      assert token[..i + 1] == token[..i] + [s];
      if s in index {
        MaskAdd(Table(|required|), Positions(pos, token[..i]), pos[s]);
        assert Positions(pos, token[..i + 1]) == Positions(pos, token[..i]) + {pos[s]};
        seen := Or(seen, index[s]);
        PositionsCompare(index, pos, required, token[..i + 1]);
        TableApart(|required|);
        MasksCompareSets(Table(|required|), Positions(pos, token[..i + 1]), pos.Values);
        if seen == allBits {
          assert forall x :: x in token[..i + 1] ==> x in token;
          return true;
        }
      } else {
        assert Positions(pos, token[..i + 1]) == Positions(pos, token[..i]);
        assert s !in required;
      }
    }
    assert token[..|token|] == token;
    return false;
  }

  /** The matcher closure for more than 64 required scopes. */
  method MatchFallback(required: Scopes, token: Scopes) returns (r: bool)
    ensures r <==> ContainsAll(required, token)
  {
    var requiredSet := set s | s in required;
    var matched: set<string> := {};
    for i := 0 to |token|
      invariant matched == set s | s in token[..i] && s in requiredSet
    {
      var s := token[i];
      assert token[..i + 1] == token[..i] + [s];
      if s in requiredSet {
        matched := matched + {s};
        if |matched| == |requiredSet| {
          SubsetSize(matched, requiredSet);
          assert forall x :: x in required ==> x in matched;
          return true;
        }
      }
    }
    assert token[..|token|] == token;
    SubsetSize(matched, requiredSet);
    if |matched| >= |requiredSet| {
      assert forall s :: s in required ==> s in matched;
      return true;
    }
    assert requiredSet * matched == matched;
    assert |requiredSet - matched| > 0;
    var missing :| missing in requiredSet - matched;
    assert missing in required && missing !in token;
    return false;
  }

  /** HasAllScopes decides inclusion for every non-empty list, duplicates and
      more than 64 entries included; on the empty list it always refuses. */
  method HasAllScopes(required: Scopes, token: Scopes) returns (r: bool)
    ensures r <==> required != [] && ContainsAll(required, token)
  {
    if |required| > MAX_BITMASK_SCOPES {
      r := MatchFallback(required, token);
    } else {
      var index, allBits, pos := CompileBitmask(required);
      r := MatchBitmask(index, allBits, pos, required, token);
    }
  }

  method HasAnyScope(required: Scopes, token: Scopes) returns (r: bool)
    ensures r <==> ContainsAny(required, token)
  {
    var requiredSet := set s | s in required;
    for i := 0 to |token|
      invariant !ContainsAny(required, token[..i])
    {
      assert token[..i + 1] == token[..i] + [token[i]];
      if |required| <= SMALL_SET_THRESHOLD {
        if token[i] in required {
          return true;
        }
      } else if token[i] in requiredSet {
        return true;
      }
    }
    assert token[..|token|] == token;
    return false;
  }
}
