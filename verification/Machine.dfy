/** Go's 64-bit integers, and a fact about finite sets that several modules count with. */
module Machine {
  const INT_MAX: int := 0x7FFF_FFFF_FFFF_FFFF
  const INT_MIN: int := -0x8000_0000_0000_0000
  const MODULUS: int := 0x1_0000_0000_0000_0000

  /** int64, and int on a 64-bit platform. */
  type Int64 = i: int | INT_MIN <= i <= INT_MAX witness 0

  /** Two's complement: the value in range that is congruent to i. */
  function Wrap(i: int): (r: Int64)
    ensures (i - r) % MODULUS == 0
    ensures INT_MIN <= i <= INT_MAX ==> r == i
  {
    var m := i % MODULUS;
    if m > INT_MAX then m - MODULUS else m
  }

  lemma {:induction false} SubsetSize<T>(a: set<T>, b: set<T>)
    requires a <= b
    ensures |a| <= |b|
    ensures |a| == |b| ==> a == b
  {
    if a != {} {
      var x :| x in a;
      SubsetSize(a - {x}, b - {x});
    }
  }
}
