/**
 The singleflight key of the self-issued-token verifier: an injective byte
 encoding of (subject, kid, generation), proved injective by a decoder.
 */
module FlightKey {
  import opened Wrappers

  type Byte = b: int | 0 <= b < 256

  type Bytes = seq<Byte>

  const ZERO: Byte := 48
  const COLON: Byte := 58

  /** strconv.AppendInt(nil, n, 10) for a non-negative n. */
  function Decimal(n: nat): (r: Bytes)
    ensures |r| >= 1
    ensures forall i :: 0 <= i < |r| ==> ZERO <= r[i] < COLON
  {
    if n < 10 then [ZERO + n] else Decimal(n / 10) + [ZERO + n % 10]
  }

  /** The number a run of decimal digits denotes; other bytes count as zero. */
  function Value(digits: Bytes): nat {
    if digits == [] then 0
    else
      var last := digits[|digits| - 1];
      10 * Value(digits[..|digits| - 1]) + (if ZERO <= last < COLON then last - ZERO else 0)
  }

  lemma {:induction false} ValueOfDecimal(n: nat)
    ensures Value(Decimal(n)) == n
  {
    var d := Decimal(n);
    if n >= 10 {
      ValueOfDecimal(n / 10);
      assert d[..|d| - 1] == Decimal(n / 10);
    } else {
      assert d[..|d| - 1] == [];
    }
  }

  /** Position of the first colon, or |b| when there is none. */
  function FirstColon(b: Bytes): (i: nat)
    ensures i <= |b|
    ensures i < |b| ==> b[i] == COLON
    ensures forall j :: 0 <= j < i ==> b[j] != COLON
  {
    if b == [] || b[0] == COLON then 0 else 1 + FirstColon(b[1..])
  }

  /** One length-prefixed field: decimal length, colon, that many bytes. */
  function Field(f: Bytes): Bytes {
    Decimal(|f|) + [COLON] + f
  }

  /** Splits one length-prefixed field off the front of b. */
  function TakeField(b: Bytes): Option<(Bytes, Bytes)> {
    var i := FirstColon(b);
    if i == |b| then None
    else
      var n := Value(b[..i]);
      if i + 1 + n > |b| then None else Some((b[i + 1..i + 1 + n], b[i + 1 + n..]))
  }

  lemma TakeFieldInverts(f: Bytes, rest: Bytes)
    ensures TakeField(Field(f) + rest) == Some((f, rest))
  {
    var d := Decimal(|f|);
    var b := Field(f) + rest;
    assert b[|d|] == COLON;
    assert FirstColon(b) == |d| by {
      assert forall j :: 0 <= j < |d| ==> b[j] == d[j];
    }
    assert b[..|d|] == d;
    ValueOfDecimal(|f|);
    assert b[|d| + 1..|d| + 1 + |f|] == f;
    assert b[|d| + 1 + |f|..] == rest;
  }

  function Encode(subject: Bytes, kid: Bytes, gen: nat): Bytes {
    Field(subject) + Field(kid) + Decimal(gen)
  }

  function Decode(b: Bytes): Option<(Bytes, Bytes, nat)> {
    match TakeField(b)
    case None => None
    case Some((subject, rest)) =>
      match TakeField(rest)
      case None => None
      case Some((kid, digits)) => Some((subject, kid, Value(digits)))
  }

  /** Encoding followed by decoding is the identity, whatever bytes the fields hold. */
  lemma RoundTrip(subject: Bytes, kid: Bytes, gen: nat)
    ensures Decode(Encode(subject, kid, gen)) == Some((subject, kid, gen))
  {
    var tail := Field(kid) + Decimal(gen);
    assert Encode(subject, kid, gen) == Field(subject) + tail;
    TakeFieldInverts(subject, tail);
    TakeFieldInverts(kid, Decimal(gen));
    ValueOfDecimal(gen);
  }

  /** Distinct triples never share a flight. */
  lemma Injective(s: Bytes, k: Bytes, g: nat, s': Bytes, k': Bytes, g': nat)
    requires Encode(s, k, g) == Encode(s', k', g')
    ensures s == s' && k == k' && g == g'
  {
    RoundTrip(s, k, g);
    RoundTrip(s', k', g');
  }

  /** The source's buffer-appending form. */
  method BuildFlightKey(subject: Bytes, kid: Bytes, gen: nat) returns (b: Bytes)
    ensures b == Encode(subject, kid, gen)
    ensures Decode(b) == Some((subject, kid, gen))
  {
    b := [];
    b := b + Decimal(|subject|);
    b := b + [COLON];
    b := b + subject;
    b := b + Decimal(|kid|);
    b := b + [COLON];
    b := b + kid;
    b := b + Decimal(gen);
    assert b == Encode(subject, kid, gen);
    RoundTrip(subject, kid, gen);
  }
}
