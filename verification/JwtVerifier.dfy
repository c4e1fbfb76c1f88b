/**
 Claim validation of the JWT verifier and its composition with the denylist.
 Times are instants; leeway is the clock-skew tolerance. The temporal checks
 follow sections 4.1.4 to 4.1.6 of RFC 7519.
 */
module JwtVerifier {
  import opened Wrappers
  import D = Denylist

  datatype Header = Header(alg: string, kid: string, typ: string)

  datatype Claims = Claims(
    exp: Option<int>,
    nbf: Option<int>,
    iat: Option<int>,
    iss: string,
    sub: string,
    aud: seq<string>,
    jti: string,
    present: set<string>)

  datatype Options = Options(
    leeway: int,
    expirationRequired: bool,
    notBeforeRequired: bool,
    issuedAt: bool,
    issuer: string,
    subject: string,
    tokenType: string,
    requiredClaims: seq<string>,
    audiences: seq<string>,
    checksRevocation: bool)

  datatype Error =
    | TokenExpired
    | TokenInvalid
    | TokenTypeInvalid
    | ClaimMissing(name: string)
    | TokenRevoked
    | KeyError(code: int) // whatever the key resolver reported, unwrapped

  /** The registered-claim failures golang-jwt collects before reporting. */
  datatype Failure = PastExpiry | NotYetValid | IssuedLater | Missing | WrongIssuer | WrongSubject

  predicate Within(o: Options, c: Claims, now: int) {
    && (c.exp.Some? ==> now < c.exp.value + o.leeway)
    && (c.nbf.Some? ==> c.nbf.value - o.leeway <= now)
    && (o.issuedAt && c.iat.Some? ==> c.iat.value - o.leeway <= now)
  }

  function Failures(o: Options, c: Claims, now: int): set<Failure> {
    (if c.exp.Some? && !(now < c.exp.value + o.leeway) then {PastExpiry} else {})
    + (if c.exp.None? && o.expirationRequired then {Missing} else {})
    + (if c.nbf.Some? && now < c.nbf.value - o.leeway then {NotYetValid} else {})
    + (if c.nbf.None? && o.notBeforeRequired then {Missing} else {})
    + (if o.issuedAt && c.iat.Some? && now < c.iat.value - o.leeway then {IssuedLater} else {})
    + (if o.issuer != "" && c.iss == "" then {Missing} else {})
    + (if o.issuer != "" && c.iss != "" && c.iss != o.issuer then {WrongIssuer} else {})
    + (if o.subject != "" && c.sub == "" then {Missing} else {})
    + (if o.subject != "" && c.sub != "" && c.sub != o.subject then {WrongSubject} else {})
  }

  /** A set of failures is reported as expired as soon as expiry is among them. */
  function Report(f: set<Failure>): Option<Error> {
    if f == {} then None else if PastExpiry in f then Some(TokenExpired) else Some(TokenInvalid)
  }

  /** The first required claim that is absent or null. */
  function FirstMissing(required: seq<string>, present: set<string>): Option<string> {
    if required == [] then None
    else if required[0] !in present then Some(required[0])
    else FirstMissing(required[1..], present)
  }

  function ExtraError(o: Options, c: Claims, revoked: bool): Option<Error> {
    if FirstMissing(o.requiredClaims, c.present).Some? then
      Some(ClaimMissing(FirstMissing(o.requiredClaims, c.present).value))
    else if o.audiences != [] && (forall a :: a in c.aud ==> a !in o.audiences) then Some(TokenInvalid)
    else if o.checksRevocation && c.jti != "" && revoked then Some(TokenRevoked)
    else None
  }

  method AudienceMatches(tokenAud: seq<string>, accepted: seq<string>) returns (r: bool)
    ensures r <==> exists a :: a in tokenAud && a in accepted
  {
    for i := 0 to |tokenAud|
      invariant forall a :: a in tokenAud[..i] ==> a !in accepted
    {
      if tokenAud[i] in accepted {
        return true;
      }
    }
    assert tokenAud[..|tokenAud|] == tokenAud;
    return false;
  }

  /** The checks layered on top of golang-jwt; revoked is the denylist's answer. */
  method ValidateExtraClaims(o: Options, c: Claims, revoked: bool) returns (e: Option<Error>)
    ensures e == ExtraError(o, c, revoked)
  {
    for i := 0 to |o.requiredClaims|
      invariant FirstMissing(o.requiredClaims, c.present) == FirstMissing(o.requiredClaims[i..], c.present)
    {
      if o.requiredClaims[i] !in c.present {
        return Some(ClaimMissing(o.requiredClaims[i]));
      }
      assert o.requiredClaims[i..][1..] == o.requiredClaims[i + 1..];
    }
    var matches := AudienceMatches(c.aud, o.audiences);
    if |o.audiences| > 0 && !matches {
      return Some(TokenInvalid);
    }
    if o.checksRevocation && c.jti != "" && revoked {
      return Some(TokenRevoked);
    }
    return None;
  }

  lemma {:induction false} FirstMissingIsFirst(required: seq<string>, present: set<string>)
    ensures FirstMissing(required, present).None? <==> forall n :: n in required ==> n in present
    ensures FirstMissing(required, present).Some? ==>
              exists i :: 0 <= i < |required| && required[i] == FirstMissing(required, present).value
                && required[i] !in present
                          && forall j :: 0 <= j < i ==> required[j] in present
  {
    if required != [] && required[0] in present {
      FirstMissingIsFirst(required[1..], present);
      if FirstMissing(required[1..], present).Some? {
        var i :| 0 <= i < |required[1..]| && required[1..][i] == FirstMissing(required[1..], present).value
          && required[1..][i] !in present
                 && forall j :: 0 <= j < i ==> required[1..][j] in present;
        assert forall j :: 0 <= j < i + 1 ==> required[j] in present by {
          assert forall j :: 0 < j < i + 1 ==> required[j] == required[1..][j - 1];
        }
        assert required[i + 1] == FirstMissing(required, present).value;
      }
    }
  }

  /** ValidateClaims: registered claims at clock value now, then the extra checks. */
  function ValidateClaims(o: Options, c: Claims, now: int, revoked: bool): Option<Error> {
    match Report(Failures(o, c, now))
    case Some(e) => Some(e)
    case None => ExtraError(o, c, revoked)
  }

  /** typ values are media types: an optional "application/" prefix, in any case. `lower` is
      strings.ToLower. */
  function NormalType(lower: string -> string, s: string): string {
    var l := lower(s);
    if "application/" <= l then l[|"application/"|..] else l
  }

  predicate TypeMatches(lower: string -> string, got: string, want: string) {
    NormalType(lower, got) == NormalType(lower, want)
  }

  /** An "application/" prefix on either side does not matter; nothing else is forgiven. */
  lemma TypePrefixIgnored(lower: string -> string, got: string, want: string)
    ensures
      var prefix, a, b := "application/", lower(got), lower(want);
      TypeMatches(lower, got, want) <==>
        a == b || (a == prefix + b && !(prefix <= b)) || (b == prefix + a && !(prefix <= a))
  {
    var prefix, a, b := "application/", lower(got), lower(want);
    assert prefix <= a ==> a == prefix + a[|prefix|..];
    assert prefix <= b ==> b == prefix + b[|prefix|..];
  }

  /** signature is the outcome of parsing and signature verification. */
  function VerifyWithHeader(
      lower: string -> string, o: Options, signature: Result<(Claims, Header), Error>, now: int, revoked: bool)
      : Result<(Claims, Header), Error>
  {
    match signature
    case Err(e) => Err(e)
    case Ok((c, h)) =>
      match Report(Failures(o, c, now))
      case Some(e) => Err(e)
      case None =>
        if o.tokenType != "" && !TypeMatches(lower, h.typ, o.tokenType) then Err(TokenTypeInvalid)
        else
          match ExtraError(o, c, revoked)
          case Some(e) => Err(e)
          case None => Ok((c, h))
  }

  /** VerifyWithHeader accepts exactly what VerifySignature followed by
      ValidateClaims accepts, given the typ header check. */
  lemma SplitPipelineAgrees(
      lower: string -> string, o: Options, signature: Result<(Claims, Header), Error>, now: int, revoked: bool)
    ensures
      var r := VerifyWithHeader(lower, o, signature, now, revoked);
      && (r.Ok? <==>
            && signature.Ok?
            && ValidateClaims(o, signature.value.0, now, revoked).None?
            && (o.tokenType != "" ==> TypeMatches(lower, signature.value.1.typ, o.tokenType)))
      && (r.Ok? ==> r == signature)
  {
  }

  /** What the verifier demands of claims, field by field. */
  predicate Acceptable(o: Options, c: Claims, now: int, revoked: bool) {
    && Within(o, c, now)
    && (o.expirationRequired ==> c.exp.Some?)
    && (o.notBeforeRequired ==> c.nbf.Some?)
    && (o.issuer != "" ==> c.iss == o.issuer)
    && (o.subject != "" ==> c.sub == o.subject)
    && (forall n :: n in o.requiredClaims ==> n in c.present)
    && (o.audiences != [] ==> exists a :: a in c.aud && a in o.audiences)
    && (o.checksRevocation && c.jti != "" ==> !revoked)
  }

  /** Claims are accepted exactly when they meet every demand. */
  lemma AcceptedClaims(o: Options, c: Claims, now: int, revoked: bool)
    ensures ValidateClaims(o, c, now, revoked).None? <==> Acceptable(o, c, now, revoked)
  {
    FirstMissingIsFirst(o.requiredClaims, c.present);
    FailuresMeaning(o, c, now);
  }

  /** The registered claims are in order. */
  predicate RegisteredFine(o: Options, c: Claims, now: int) {
    && Within(o, c, now)
    && (o.expirationRequired ==> c.exp.Some?)
    && (o.notBeforeRequired ==> c.nbf.Some?)
    && (o.issuer != "" ==> c.iss == o.issuer)
    && (o.subject != "" ==> c.sub == o.subject)
  }

  lemma FailuresMeaning(o: Options, c: Claims, now: int)
    ensures Failures(o, c, now) == {} <==> RegisteredFine(o, c, now)
    ensures PastExpiry in Failures(o, c, now) <==> c.exp.Some? && c.exp.value + o.leeway <= now
  {
    var f := Failures(o, c, now);
    if f == {} {
      assert PastExpiry !in f && Missing !in f && NotYetValid !in f && IssuedLater !in f && WrongIssuer !in f
        && WrongSubject !in f;
    } else {
      var x :| x in f;
    }
  }

  /** A refusal names its reason: expiry before any other fault of the registered claims, those
      before the type, that before the first missing claim, that before the audience, and
      revocation last. */
  lemma RefusalReason(
      lower: string -> string, o: Options, c: Claims, h: Header, now: int, revoked: bool)
    ensures
      var r := VerifyWithHeader(lower, o, Ok((c, h)), now, revoked);
      if c.exp.Some? && c.exp.value + o.leeway <= now then r == Err(TokenExpired)
      else if !RegisteredFine(o, c, now) then r == Err(TokenInvalid)
      else if o.tokenType != "" && !TypeMatches(lower, h.typ, o.tokenType) then r == Err(TokenTypeInvalid)
      else if exists n :: n in o.requiredClaims && n !in c.present then
        r.Err? && r.error.ClaimMissing? && r.error.name in o.requiredClaims && r.error.name !in c.present
      else if o.audiences != [] && (forall a :: a in c.aud ==> a !in o.audiences) then r == Err(TokenInvalid)
      else if o.checksRevocation && c.jti != "" && revoked then r == Err(TokenRevoked)
      else r == Ok((c, h))
  {
    FailuresMeaning(o, c, now);
    FirstMissingIsFirst(o.requiredClaims, c.present);
  }

  /** An expired token is reported as expired whatever else is wrong with its claims. */
  lemma ExpiryReported(lower: string -> string, o: Options, c: Claims, h: Header, now: int, revoked: bool)
    requires c.exp.Some? && c.exp.value + o.leeway <= now
    ensures ValidateClaims(o, c, now, revoked) == Some(TokenExpired)
    ensures VerifyWithHeader(lower, o, Ok((c, h)), now, revoked) == Err(TokenExpired)
  {
    assert PastExpiry in Failures(o, c, now);
  }

  /** The token would be accepted were it neither expired nor revoked. */
  ghost predicate OtherwiseAcceptable(o: Options, c: Claims, now: int) {
    ValidateClaims(o.(expirationRequired := false), c.(exp := None), now, false).None?
  }

  /** IsRevoked's answer after the operations of log, sweeps included. */
  predicate Answer(log: seq<D.Event>, jti: string, asked: int) {
    D.Denied(D.Replay(log), jti, asked)
  }

  /**
   Revocation until exp plus the largest leeway, seen by a verifier with that
   leeway or less. One verification reads the clock twice: at checked for the
   temporal claims, and at asked, inside the denylist, for the revocation. The
   token gets through exactly when exp + leeway lies between the two reads, i.e.
   the temporal check still ran before it and the denylist had already let go.
   */
  lemma {:induction false} ReadmissionWindow(
      o: Options, c: Claims, largest: int, log: seq<D.Event>, i: nat, checked: int, asked: int)
    requires c.exp.Some? && c.jti != "" && o.checksRevocation && o.leeway <= largest
    requires i < |log| && log[i].RevokedUntil? && log[i].key == c.jti && log[i].expiry == c.exp.value + largest
    requires log[i].expiry > log[i].checked
    requires D.UndisturbedAfter(log, i, c.jti) && D.SweptBy(log, asked)
    requires forall j :: i < j < |log| && log[j].Revoked? ==> log[j].key != c.jti
    requires checked <= asked
    requires OtherwiseAcceptable(o, c, checked)
    ensures ValidateClaims(o, c, checked, Answer(log, c.jti, asked)).None?
            <==> (checked < c.exp.value + o.leeway && c.exp.value + largest <= asked
                  && c.exp.value + largest != D.ZERO_TIME)
  {
    D.AnswersFromHistory(log, c.jti, asked);
    D.BoundedRevocationEnds(log, i, c.jti, asked);
    AcceptedClaims(o, c, checked, Answer(log, c.jti, asked));
    AcceptedClaims(o.(expirationRequired := false), c.(exp := None), checked, false);
  }

  /** So when the two reads are no further apart than the revocation's margin
      over the verifier's leeway, in particular when the clock did not move
      between them, the token is never accepted again: it is revoked before
      exp + leeway and expired from then on. Later permanent revocations of the
      same identifier do not weaken this. */
  lemma {:induction false} NoReadmission(
      o: Options, c: Claims, largest: int, log: seq<D.Event>, i: nat, checked: int, asked: int)
    requires c.exp.Some? && c.jti != "" && o.checksRevocation && o.leeway <= largest
    requires i < |log| && log[i].RevokedUntil? && log[i].key == c.jti && log[i].expiry == c.exp.value + largest
    requires log[i].expiry > log[i].checked
    requires D.UndisturbedAfter(log, i, c.jti) && D.SweptBy(log, asked)
    requires checked <= asked <= checked + (largest - o.leeway)
    ensures ValidateClaims(o, c, checked, Answer(log, c.jti, asked)).Some?
    ensures checked < c.exp.value + o.leeway ==> Answer(log, c.jti, asked)
    ensures c.exp.value + o.leeway <= checked ==>
              ValidateClaims(o, c, checked, Answer(log, c.jti, asked)) == Some(TokenExpired)
  {
    D.AnswersFromHistory(log, c.jti, asked);
    AcceptedClaims(o, c, checked, Answer(log, c.jti, asked));
    if checked < c.exp.value + o.leeway {
      D.BoundedRevocationHolds(log, i, c.jti, asked);
    } else {
      ExpiryReported((s: string) => s, o, c, Header("", "", ""), checked, Answer(log, c.jti, asked));
    }
  }

  /** The window is real: revoked until exp + leeway, the token still verifies
      when the clock passes that instant between the two reads. */
  lemma {:induction false} WindowExample()
    ensures
      var o := Options(30, true, false, false, "", "", "", [], [], true);
      var c := Claims(Some(1000), None, None, "", "", [], "t1", {});
      var log := [D.RevokedUntil("t1", 1030, 500, 500)];
      ValidateClaims(o, c, 1029, Answer(log, "t1", 1030)).None?
  {
    var o := Options(30, true, false, false, "", "", "", [], [], true);
    var c := Claims(Some(1000), None, None, "", "", [], "t1", {});
    var log := [D.RevokedUntil("t1", 1030, 500, 500)];
    ReadmissionWindow(o, c, 30, log, 0, 1029, 1030);
  }
}
