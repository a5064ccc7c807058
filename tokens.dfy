/** The foreign primitives of the account routes, as abstract functions with the
    properties the routes rely on: JSON Web Tokens (jsonwebtoken), password hashes
    (bcryptjs), the six-digit one-time code (Math.random) and the Bearer header. */
module Tokens {
  import opened Wrappers
  import opened Text

  // ---------------------------------------------------------------- JWT

  /** The payload fields the routes read: the user id and the expiry (in seconds). */
  datatype Claims = Claims(id: Option<nat>, exp: Option<int>)

  /** jsonwebtoken with the server's secret. `sign(id, nowMs)` signs a
      payload holding the id with the configured lifetime, `decode` reads a payload without
      checking it, `signed` says whether the signature matches the secret. */
  datatype Jwt = Jwt(
    sign: (nat, nat) -> string,
    decode: string -> Option<Claims>,
    signed: string -> bool,
    lifetime: nat)
  {
    /** What the routes take for granted of the library: a signed token is never
        empty, carries the claims it was signed with, and expires `lifetime` seconds
        after it was issued; and since only the server holds the secret and it always
        sets an expiry, every token with a valid signature carries an `exp`. */
    ghost predicate WellBehaved() {
      && (forall id: nat, now: nat :: sign(id, now) != "" && signed(sign(id, now)))
      && (forall id: nat, now: nat :: decode(sign(id, now)) == Some(Claims(Some(id), Some(now / 1000 + lifetime))))
      && AlwaysExpires()
    }

    ghost predicate AlwaysExpires() {
      forall t :: signed(t) && decode(t).Some? ==> decode(t).value.exp.Some?
    }

    /** jwt.verify: an empty token, a bad signature or an unreadable payload fail,
        and so does a token whose `exp` is not after the current second. */
    function Verify(token: string, nowMs: nat): (r: Option<Claims>)
      ensures r.Some? ==> token != "" && signed(token) && r == decode(token)
      ensures r.Some? && r.value.exp.Some? ==> nowMs / 1000 < r.value.exp.value
      ensures (token != "" && signed(token) && decode(token).Some? &&
               (decode(token).value.exp.None? || nowMs / 1000 < decode(token).value.exp.value)) ==> r == decode(token)
    {
      if token == "" || !signed(token) then None
      else match decode(token)
        case None => None
        case Some(c) => if c.exp.Some? && nowMs / 1000 >= c.exp.value then None else Some(c)
    }
  }

  /** The default JWT_EXPIRES_IN, "7d", in seconds. */
  const DefaultLifetime: nat := 7 * 24 * 60 * 60

  /** A token that fails verification fails at every later instant too. */
  lemma VerifyFailsForever(jwt: Jwt, token: string, a: nat, b: nat)
    requires jwt.Verify(token, a).None? && a <= b
    ensures jwt.Verify(token, b).None?
  {
    if token != "" && jwt.signed(token) && jwt.decode(token).Some? {
      var c := jwt.decode(token).value;
      assert c.exp.Some? && a / 1000 >= c.exp.value;
      assert a / 1000 <= b / 1000;
    }
  }

  /** A freshly issued token verifies for its whole lifetime, names its user, and
      fails once the lifetime is over. */
  lemma FreshTokenVerifies(jwt: Jwt, id: nat, issued: nat, now: nat)
    requires jwt.WellBehaved() && issued <= now
    ensures now / 1000 < issued / 1000 + jwt.lifetime ==>
      jwt.Verify(jwt.sign(id, issued), now) == Some(Claims(Some(id), Some(issued / 1000 + jwt.lifetime)))
    ensures now / 1000 >= issued / 1000 + jwt.lifetime ==> jwt.Verify(jwt.sign(id, issued), now).None?
  {
    var t := jwt.sign(id, issued);
    assert t != "" && jwt.signed(t);
    assert jwt.decode(t) == Some(Claims(Some(id), Some(issued / 1000 + jwt.lifetime)));
  }

  // ---------------------------------------------------------------- bcrypt

  /** bcryptjs: `hash` with a salt of cost 10, and `compare`. */
  datatype Hasher = Hasher(hash: (string, nat) -> string, compare: (string, string) -> bool) {
    /** A password always matches a hash made from it. */
    ghost predicate Sound() {
      forall p, salt :: compare(p, hash(p, salt))
    }
  }

  // ---------------------------------------------------------------- OTP

  /** The six-digit one-time code: 100000 plus the random draw r (in [0, 1)) scaled
      by 900000, rounded down and printed in decimal; arithmetic is exact. */
  function GenOtpCode(r: real): (code: string)
    requires 0.0 <= r < 1.0
    ensures |code| == 6 && AllDigits(code)
    ensures 100000 <= DecimalValue(code) <= 999999
  {
    var n := OtpNumber(r);
    assert Pow10(5) == 100000 && Pow10(6) == 1000000;
    DecimalLength(n, 6);
    DecimalRoundTrip(n);
    Decimal(n)
  }

  function OtpNumber(r: real): (n: nat)
    requires 0.0 <= r < 1.0
    ensures 100000 <= n <= 999999
  {
    (100000.0 + r * 900000.0).Floor
  }

  /** Every six-digit code from 100000 to 999999 can be drawn. */
  lemma GenOtpCodeCovers(n: nat)
    requires 100000 <= n <= 999999
    ensures exists r: real :: 0.0 <= r < 1.0 && GenOtpCode(r) == Decimal(n)
  {
    var r := (n - 100000) as real / 900000.0;
    assert 100000.0 + r * 900000.0 == n as real;
    assert OtpNumber(r) == n;
    assert GenOtpCode(r) == Decimal(n);
  }

  // ---------------------------------------------------------------- Bearer

  const BearerPrefix := "Bearer "

  /** The header is present and starts with "Bearer ": case-sensitive, with exactly
      one space, as in the credentials syntax of section 2.1 of RFC 6750. */
  predicate HasBearerPrefix(header: Option<string>) {
    header.Some? && |header.value| >= |BearerPrefix| && header.value[..|BearerPrefix|] == BearerPrefix
  }

  /** The second space-separated field of the header: the characters after "Bearer " up to the next
      space, possibly empty. */
  function BearerToken(header: string): (t: string)
    requires HasBearerPrefix(Some(header))
    ensures |Split(header)| >= 2 && t == Split(header)[1]
    ensures ' ' !in t
  {
    var rest := header[|BearerPrefix|..];
    assert header == "Bearer" + " " + rest;
    SplitAfterWord("Bearer", rest);
    SplitFirstField(rest);
    UpToSpace(rest)
  }

  /** "Bearer <token>" yields the token itself, and the token is all that follows
      the prefix when it contains no space. */
  lemma BearerTokenOf(token: string)
    requires ' ' !in token
    ensures HasBearerPrefix(Some(BearerPrefix + token))
    ensures BearerToken(BearerPrefix + token) == token
  {
    var h := BearerPrefix + token;
    assert h[..|BearerPrefix|] == BearerPrefix;
    assert h[|BearerPrefix|..] == token;
    UpToSpaceWhole(token);
  }

  lemma {:induction false} UpToSpaceWhole(s: string)
    requires ' ' !in s
    ensures UpToSpace(s) == s
  {
    if |s| > 0 {
      UpToSpaceWhole(s[1..]);
    }
  }

  /** A second space after the prefix ("Bearer  x") yields the empty token. */
  lemma DoubleSpaceEmptyToken(rest: string)
    ensures HasBearerPrefix(Some(BearerPrefix + " " + rest))
    ensures BearerToken(BearerPrefix + " " + rest) == ""
  {
    var h := BearerPrefix + " " + rest;
    assert h[..|BearerPrefix|] == BearerPrefix;
    assert h[|BearerPrefix|..] == " " + rest;
  }
}
