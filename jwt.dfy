/**
 * A stand-in for jsonwebtoken. A token is kept as its decoded content; which of
 * the three secrets signed it is its `kind`. Signatures are not modelled: a token
 * verifies under one secret only if it was signed with that secret, so one kind
 * never verifies as another. Times are whole seconds.
 */
module Jwt {
  import opened Wrappers

  /** One kind per secret: ACTIVATION_SECRET_KEY, ACCESS_TOKEN and REFRESH_TOKEN. */
  datatype Kind = Activation | Access | Refresh

  /** The body of a signup request (IRegistrationBody); the password is still plaintext. */
  datatype Registration = Registration(username: string, email: string, password: string)

  /** Token payloads: the activation ticket, or `{id}` where `id` may be undefined. */
  datatype Claims =
    | ActivationClaims(user: Registration, activationCode: string)
    | IdClaims(id: Option<string>)

  /** A signed token: `ttl` is `expiresIn` in seconds, None when no expiry is set. */
  datatype Token = Token(kind: Kind, claims: Claims, issuedAt: nat, ttl: Option<nat>)

  /**
   * What a cookie or a body field holds in place of a token: nothing, the empty
   * string (a cleared cookie), a string that is not a JWT, or a signed token.
   */
  datatype TokenText = Absent | Empty | Malformed | Signed(token: Token)

  const FiveMinutes: nat := 5 * 60
  const ThreeDays: nat := 3 * 24 * 60 * 60

  const NotProvided := "jwt must be provided"
  const MalformedJwt := "jwt malformed"
  const BadSignature := "invalid signature"
  const Expired := "jwt expired"

  /** `jwt.sign(claims, secret of kind, {expiresIn: ttl})` at time `now`. */
  function Sign(kind: Kind, claims: Claims, now: nat, ttl: Option<nat>): (t: Token)
    ensures t.kind == kind && t.claims == claims && t.issuedAt == now && t.ttl == ttl
    ensures ttl.None? || ttl.value > 0 ==> Verify(Signed(t), kind, now) == Ok(claims)
    ensures forall other: Kind :: other != kind ==> Verify(Signed(t), other, now) == Err(BadSignature)
  {
    Token(kind, claims, now, ttl)
  }

  /** jsonwebtoken rejects a token once the clock reaches `iat + expiresIn`. */
  predicate Unexpired(t: Token, now: nat) {
    t.ttl.None? || now < t.issuedAt + t.ttl.value
  }

  /**
   * `jwt.verify(text, secret of kind)`: the signature is checked before the expiry;
   * every failure is thrown, so a caller never sees a falsy payload.
   */
  function Verify(text: TokenText, kind: Kind, now: nat): (r: Result<Claims, string>)
    ensures r.Ok? <==> text.Signed? && text.token.kind == kind && Unexpired(text.token, now)
    ensures r.Ok? ==> r.value == text.token.claims
    ensures r.Err? ==> r.error in {NotProvided, MalformedJwt, BadSignature, Expired}
  {
    match text
    case Absent => Err(NotProvided)
    case Empty => Err(NotProvided)
    case Malformed => Err(MalformedJwt)
    case Signed(t) =>
      if t.kind != kind then Err(BadSignature)
      else if !Unexpired(t, now) then Err(Expired)
      else Ok(t.claims)
  }

  /** `decoded.id`: undefined for an activation payload. */
  function ClaimedId(c: Claims): Option<string> {
    match c
    case IdClaims(id) => id
    case ActivationClaims(_, _) => None
  }

  /**
   * A token signed at `issued` with a `ttl` verifies under a secret exactly when
   * it is that kind's secret and, if a ttl was set, fewer than `ttl` seconds have
   * passed; it then yields the claims it was signed with.
   */
  lemma VerifySigned(kind: Kind, claims: Claims, issued: nat, ttl: Option<nat>, expected: Kind, now: nat)
    ensures var r := Verify(Signed(Sign(kind, claims, issued, ttl)), expected, now);
      && (r.Ok? <==> expected == kind && (ttl.None? || now < issued + ttl.value))
      && (r.Ok? ==> r.value == claims)
      && (expected != kind ==> r == Err(BadSignature))
  {
  }

  /** Every token of a kind other than the expected one is refused with "invalid signature". */
  lemma KindsSeparate(t: Token, expected: Kind, now: nat)
    requires t.kind != expected
    ensures Verify(Signed(t), expected, now) == Err(BadSignature)
  {
  }

  /** A token without expiry verifies at every time, however late. */
  lemma NoExpiryNeverExpires(t: Token, now: nat)
    requires t.ttl.None?
    ensures Verify(Signed(t), t.kind, now) == Ok(t.claims)
  {
  }
}
