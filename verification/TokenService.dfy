/** Access tokens: the claims put in when one is minted and read back by the resource server. */
module TokenService {
  import opened Wrappers

  datatype Claims = Claims(
    sub: string, email: Option<string>, clientId: string, scopes: string, exp: nat, iat: nat)

  datatype Verdict = Match | Mismatch | Unparsable

  /**
   * The service's configuration, and the library code it calls, about which nothing is assumed here:
   * password hashing and checking, the PKCE challenge of a verifier, and JWT encoding and decoding.
   */
  datatype Config = Config(
    jwtSecret: string, accessTtlSecs: int, refreshTtlDays: int,
    hashPassword: (string, string) -> Option<string>,
    verifyPassword: (string, string) -> Verdict,
    challengeOf: string -> string,
    encode: (Claims, string) -> Option<string>,
    decode: (string, string, int) -> Option<Claims>)
  {
    /** The lifetime of a refresh token in seconds. */
    function RefreshTtl(): int { refreshTtlDays * 86400 }

    /** Encoding a token never fails. */
    ghost predicate EncodeTotal() {
      forall c: Claims, s: string :: encode(c, s).Some?
    }

    /** A token that decodes under the secret it was encoded with yields the claims that were encoded. */
    ghost predicate DecodesWhatWasEncoded() {
      forall c: Claims, s: string, now: int ::
        encode(c, s).Some? && decode(encode(c, s).value, s, now).Some? ==> decode(encode(c, s).value, s, now).value == c
    }
  }

  const USIZE_MODULUS := 0x1_0000_0000_0000_0000

  /** The cast to a 64-bit `usize`, and addition that wraps around. */
  function AsUsize(i: int): nat { i % USIZE_MODULUS }

  function WrappingAdd(a: nat, b: nat): nat { (a + b) % USIZE_MODULUS }

  function AccessClaims(
    now: int, sub: string, email: Option<string>, clientId: string, scopes: string, ttlSecs: int): Claims
  {
    Claims(sub, email, clientId, scopes, WrappingAdd(AsUsize(now), AsUsize(ttlSecs)), AsUsize(now))
  }

  /** What the claims of a token say, one by one. */
  predicate Carries(
    c: Claims, now: int, sub: string, email: Option<string>, clientId: string, scopes: string, ttlSecs: int)
  {
    && c.sub == sub && c.email == email && c.clientId == clientId && c.scopes == scopes
    && c.iat == AsUsize(now) && c.exp == (AsUsize(now) + AsUsize(ttlSecs)) % USIZE_MODULUS
  }

  lemma UsizeIs64Bits(i: int)
    ensures AsUsize(i) == i % 18446744073709551616
  {
  }

  /** The expiry is the issue time plus the configured lifetime exactly when that sum is a `usize`. */
  lemma ExpiryIsIssueTimePlusTtl(
    now: int, sub: string, email: Option<string>, clientId: string, scopes: string, ttlSecs: int)
    requires 0 <= now < USIZE_MODULUS && -USIZE_MODULUS < ttlSecs < USIZE_MODULUS
    ensures
      var c := AccessClaims(now, sub, email, clientId, scopes, ttlSecs);
      c.iat == now && (c.exp == now + ttlSecs <==> 0 <= now + ttlSecs < USIZE_MODULUS)
  {
    var m := USIZE_MODULUS;
    assert AsUsize(ttlSecs) == if ttlSecs < 0 then ttlSecs + m else ttlSecs;
    var sum := now + AsUsize(ttlSecs);
    assert WrappingAdd(now, AsUsize(ttlSecs)) == if sum < m then sum else sum - m;
  }
}
