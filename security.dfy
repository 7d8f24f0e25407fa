/**
 * Password hashing and signed access tokens. The hasher and the token codec
 * are foreign code (a bcrypt context, an HS256 JWT library): they are
 * parameters here, and what the model relies on from them is stated as
 * predicates that lemmas take as hypotheses.
 */
module Security {

  import opened Wrappers

  /** A JSON value a token can carry: text, or an integer such as `exp`. */
  datatype ClaimValue = Text(text: string) | Number(number: int)

  /** A token's payload. */
  type Claims = map<string, ClaimValue>

  /**
   * The foreign primitives. `decode(token, now)` is None where the library
   * raises (bad signature, malformed, expired at `now`).
   */
  datatype Crypto = Crypto(
    hash: string -> string,
    verify: (string, string) -> bool,
    encode: Claims -> string,
    decode: (string, int) -> Option<Claims>)

  /** The default lifetime of an access token, in minutes. */
  const AccessTokenExpireMinutes := 60

  /**
   * The payload `create_access_token` signs: a copy of `data` with `exp` set
   * to `now` plus the lifetime. A lifetime that is absent or zero (a zero
   * timedelta is falsy) falls back to the default. Times are in seconds.
   */
  function AccessClaims(data: Claims, expiresDelta: Option<int>, now: int): (r: Claims)
    ensures r.Keys == data.Keys + {"exp"}
    ensures forall k :: k in data && k != "exp" ==> r[k] == data[k]
    ensures expiresDelta.Some? && expiresDelta.value != 0 ==> r["exp"] == Number(now + expiresDelta.value)
    ensures expiresDelta.None? || expiresDelta == Some(0) ==> r["exp"] == Number(now + AccessTokenExpireMinutes * 60)
  {
    var lifetime := match expiresDelta
      case Some(delta) => if delta != 0 then delta else AccessTokenExpireMinutes * 60
      case None => AccessTokenExpireMinutes * 60;
    data["exp" := Number(now + lifetime)]
  }

  /** `create_access_token`: the signed encoding of `AccessClaims`. */
  function CreateAccessToken(data: Claims, expiresDelta: Option<int>, now: int, crypto: Crypto): string
  {
    crypto.encode(AccessClaims(data, expiresDelta, now))
  }

  /** The hasher accepts the password a digest was made from. */
  ghost predicate VerifiesOwnHashes(crypto: Crypto) {
    forall password :: crypto.verify(password, crypto.hash(password))
  }

  /**
   * The token library, for payloads of the shape this program signs (a text
   * `sub` and an integer `exp`, nothing else), hands back the payload it
   * signed while `exp` lies in the future, and rejects the token from `exp` on.
   */
  ghost predicate JwtContract(crypto: Crypto) {
    forall claims: Claims, now: int ::
      claims.Keys == {"sub", "exp"} && claims["sub"].Text? && claims["exp"].Number? ==>
        crypto.decode(crypto.encode(claims), now) ==
          (if now < claims["exp"].number then Some(claims) else None)
  }
}
