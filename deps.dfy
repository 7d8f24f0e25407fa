/**
 * The two request dependencies of every task route: the shared API key and
 * the bearer token that names the caller.
 */
module Deps {

  import opened Wrappers
  import opened Http
  import opened Models
  import opened Security
  import opened Numerals

  /** The API key used when none is configured. */
  const DefaultApiKey := "123456"

  /** Process-wide configuration: the expected API key and the crypto primitives. */
  datatype Settings = Settings(apiKey: string, crypto: Crypto)

  /** What a request presents: the X-API-Key header and the bearer token, each possibly absent. */
  datatype Credentials = Credentials(apiKey: Option<string>, bearer: Option<string>)

  /**
   * `require_api_key`: a missing or empty header is rejected, and so is any
   * header that differs from the configured key.
   */
  function RequireApiKey(header: Option<string>, apiKey: string): (r: Result<()>)
    ensures r.Success? <==> header == Some(apiKey) && apiKey != ""
    ensures header.None? || header == Some("") ==> r == Failure(InvalidApiKey)
    ensures r.Failure? ==> r == Failure(InvalidApiKey)
  {
    if header.None? || header.value == "" || header.value != apiKey then Failure(InvalidApiKey)
    else Success(())
  }

  /** `int(payload.get("sub"))`: None where Python raises (no `sub`, or text that is not an int). */
  function SubjectId(payload: Claims): Option<int>
  {
    if "sub" !in payload then None
    else match payload["sub"]
      case Text(s) => ParseInt(s)
      case Number(n) => Some(n)
  }

  /** The guarded block of `get_current_user`: decode the token and read its subject as an id. */
  function TokenSubject(token: string, crypto: Crypto, now: int): Option<int>
  {
    match crypto.decode(token, now)
    case None => None
    case Some(payload) => SubjectId(payload)
  }

  /**
   * `get_current_user`: the user whose primary key the token's subject names.
   * Every failure of decoding or of reading the subject is the same
   * "Invalid token"; a well-formed token for an id with no row is
   * "User not found".
   */
  function CurrentUser(bearer: Option<string>, users: map<int, User>, crypto: Crypto, now: int): (r: Result<User>)
    ensures bearer.None? ==> r == Failure(NotAuthenticated)
    ensures bearer.Some? && TokenSubject(bearer.value, crypto, now).None? ==> r == Failure(InvalidToken)
    ensures bearer.Some? && TokenSubject(bearer.value, crypto, now).Some? ==>
      var id := TokenSubject(bearer.value, crypto, now).value;
      (id in users ==> r == Success(users[id])) && (id !in users ==> r == Failure(UserNotFound))
    ensures r.Success? ==> r.value in users.Values
  {
    if bearer.None? then Failure(NotAuthenticated)
    else match TokenSubject(bearer.value, crypto, now)
      case None => Failure(InvalidToken)
      case Some(id) => if id in users then Success(users[id]) else Failure(UserNotFound)
  }

  /**
   * A token signed over a `sub` of `str(id)` reads back as `id` exactly while
   * its expiry lies ahead.
   */
  lemma TokenSubjectOfIssued(id: int, expiresDelta: Option<int>, issued: int, now: int, crypto: Crypto)
    requires JwtContract(crypto)
    ensures var claims := AccessClaims(map["sub" := Text(IntToString(id))], expiresDelta, issued);
      TokenSubject(crypto.encode(claims), crypto, now) ==
        (if now < claims["exp"].number then Some(id) else None)
  {
    var claims := AccessClaims(map["sub" := Text(IntToString(id))], expiresDelta, issued);
    assert claims["sub"] == Text(IntToString(id));
    ParseIntOfIntToString(id);
  }
}
