/** The authorizations API: `GET /api/authorizations/<token>` tells a single-user
    server which user a hub cookie token belongs to. */
module ApiAuth {
  import opened Wrappers
  import opened Text
  import opened Orm

  /** The route's fixed prefix; the rest of the path is the captured token. */
  const AuthorizationsPrefix: string := "/api/authorizations/"

  /** The route of the authorizations API handler. */
  const AuthorizationsPattern: string := AuthorizationsPrefix + "([^/]+)"

  /** The JSON object `{"user": name}` written on success. */
  datatype Reply = UserReply(user: string)

  datatype HttpError = HttpError(statusCode: int)

  /** The token the route `/api/authorizations/([^/]+)` captures: the whole rest
      of the path after the prefix, one or more characters none of which is `/`. */
  function AuthorizationsToken(path: string): (r: Option<string>)
    ensures r.Some? <==> StartsWith(path, AuthorizationsPrefix) && |path| > |AuthorizationsPrefix|
                         && forall i :: |AuthorizationsPrefix| <= i < |path| ==> path[i] != '/'
    ensures r.Some? ==> path == AuthorizationsPrefix + r.value
  {
    if StartsWith(path, AuthorizationsPrefix) && |path| > |AuthorizationsPrefix|
       && forall i :: |AuthorizationsPrefix| <= i < |path| ==> path[i] != '/'
    then Some(path[|AuthorizationsPrefix|..])
    else None
  }

  /** Any non-empty token without `/` appended to the prefix is captured whole. */
  lemma AuthorizationsTokenRoundTrip(token: string)
    requires token != [] && forall i :: 0 <= i < |token| ==> token[i] != '/'
    ensures AuthorizationsToken(AuthorizationsPrefix + token) == Some(token)
  {
    var path := AuthorizationsPrefix + token;
    assert path[..|AuthorizationsPrefix|] == AuthorizationsPrefix;
    assert forall i :: |AuthorizationsPrefix| <= i < |path| ==> path[i] == token[i - |AuthorizationsPrefix|];
    assert path[|AuthorizationsPrefix|..] == token;
  }

  /** The owner of a cookie token, or 404 when it is not a cookie token. Only the
      cookie-token table and the user table are read. */
  function AuthorizationsGet(db: HubDb, token: string): (r: Result<Reply, HttpError>)
    requires db.Valid()
    reads db
    ensures r.Success? <==> token in db.cookieTokens
    ensures r.Success? ==> r.value == UserReply(db.cookieTokens[token]) && r.value.user in db.users
    ensures r.Failure? ==> r.error == HttpError(404)
  {
    if token !in db.cookieTokens then Failure(HttpError(404))
    else Success(UserReply(db.users[db.cookieTokens[token]].name))
  }

  /** An API token is no authorization: unless it is also a cookie token, the
      answer is 404. */
  lemma ApiTokenRefused(db: HubDb, token: string)
    requires db.Valid() && token in db.apiTokens && token !in db.cookieTokens
    ensures AuthorizationsGet(db, token) == Failure(HttpError(404))
  {
  }

  /** The answer depends on the user and cookie-token tables alone: two databases
      that agree on those answer alike, whatever their API tokens. */
  lemma OnlyCookieTokensConsulted(db1: HubDb, db2: HubDb, token: string)
    requires db1.Valid() && db2.Valid()
    requires db1.users == db2.users && db1.cookieTokens == db2.cookieTokens
    ensures AuthorizationsGet(db1, token) == AuthorizationsGet(db2, token)
  {
  }

  /** A request for a cookie token minted for `name` answers `name`. */
  lemma MintedTokenAuthorizes(db: HubDb, token: string, name: string)
    requires db.Valid() && token in db.cookieTokens && db.cookieTokens[token] == name
    ensures AuthorizationsGet(db, token) == Success(UserReply(name))
  {
  }
}
