/** The hub's request handlers: who the current user is (API token first, then
    the hub cookie), the login cookies, starting and stopping a user's server,
    error pages, and the `/user/<name>` handler that ties them together. */
module Handlers {
  import opened Wrappers
  import opened Text
  import opened Orm

  //---------------------------------------------------------------
  // the Authorization header
  //---------------------------------------------------------------

  /** `$` in a Python pattern matches at the end of the text and also just before
      one final newline; matching the rest against the stripped text covers both. */
  function StripFinalNewline(h: string): string {
    if |h| > 0 && h[|h| - 1] == '\n' then h[..|h| - 1] else h
  }

  /** The length of the run of whitespace that `s` starts with. */
  function LeadingSpace(s: string): (k: nat)
    ensures k <= |s| && AllSpace(s[..k])
    ensures k < |s| ==> !IsSpace(s[k])
  {
    if s == [] || !IsSpace(s[0]) then 0
    else
      var k := 1 + LeadingSpace(s[1..]);
      assert s[..k] == [s[0]] + s[1..][..k - 1];
      k
  }

  /** The token the header pattern `^token\s+([^\s]+)$` captures, if it matches. */
  function ParseAuthHeader(header: string): (r: Option<string>)
    ensures r.Some? ==> r.value != [] && NoSpace(r.value) && |r.value| + 6 <= |header|
  {
    var body := StripFinalNewline(header);
    if !StartsWith(body, "token") then None
    else
      var rest := body[5..];
      var k := LeadingSpace(rest);
      if k == 0 || k == |rest| || !NoSpace(rest[k..]) then None else Some(rest[k..])
  }

  /** What the header pattern accepts, read off the pattern: `token`, some
      whitespace, one run of non-whitespace, then the end or a final newline. */
  ghost predicate MatchesAuthPattern(header: string, token: string) {
    exists ws :: |ws| > 0 && AllSpace(ws) && token != [] && NoSpace(token)
      && (header == "token" + ws + token || header == "token" + ws + token + "\n")
  }

  /** Whitespace followed by a token that starts with a non-space: the run of
      leading whitespace is exactly the whitespace. */
  lemma LeadingSpaceOf(ws: string, token: string)
    requires AllSpace(ws) && token != [] && !IsSpace(token[0])
    ensures LeadingSpace(ws + token) == |ws|
  {
    var rest := ws + token;
    var k := LeadingSpace(rest);
    assert forall i :: 0 <= i < |ws| ==> IsSpace(rest[i]) by {
      assert forall i :: 0 <= i < |ws| ==> rest[i] == ws[i];
    }
    assert !IsSpace(rest[|ws|]) by {
      assert rest[|ws|] == token[0];
    }
    assert forall i :: 0 <= i < k ==> IsSpace(rest[i]) by {
      assert forall i :: 0 <= i < k ==> rest[..k][i] == rest[i];
    }
  }

  /** Every header of the accepted shape yields exactly its token. */
  lemma AuthHeaderComplete(ws: string, token: string, finalNewline: bool)
    requires |ws| > 0 && AllSpace(ws) && token != [] && NoSpace(token)
    ensures ParseAuthHeader("token" + ws + token + (if finalNewline then "\n" else "")) == Some(token)
  {
    var core := "token" + ws + token;
    var header := core + (if finalNewline then "\n" else "");
    assert core[|core| - 1] == token[|token| - 1];
    assert StripFinalNewline(header) == core;
    assert core[..5] == "token";
    var rest := core[5..];
    assert rest == ws + token;
    LeadingSpaceOf(ws, token);
    assert rest[|ws|..] == token;
  }

  /** Whatever the parser returns, the header has the accepted shape around it. */
  lemma AuthHeaderSound(header: string)
    requires ParseAuthHeader(header).Some?
    ensures MatchesAuthPattern(header, ParseAuthHeader(header).value)
  {
    var body := StripFinalNewline(header);
    var rest := body[5..];
    var k := LeadingSpace(rest);
    var ws := rest[..k];
    var token := rest[k..];
    assert body == "token" + ws + token;
    if header != body {
      assert header == body + "\n";
    }
  }

  /** A parsed token names a user only through the API-token table; a missing
      header reads as the empty string, which does not match. */
  function UserForAuthHeader(header: Option<string>, apiTokens: map<string, string>): (u: Option<string>)
    ensures u.Some? <==> (var h := if header.Some? then header.value else "";
                          ParseAuthHeader(h).Some? && ParseAuthHeader(h).value in apiTokens)
    ensures u.Some? ==> u.value == apiTokens[ParseAuthHeader(header.value).value]
    ensures header.None? ==> u.None?
  {
    var h := if header.Some? then header.value else "";
    match ParseAuthHeader(h)
    case None => None
    case Some(token) => if token in apiTokens then Some(apiTokens[token]) else None
  }

  //---------------------------------------------------------------
  // the hub cookie
  //---------------------------------------------------------------

  /** The hub cookie of the request names a user when it is present, non-empty
      and a known cookie token. */
  function CookieUser(requestCookies: map<string, string>, cookieName: string, cookieTokens: map<string, string>): (u: Option<string>)
    ensures u.Some? <==> cookieName in requestCookies && requestCookies[cookieName] != ""
                         && requestCookies[cookieName] in cookieTokens
    ensures u.Some? ==> u.value == cookieTokens[requestCookies[cookieName]]
  {
    if cookieName in requestCookies && requestCookies[cookieName] != "" && requestCookies[cookieName] in cookieTokens
    then Some(cookieTokens[requestCookies[cookieName]])
    else None
  }

  /** The request carries a hub cookie that is not a known token. */
  predicate StaleCookie(requestCookies: map<string, string>, cookieName: string, cookieTokens: map<string, string>) {
    cookieName in requestCookies && requestCookies[cookieName] != "" && requestCookies[cookieName] !in cookieTokens
  }

  //---------------------------------------------------------------
  // error pages
  //---------------------------------------------------------------

  /** The reason phrases of Python 3.4's `http.client.responses`. */
  const HttpResponses: map<int, string> := map[
    100 := "Continue", 101 := "Switching Protocols",
    200 := "OK", 201 := "Created", 202 := "Accepted", 203 := "Non-Authoritative Information",
    204 := "No Content", 205 := "Reset Content", 206 := "Partial Content",
    300 := "Multiple Choices", 301 := "Moved Permanently", 302 := "Found", 303 := "See Other",
    304 := "Not Modified", 305 := "Use Proxy", 306 := "(Unused)", 307 := "Temporary Redirect",
    400 := "Bad Request", 401 := "Unauthorized", 402 := "Payment Required", 403 := "Forbidden",
    404 := "Not Found", 405 := "Method Not Allowed", 406 := "Not Acceptable",
    407 := "Proxy Authentication Required", 408 := "Request Timeout", 409 := "Conflict",
    410 := "Gone", 411 := "Length Required", 412 := "Precondition Failed",
    413 := "Request Entity Too Large", 414 := "Request-URI Too Long",
    415 := "Unsupported Media Type", 416 := "Requested Range Not Satisfiable",
    417 := "Expectation Failed", 428 := "Precondition Required", 429 := "Too Many Requests",
    431 := "Request Header Fields Too Large",
    500 := "Internal Server Error", 501 := "Not Implemented", 502 := "Bad Gateway",
    503 := "Service Unavailable", 504 := "Gateway Timeout", 505 := "HTTP Version Not Supported",
    511 := "Network Authentication Required"]

  /** The exception behind an error: its `reason` attribute (empty when it has
      none) and `log_message % args`, or None when that formatting raises. */
  datatype ExceptionInfo = ExceptionInfo(reason: string, formattedMessage: Option<string>)

  /** The namespace handed to the error template, and the template chosen. */
  datatype ErrorPage = ErrorPage(
    statusCode: int,
    statusMessage: string,
    message: string,
    exception: Option<ExceptionInfo>,
    template: string)

  /** Rendering the error page failed before any output. */
  datatype WriteErrorFailure = UnboundException

  /** The status line's text: the exception's non-empty reason, else the
      standard phrase, else `Unknown HTTP Error`. */
  function StatusMessage(statusCode: int, exc: Option<ExceptionInfo>): (m: string)
    ensures exc.Some? && exc.value.reason != "" ==> m == exc.value.reason
    ensures (exc.None? || exc.value.reason == "") && statusCode in HttpResponses ==> m == HttpResponses[statusCode]
    ensures (exc.None? || exc.value.reason == "") && statusCode !in HttpResponses ==> m == "Unknown HTTP Error"
  {
    if exc.Some? && exc.value.reason != "" then exc.value.reason
    else if statusCode in HttpResponses then HttpResponses[statusCode]
    else "Unknown HTTP Error"
  }

  /** The page's message: the formatted log message, or empty when there is no
      exception or formatting it raises. */
  function ErrorMessage(exc: Option<ExceptionInfo>): (m: string)
    ensures m != "" ==> exc.Some? && exc.value.formattedMessage == Some(m)
    ensures exc.Some? && exc.value.formattedMessage.Some? ==> m == exc.value.formattedMessage.value
    ensures exc.None? || exc.value.formattedMessage.None? ==> m == ""
  {
    if exc.Some? && exc.value.formattedMessage.Some? then exc.value.formattedMessage.value else ""
  }

  /** `<code>.html` when that template exists, else `error.html`. */
  function ErrorTemplate(statusCode: int, templates: set<string>): (t: string)
    ensures t == DecimalString(statusCode) + ".html" || t == "error.html"
    ensures t == "error.html" ==> DecimalString(statusCode) + ".html" !in templates || DecimalString(statusCode) + ".html" == "error.html"
    ensures t != "error.html" ==> t in templates
  {
    var own := DecimalString(statusCode) + ".html";
    if own in templates then own else "error.html"
  }

  /** `write_error` as written: the namespace names `exception`, which is only
      bound when `exc_info` was given. */
  function WriteErrorAsWritten(statusCode: int, exc: Option<ExceptionInfo>, templates: set<string>): (r: Result<ErrorPage, WriteErrorFailure>)
    ensures r.Failure? <==> exc.None?
  {
    if exc.None? then Failure(UnboundException)
    else Success(ErrorPage(statusCode, StatusMessage(statusCode, exc), ErrorMessage(exc), exc,
                           ErrorTemplate(statusCode, templates)))
  }

  /** `write_error` with `exception` bound to None when there is no `exc_info`. */
  function WriteError(statusCode: int, exc: Option<ExceptionInfo>, templates: set<string>): (page: ErrorPage)
    ensures page.statusCode == statusCode && page.exception == exc
    ensures exc.Some? ==> WriteErrorAsWritten(statusCode, exc, templates) == Success(page)
  {
    ErrorPage(statusCode, StatusMessage(statusCode, exc), ErrorMessage(exc), exc,
              ErrorTemplate(statusCode, templates))
  }

  /** Without `exc_info`, the code as written fails for every status code; the
      corrected page carries the standard phrase. */
  lemma WriteErrorWithoutExcInfo(statusCode: int, templates: set<string>)
    ensures WriteErrorAsWritten(statusCode, None, templates) == Failure(UnboundException)
    ensures WriteError(statusCode, None, templates).message == ""
    ensures WriteError(statusCode, None, templates).statusMessage ==
              if statusCode in HttpResponses then HttpResponses[statusCode] else "Unknown HTTP Error"
  {
  }

  //---------------------------------------------------------------
  // login cookies
  //---------------------------------------------------------------

  /** Setting a key twice keeps only the second value. */
  lemma OverwriteKey<K, V>(m: map<K, V>, k: K, a: V, b: V)
    ensures m[k := a][k := b] == m[k := b]
  {
  }

  /** A cookie of the response: set to a value, or cleared (expired), at a path. */
  datatype Cookie = SetTo(value: string, path: string) | Cleared(path: string)

  /** The cookie-token table after a login: a token for the user's server when
      it has one, then a hub token unless the request's hub cookie is then valid.
      Every minted token belongs to `name`; no existing row changes. */
  function LoginTokens(table: map<string, string>, hasServer: bool, requestCookies: map<string, string>,
                       cookieName: string, name: string, serverToken: string, hubToken: string): (r: map<string, string>)
    requires serverToken != hubToken && serverToken !in table && hubToken !in table
    ensures forall t :: t in table ==> t in r && r[t] == table[t]
    ensures forall t :: t in r && t !in table ==> r[t] == name && (t == serverToken || t == hubToken)
    ensures serverToken in r <==> hasServer
    ensures hubToken in r <==>
              CookieUser(requestCookies, cookieName, if hasServer then table[serverToken := name] else table).None?
  {
    var withServer := if hasServer then table[serverToken := name] else table;
    if CookieUser(requestCookies, cookieName, withServer).Some? then withServer else withServer[hubToken := name]
  }

  /** Exactly the minted tokens are added to the user's cookie tokens; every
      other user's cookie tokens stay as they were. */
  lemma {:induction false} LoginTokensOwnedByUser(table: map<string, string>, hasServer: bool,
                                                  requestCookies: map<string, string>, cookieName: string,
                                                  name: string, serverToken: string, hubToken: string, other: string)
    requires serverToken != hubToken && serverToken !in table && hubToken !in table
    ensures var r := LoginTokens(table, hasServer, requestCookies, cookieName, name, serverToken, hubToken);
            TokensOf(r, other) ==
              if other == name
              then TokensOf(table, name) + (if hasServer then {serverToken} else {}) + (if hubToken in r then {hubToken} else {})
              else TokensOf(table, other)
  {
    var withServer := if hasServer then table[serverToken := name] else table;
    if hasServer {
      TokensOfAdd(table, serverToken, name, other);
    }
    if CookieUser(requestCookies, cookieName, withServer).None? {
      TokensOfAdd(withServer, hubToken, name, other);
    }
  }

  /** After a login the client holds a valid hub cookie: the one it sent, or the
      minted one, which then names the user who logged in. */
  lemma LoginLeavesValidHubCookie(table: map<string, string>, hasServer: bool, requestCookies: map<string, string>,
                                  cookieName: string, name: string, serverToken: string, hubToken: string)
    requires serverToken != hubToken && serverToken !in table && hubToken !in table && hubToken != ""
    ensures var r := LoginTokens(table, hasServer, requestCookies, cookieName, name, serverToken, hubToken);
            var next := if hubToken in r then requestCookies[cookieName := hubToken] else requestCookies;
            && CookieUser(next, cookieName, r).Some?
            && (hubToken in r ==> CookieUser(next, cookieName, r) == Some(name))
  {
  }

  /** The response cookies after a login: the server cookie set at the server's
      base URL, then the hub cookie set at the hub's base URL when minted. */
  function LoginJar(jar: map<string, Cookie>, server: Option<Server>, serverToken: string,
                    hub: Server, hubMinted: bool, hubToken: string): (r: map<string, Cookie>)
    ensures forall k :: k in r <==> k in jar || (hubMinted && k == hub.cookieName)
                                    || (server.Some? && k == server.value.cookieName)
    ensures hubMinted ==> r[hub.cookieName] == SetTo(hubToken, hub.baseUrl)
    ensures server.Some? && !(hubMinted && server.value.cookieName == hub.cookieName) ==>
              r[server.value.cookieName] == SetTo(serverToken, server.value.baseUrl)
    ensures forall k :: k in r && !(hubMinted && k == hub.cookieName) && !(server.Some? && k == server.value.cookieName) ==>
              r[k] == jar[k]
  {
    var withServer := if server.Some? then jar[server.value.cookieName := SetTo(serverToken, server.value.baseUrl)] else jar;
    if hubMinted then withServer[hub.cookieName := SetTo(hubToken, hub.baseUrl)] else withServer
  }

  /** The response cookies after a logout: the server cookie cleared at its base
      URL when there is a server, then the hub cookie cleared at the hub's. */
  function LogoutJar(jar: map<string, Cookie>, server: Option<Server>, hub: Server): (r: map<string, Cookie>)
    ensures forall k :: k in r <==> k in jar || k == hub.cookieName || (server.Some? && k == server.value.cookieName)
    ensures r[hub.cookieName] == Cleared(hub.baseUrl)
    ensures server.Some? && server.value.cookieName != hub.cookieName ==>
              r[server.value.cookieName] == Cleared(server.value.baseUrl)
    ensures forall k :: k in r && k != hub.cookieName && !(server.Some? && k == server.value.cookieName) ==>
              r[k] == jar[k]
  {
    var withServer := if server.Some? then jar[server.value.cookieName := Cleared(server.value.baseUrl)] else jar;
    withServer[hub.cookieName := Cleared(hub.baseUrl)]
  }

  /** A logout does not depend on what the hub cookie held before. */
  lemma LogoutJarOverwritesHub(jar: map<string, Cookie>, c: Cookie, server: Option<Server>, hub: Server)
    ensures LogoutJar(jar[hub.cookieName := c], server, hub) == LogoutJar(jar, server, hub)
  {
    var a := LogoutJar(jar[hub.cookieName := c], server, hub);
    var b := LogoutJar(jar, server, hub);
    assert forall k :: k in a ==> k in b && a[k] == b[k];
  }

  //---------------------------------------------------------------
  // the handler
  //---------------------------------------------------------------

  /** The route of the user-spawn handler: `/user/<name>` and anything below it. */
  const UserSpawnPattern: string := "/user/([^/]+)/?.*"

  datatype Redirect = Redirect(location: string, permanent: bool)

  datatype HandlerError = MissingSetting(key: string)

  /** One request to the hub: the request's header, cookies and path are fixed;
      the response's cookies and redirect, and the database, change. */
  class BaseHandler {
    const db: HubDb
    const settings: map<string, string>
    const hub: Server
    const join: UrlPathJoin
    const urlConcat: UrlConcat
    const authHeader: Option<string>
    const requestCookies: map<string, string>
    const requestPath: string
    var cookies: map<string, Cookie>
    var redirect: Option<Redirect>

    constructor (db: HubDb, settings: map<string, string>, hub: Server, join: UrlPathJoin, urlConcat: UrlConcat,
                 authHeader: Option<string>, requestCookies: map<string, string>, requestPath: string)
      ensures this.db == db && this.settings == settings && this.hub == hub && this.join == join
      ensures this.urlConcat == urlConcat && this.authHeader == authHeader
      ensures this.requestCookies == requestCookies && this.requestPath == requestPath
      ensures cookies == map[] && redirect == None
    {
      this.db, this.settings, this.hub, this.join, this.urlConcat := db, settings, hub, join, urlConcat;
      this.authHeader, this.requestCookies, this.requestPath := authHeader, requestCookies, requestPath;
      cookies, redirect := map[], None;
    }

    /** The `base_url` setting, `/` when absent. */
    function BaseUrl(): (b: string)
      ensures "base_url" in settings ==> b == settings["base_url"]
      ensures "base_url" !in settings ==> b == "/"
    {
      if "base_url" in settings then settings["base_url"] else "/"
    }

    /** The user named by the Authorization header, if any. */
    function CurrentUserToken(): (u: Option<string>)
      requires db.Valid()
      reads db
      ensures u == UserForAuthHeader(authHeader, db.apiTokens)
      ensures u.Some? ==> u.value in db.users
    {
      UserForAuthHeader(authHeader, db.apiTokens)
    }

    /** Who the request is from: the API-token user, else the hub-cookie user. */
    function CurrentUserName(): (u: Option<string>)
      requires db.Valid()
      reads db
      ensures u.Some? ==> u.value in db.users
      ensures u.Some? <==> UserForAuthHeader(authHeader, db.apiTokens).Some?
                           || CookieUser(requestCookies, hub.cookieName, db.cookieTokens).Some?
      ensures UserForAuthHeader(authHeader, db.apiTokens).Some? ==> u == UserForAuthHeader(authHeader, db.apiTokens)
      ensures UserForAuthHeader(authHeader, db.apiTokens).None? ==>
                u == CookieUser(requestCookies, hub.cookieName, db.cookieTokens)
    {
      if CurrentUserToken().Some? then CurrentUserToken()
      else CookieUser(requestCookies, hub.cookieName, db.cookieTokens)
    }

    /** The server of the current user, if there is one. */
    function CurrentServer(): Option<Server>
      requires db.Valid()
      reads db
    {
      var u := CurrentUserName();
      if u.Some? then db.users[u.value].server else None
    }

    /** The user named by the hub cookie; a stale hub cookie is cleared at the
        hub's base URL. */
    method CurrentUserCookie() returns (u: Option<string>)
      requires db.Valid()
      modifies this`cookies
      ensures u == CookieUser(requestCookies, hub.cookieName, db.cookieTokens)
      ensures u.Some? ==> u.value in db.users
      ensures cookies == if StaleCookie(requestCookies, hub.cookieName, db.cookieTokens)
                         then old(cookies)[hub.cookieName := Cleared(hub.baseUrl)]
                         else old(cookies)
    {
      var token := if hub.cookieName in requestCookies then requestCookies[hub.cookieName] else "";
      if token != "" {
        if token in db.cookieTokens {
          u := Some(db.cookieTokens[token]);
        } else {
          cookies := cookies[hub.cookieName := Cleared(hub.baseUrl)];
          u := None;
        }
      } else {
        u := None;
      }
    }

    /** The current user: the API-token user when there is one, the cookie user
        otherwise; the cookie is not looked at when the token names a user. */
    method CurrentUser() returns (u: Option<string>)
      requires db.Valid()
      modifies this`cookies
      ensures u == CurrentUserName() && (u.Some? ==> u.value in db.users)
      ensures CurrentUserToken().Some? ==> u == CurrentUserToken() && cookies == old(cookies)
      ensures CurrentUserToken().None? ==>
                u == CookieUser(requestCookies, hub.cookieName, db.cookieTokens)
                && cookies == if StaleCookie(requestCookies, hub.cookieName, db.cookieTokens)
                              then old(cookies)[hub.cookieName := Cleared(hub.baseUrl)]
                              else old(cookies)
    {
      u := CurrentUserToken();
      if u.Some? {
        return;
      }
      u := CurrentUserCookie();
    }

    /** The user of that name, if any. */
    function FindUser(name: string): (r: Option<User>)
      requires db.Valid()
      reads db
      ensures r.Some? <==> name in db.users
      ensures r.Some? ==> r.value.name == name && r.value == db.users[name]
    {
      db.FindUser(name)
    }

    /** Find-or-create: an existing user comes back unchanged; otherwise exactly
        one new user of that name is added. */
    method UserFromUsername(name: string) returns (u: User)
      requires db.Valid()
      modifies db`users
      ensures db.Valid()
      ensures u.name == name && name in db.users && db.users[name] == u
      ensures name in old(db.users) ==> u == old(db.users[name]) && db.users == old(db.users)
      ensures name !in old(db.users) ==> u == NewUser(name) && db.users == old(db.users)[name := u]
    {
      var found := FindUser(name);
      if found.None? {
        db.AddUser(name);
        u := NewUser(name);
      } else {
        u := found.value;
      }
    }

    /** Clears the current user's server cookie, when there is one, and the hub
        cookie, each at its own path. */
    method ClearLoginCookie()
      requires db.Valid()
      modifies this`cookies
      ensures cookies == LogoutJar(old(cookies), CurrentServer(), hub)
    {
      var user := CurrentUser();
      ghost var looked := cookies;
      if user.Some? && db.users[user.value].server.Some? {
        var s := db.users[user.value].server.value;
        cookies := cookies[s.cookieName := Cleared(s.baseUrl)];
      }
      cookies := cookies[hub.cookieName := Cleared(hub.baseUrl)];
      assert cookies == LogoutJar(looked, CurrentServer(), hub);
      if looked != old(cookies) {
        LogoutJarOverwritesHub(old(cookies), Cleared(hub.baseUrl), CurrentServer(), hub);
      }
    }

    /** Mints a cookie token for the user's server when it has one, and a hub
        cookie token when the request has no valid hub cookie by then; the
        cookies are set at the server's and the hub's base URLs. `serverToken`
        and `hubToken` are the fresh values. */
    method SetLoginCookie(name: string, serverToken: string, hubToken: string)
      requires db.Valid() && name in db.users
      requires serverToken != hubToken && serverToken !in db.cookieTokens && hubToken !in db.cookieTokens
      modifies this`cookies, db`cookieTokens
      ensures db.Valid()
      ensures db.cookieTokens == LoginTokens(old(db.cookieTokens), db.users[name].server.Some?, requestCookies,
                                             hub.cookieName, name, serverToken, hubToken)
      ensures cookies == LoginJar(old(cookies), db.users[name].server, serverToken, hub, hubToken in db.cookieTokens, hubToken)
    {
      var server := db.users[name].server;
      if server.Some? {
        db.NewCookieToken(name, serverToken);
        cookies := cookies[server.value.cookieName := SetTo(serverToken, server.value.baseUrl)];
      }
      ghost var withServer := cookies;
      var hubUser := CurrentUserCookie();
      if hubUser.None? {
        db.NewCookieToken(name, hubToken);
        cookies := cookies[hub.cookieName := SetTo(hubToken, hub.baseUrl)];
        OverwriteKey(withServer, hub.cookieName, Cleared(hub.baseUrl), SetTo(hubToken, hub.baseUrl));
      }
    }

    /** The server record a spawn gives the user: the hub's cookie name plus
        `-name`, the hub's cookie secret, under `base_url/user/name`. */
    function UserServer(name: string): (s: Server)
      ensures s.cookieName == hub.cookieName + "-" + name && s.cookieSecret == hub.cookieSecret
      ensures s.baseUrl == join([BaseUrl(), "user", name])
    {
      Server(hub.cookieName + "-" + name, hub.cookieSecret, join([BaseUrl(), "user", name]))
    }

    /** Starting a user's server: the new server record, one new API token handed
        to a new spawner, and the spawner's saved state. `apiToken` is the fresh
        token; `spawnedState` is what the started spawner reports. */
    method SpawnSingleUser(name: string, apiToken: string, spawnedState: map<string, string>)
      requires db.Valid() && name in db.users && apiToken !in db.apiTokens
      modifies db`users, db`apiTokens
      ensures db.Valid()
      ensures db.users == old(db.users)[name := old(db.users[name]).(server := Some(UserServer(name)),
                                                                   spawner := Some(Spawner(apiToken)),
                                                                   state := spawnedState)]
      ensures db.apiTokens == old(db.apiTokens)[apiToken := name]
      ensures db.ApiTokensOf(name) == old(db.ApiTokensOf(name)) + {apiToken}
    {
      var user := db.users[name];
      db.SetUser(user.(server := Some(UserServer(name))));
      db.NewApiToken(name, apiToken);
      user := db.users[name];
      db.SetUser(user.(spawner := Some(Spawner(apiToken))));
      user := db.users[name];
      db.SetUser(user.(state := spawnedState));
    }

    /** Stopping a user's server: nothing happens without a spawner; otherwise the
        spawner is stopped only if `pollStatus` (its poll result) says it is still
        running, and state, spawner and server are reset. */
    method StopSingleUser(name: string, pollStatus: Option<int>) returns (stopCalled: bool)
      requires db.Valid() && name in db.users
      modifies db`users
      ensures db.Valid()
      ensures old(db.users[name].spawner).None? ==> !stopCalled && db.users == old(db.users)
      ensures old(db.users[name].spawner).Some? ==>
                stopCalled == pollStatus.None?
                && db.users == old(db.users)[name := old(db.users[name]).(state := map[], spawner := None, server := None)]
    {
      var user := db.users[name];
      if user.spawner.None? {
        return false;
      }
      stopCalled := pollStatus.None?;
      db.SetUser(user.(state := map[], spawner := None, server := None));
    }

    /** Redirects a path outside the hub prefix to the same path under it. */
    method PrefixRedirectGet()
      modifies this`redirect
      ensures redirect == Some(Redirect(join([hub.baseUrl, requestPath]), false))
    {
      redirect := Some(Redirect(join([hub.baseUrl, requestPath]), false));
    }

    /** The owner's half of `GET /user/<name>`: spawn unless the spawner is
        running, mint login cookies, redirect to the user's server. */
    method ServeOwner(name: string, pollStatus: Option<int>, apiToken: string, spawnedState: map<string, string>,
                      serverToken: string, hubToken: string)
      returns (spawned: bool)
      requires db.Valid() && name in db.users
      requires apiToken !in db.apiTokens
      requires serverToken != hubToken && serverToken !in db.cookieTokens && hubToken !in db.cookieTokens
      modifies this`cookies, this`redirect, db`users, db`apiTokens, db`cookieTokens
      ensures db.Valid()
      ensures spawned <==> old(db.users[name].spawner).None? || pollStatus.Some?
      ensures spawned ==> db.users == old(db.users)[name := old(db.users[name]).(server := Some(UserServer(name)),
                                                                              spawner := Some(Spawner(apiToken)),
                                                                              state := spawnedState)]
                          && db.apiTokens == old(db.apiTokens)[apiToken := name]
      ensures !spawned ==> db.users == old(db.users) && db.apiTokens == old(db.apiTokens)
      ensures redirect == Some(Redirect(join([BaseUrl(), "user", name]), false))
      ensures db.cookieTokens == LoginTokens(old(db.cookieTokens), db.users[name].server.Some?, requestCookies,
                                             hub.cookieName, name, serverToken, hubToken)
      ensures cookies == LoginJar(old(cookies), db.users[name].server, serverToken, hub,
                                  hubToken in db.cookieTokens, hubToken)
    {
      spawned := false;
      var user := db.users[name];
      if user.spawner.Some? {
        if pollStatus.Some? {
          SpawnSingleUser(name, apiToken, spawnedState);
          spawned := true;
        }
      } else {
        SpawnSingleUser(name, apiToken, spawnedState);
        spawned := true;
      }
      SetLoginCookie(name, serverToken, hubToken);
      redirect := Some(Redirect(join([BaseUrl(), "user", name]), false));
    }

    /** Anyone else's half of `GET /user/<name>`: clear the login cookies and
        redirect to the login page with `next` set to the request path; without
        a `login_url` setting the lookup fails after the cookies are cleared. */
    method SendToLogin() returns (outcome: Outcome<HandlerError>)
      requires db.Valid()
      modifies this`cookies, this`redirect
      ensures cookies == LogoutJar(old(cookies), CurrentServer(), hub)
      ensures "login_url" in settings ==>
                outcome == Pass
                && redirect == Some(Redirect(urlConcat(settings["login_url"], [("next", requestPath)]), false))
      ensures "login_url" !in settings ==> outcome == Fail(MissingSetting("login_url")) && redirect == old(redirect)
    {
      ClearLoginCookie();
      if "login_url" in settings {
        redirect := Some(Redirect(urlConcat(settings["login_url"], [("next", requestPath)]), false));
        outcome := Pass;
      } else {
        outcome := Fail(MissingSetting("login_url"));
      }
    }

    /** `GET /user/<name>`: the logged-in owner is served by `ServeOwner`, anyone
        else by `SendToLogin`. `pollStatus` is the running spawner's poll result;
        the tokens are fresh values. */
    method UserSpawnGet(name: string, pollStatus: Option<int>, apiToken: string, spawnedState: map<string, string>,
                        serverToken: string, hubToken: string)
      returns (spawned: bool, outcome: Outcome<HandlerError>)
      requires db.Valid()
      requires apiToken !in db.apiTokens
      requires serverToken != hubToken && serverToken !in db.cookieTokens && hubToken !in db.cookieTokens
      modifies this`cookies, this`redirect, db`users, db`apiTokens, db`cookieTokens
      ensures db.Valid()
      ensures spawned <==> old(CurrentUserName()) == Some(name)
                           && (old(db.users[name].spawner).None? || pollStatus.Some?)
      ensures spawned ==> db.users == old(db.users)[name := old(db.users[name]).(server := Some(UserServer(name)),
                                                                              spawner := Some(Spawner(apiToken)),
                                                                              state := spawnedState)]
                          && db.apiTokens == old(db.apiTokens)[apiToken := name]
      ensures !spawned ==> db.users == old(db.users) && db.apiTokens == old(db.apiTokens)
      ensures old(CurrentUserName()) == Some(name) ==>
                && outcome == Pass
                && redirect == Some(Redirect(join([BaseUrl(), "user", name]), false))
                && db.cookieTokens == LoginTokens(old(db.cookieTokens), db.users[name].server.Some?, requestCookies,
                                                  hub.cookieName, name, serverToken, hubToken)
                && cookies == LoginJar(old(cookies), db.users[name].server, serverToken, hub,
                                       hubToken in db.cookieTokens, hubToken)
      ensures old(CurrentUserName()) != Some(name) ==>
                && db.cookieTokens == old(db.cookieTokens)
                && cookies == LogoutJar(old(cookies), old(CurrentServer()), hub)
                && ("login_url" in settings ==>
                      outcome == Pass
                      && redirect == Some(Redirect(urlConcat(settings["login_url"], [("next", requestPath)]), false)))
                && ("login_url" !in settings ==> outcome == Fail(MissingSetting("login_url")) && redirect == old(redirect))
    {
      var current := CurrentUser();
      if current == Some(name) {
        spawned := ServeOwner(name, pollStatus, apiToken, spawnedState, serverToken, hubToken);
        outcome := Pass;
      } else {
        spawned := false;
        ghost var looked := cookies;
        outcome := SendToLogin();
        if looked != old(cookies) {
          LogoutJarOverwritesHub(old(cookies), Cleared(hub.baseUrl), CurrentServer(), hub);
        }
      }
    }
  }
}
