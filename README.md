# JupyterHub core, modelled in Dafny

JupyterHub runs a configurable HTTP proxy in front of a hub process. The hub
logs users in, starts one single-user notebook server per user, and routes
requests to it. This project models the hub's core rules, following the Python
code:

- **Configuration** (`app.dfy`, module `HubApp`). The hub prefix change handler:
  `/` is refused, a leading and a trailing slash are forced, and the prefix is
  joined under `base_url`. It also covers:
  - the default proxy API port and the three-port check;
  - the in-place URL prefixing of the route table and the table's order;
  - the proxy's argument list;
  - the merge of computed and configured web-server settings.
- **Request handling** (`handlers.dfy`, module `Handlers`). A `BaseHandler`
  object stands for one request. The request's header, cookies and path are
  fixed. The response's cookie jar and redirect change, and so does the
  database. It covers:
  - the `Authorization: token <t>` header;
  - who the current user is (API token first, then the hub cookie);
  - find-or-create of users;
  - minting and clearing login cookies;
  - the fields written when a single-user server starts or stops;
  - the `/user/<name>` handler;
  - the prefix redirect;
  - the status message and template of error pages.
- **The database** (`orm.dfy`, module `Orm`). A `HubDb` object holds three maps
  that the handlers update in place: name to user row, API token to owner, and
  cookie token to owner. A user's token lists are the token rows that name the
  user, as the ORM's relationships are.
- **Login-form authentication** (`auth.dfy`, module `Auth`). The base
  authenticator refuses everyone. The PAM authenticator is a whitelist gate in
  front of a PAM check.
- **The authorizations API** (`apiauth.dfy`, module `ApiAuth`). It looks up the
  owner of a cookie token, or answers 404.

Some of the code's helpers live outside these files. Each becomes a parameter
of the member that uses it, and nothing is known about it:
- `url_path_join` and Tornado's `url_concat` (`Text.UrlPathJoin`, `Text.UrlConcat`);
- `simplepam.authenticate` (`Auth.PamCheck`);
- `str.encode` (`Auth.Encoder`).

The spawner's `poll` result and saved state are parameters too. Fresh values
from `orm.new_token()` are parameters, with a precondition that they are not in
the token table yet. Where the repository's prose and its code differ, the code
is followed.

## Model

| member | source | states |
|---|---|---|
| HubApp.JupyterHubApp.constructor | jupyterhub/app.py:44-164 | The configured defaults: base URL `/`, empty public ip, public port 8000, proxy command `configurable-http-proxy`, proxy API ip and hub ip `localhost`, hub port 8081, cookie secret `b'secret!'`, no SSL key or certificate, log level INFO; the proxy API port and the hub prefix start unset (dynamic defaults) |
| HubApp.JupyterHubApp.ProxyApiPort | jupyterhub/app.py:89-93 | Unless configured, the proxy API port is the public port plus one |
| HubApp.JupyterHubApp.HubPrefix | jupyterhub/app.py:102-106 | Unless configured, the hub prefix is `/hub/` joined under the base URL |
| HubApp.JupyterHubApp.HubServer | jupyterhub/app.py:234-246 | The hub's server record: cookie name `jupyter-hub-token`, the app's cookie secret, base URL the hub prefix |
| HubApp.SlashPrefix | jupyterhub/app.py:111-115 | The intermediate value starts and ends with `/`, and is the input itself when both slashes were already there |
| HubApp.SlashPrefixKeepsValue | jupyterhub/app.py:111-115 | The slashes are only added around the value: the input appears unchanged at offset 0, or at offset 1 when a leading slash was added, and the result is longer by exactly the missing slashes, so nothing else is added |
| HubApp.NormalizeHubPrefix | jupyterhub/app.py:108-117 | The handler fails with the invalid-prefix error exactly when the new value is `/`; otherwise it yields the slashed value, joined under the base URL when it does not already start with it |
| HubApp.HubPrefixChanged | jupyterhub/app.py:108-119 | The handler with the trait's re-notification: it raises only the invalid-prefix error or the recursion limit, and the invalid-prefix error leaves `/` stored |
| HubApp.SettledPrefixIsNormal | jupyterhub/app.py:108-119 | When the handler and its nested notifications finish without error, the stored prefix is one the handler leaves unchanged |
| HubApp.JupyterHubApp.OnHubPrefixChanged | jupyterhub/app.py:108-119 | The change handler computes the prefix step by step and reassigns the trait only when the result differs; the stored prefix and the outcome are those of `HubPrefixChanged` |
| HubApp.JupyterHubApp.AnchoredPrefix | jupyterhub/app.py:109-117 | The handler's step-by-step computation (leading slash, trailing slash, join under the base URL) yields exactly the value `NormalizeHubPrefix` describes, for every value other than `/` |
| HubApp.JupyterHubApp.SetHubPrefix | jupyterhub/app.py:102-119 | Assigning the current value changes nothing and notifies nobody; another value is stored and then handled as `HubPrefixChanged` describes |
| HubApp.NormalPrefixIsFixpoint | jupyterhub/app.py:116-119 | A prefix other than `/` that already starts and ends with `/` and starts with the base URL is left in place with no error (idempotence) |
| HubApp.PrefixSettlesInOneStep | jupyterhub/app.py:111-119 | When the normalised value is itself normal, one reassignment settles the trait on it |
| HubApp.EmptyPrefixRefused | jupyterhub/app.py:108-119 | Under base URL `/`, the empty prefix is completed to `/`, the nested notification refuses it, and `/` stays stored |
| HubApp.CheckPorts | jupyterhub/app.py:195-201 | Passes exactly when the hub, public and API ports are pairwise distinct; otherwise it fails with the error of the first clashing pair in the order hub/public, hub/API, API/public, each with its own port |
| HubApp.JupyterHubApp.InitPorts | jupyterhub/app.py:195-201 | The check on the app's ports; with the default API port it passes exactly when the hub port is neither the public port nor the one above it |
| HubApp.PrefixRoutes | jupyterhub/app.py:203-210 | Keeps the length; each route keeps its handler and gets pattern `url_path_join(prefix, pattern)` |
| HubApp.AddUrlPrefix | jupyterhub/app.py:203-210 | Rewrites the array in place to the prefixed routes and returns the same array |
| HubApp.HandlerTable | jupyterhub/app.py:212-223 | The prefixed hub routes first, then the prefixed API routes, then the prefix redirect `(?!prefix).*`, then the `(.*)` 404 catch-all; two more entries than the default routes |
| HubApp.DefaultHandlerTable | jupyterhub/app.py:212-223 | With the user-spawn route and the authorizations API route as the defaults, the table is those two patterns joined under the hub prefix, then the redirect, then the 404 catch-all |
| HubApp.JupyterHubApp.InitHandlers | jupyterhub/app.py:212-223 | The app's handler list becomes that table for its hub prefix |
| HubApp.JupyterHubApp.ProxyCommand | jupyterhub/app.py:265-281 | The argument list starts with the proxy command and the fixed `--ip`, `--port`, `--api-ip`, `--api-port`, `--default-target` pairs (ports as decimal text), followed by the optional flags |
| HubApp.OptionalProxyArgs | jupyterhub/app.py:276-281 | Two arguments per optional flag that is switched on, none for the others |
| Text.NatDigits | jupyterhub/app.py:271-273 | The digits of `str()` of a non-negative port: non-empty, all decimal digits, and never a leading zero unless the number is 0 |
| Text.DecimalString | jupyterhub/app.py:271-273 | `str()` of a port: non-empty text that starts with `-` exactly for a negative number; `DecimalRoundTrip` reads it back |
| HubApp.OptionalProxyArgsReadBack | jupyterhub/app.py:276-281 | `--log-level debug` is present exactly when the level is DEBUG, `--ssl-key k` exactly when the key is non-empty, `--ssl-cert c` exactly when the certificate is non-empty, each with its value |
| Text.DecimalRoundTrip | jupyterhub/app.py:271-273 | The decimal text of a port reads back as that port, so distinct ports give distinct arguments |
| HubApp.JupyterHubApp.DefaultSettings | jupyterhub/app.py:294-308 | The computed settings: `base_url`, `login_url` as the hub prefix joined with `login`, `static_url_prefix` as the hub prefix joined with `static/` |
| HubApp.MergeSettings | jupyterhub/app.py:310-312 | The merged keys are the union; configured values take priority; the other computed values stay |
| HubApp.JupyterHubApp.InitTornadoSettings | jupyterhub/app.py:285-312 | The app's settings become the computed ones updated with the configured ones |
| Orm.HubDb.constructor | jupyterhub/tests/conftest.py:20-24 | A new in-memory database is empty and consistent |
| Orm.HubDb.FindUser | jupyterhub/handlers/base.py:99-104 | Finds the user row of that name exactly when there is one |
| Orm.HubDb.AddUser | jupyterhub/handlers/base.py:109-112 | Adds one new user row of that name, with no server, spawner, state or tokens |
| Orm.HubDb.NewCookieToken | jupyterhub/tests/test_orm.py:73-84 | Adds exactly one cookie token, owned by the user; the user's cookie tokens grow by exactly that token |
| Orm.HubDb.NewApiToken | jupyterhub/tests/test_orm.py:83-87 | Adds exactly one API token, owned by the user; the user's API tokens grow by exactly that token |
| Orm.TokenCounts | jupyterhub/tests/test_orm.py:75-88 | One user given three cookie tokens and one API token ends with three cookie tokens and one API token |
| Orm.TokensOfAdd | jupyterhub/tests/test_orm.py:73-89 | Adding a token row for one user adds that token to that user's list and leaves every other user's list as it was |
| Handlers.AuthHeaderComplete | jupyterhub/handlers/base.py:29 | Every header `token`, whitespace, one non-whitespace run, optionally one final newline, yields exactly that run |
| Handlers.AuthHeaderSound | jupyterhub/handlers/base.py:29 | Whatever token the parser yields, the header has exactly that shape around it |
| Handlers.LeadingSpace | jupyterhub/handlers/base.py:29 | The whitespace run matched by `\s+` is maximal: all whitespace, followed by a non-whitespace character or the end |
| Handlers.UserForAuthHeader | jupyterhub/handlers/base.py:67-78 | A user exactly when the header parses to a token in the API-token table, and then its owner; a missing header yields none |
| Handlers.ParseAuthHeader | jupyterhub/handlers/base.py:29 | The token captured by `^token\s+([^\s]+)$` is non-empty, free of whitespace and at least six characters shorter than the header; `AuthHeaderComplete` and `AuthHeaderSound` show it accepts exactly the pattern's matches |
| Handlers.BaseHandler.CurrentUserToken | jupyterhub/handlers/base.py:67-78 | The request's API-token user, always an existing user |
| Handlers.CookieUser | jupyterhub/handlers/base.py:80-90 | A user exactly when the hub cookie is present, non-empty and a known cookie token, and then its owner |
| Handlers.BaseHandler.CurrentUserCookie | jupyterhub/handlers/base.py:80-90 | Returns the cookie user; a present but unknown hub cookie is cleared at the hub's base URL, and nothing else in the jar changes |
| Handlers.BaseHandler.CurrentUserName | jupyterhub/handlers/base.py:92-97 | As a value: a user exactly when the API-token lookup or the hub-cookie lookup finds one; the API-token user takes precedence, and the cookie user is used only when there is none; always an existing user |
| Handlers.BaseHandler.CurrentUser | jupyterhub/handlers/base.py:92-97 | The API-token user whenever there is one, and then the cookie is not consulted and the jar is unchanged; otherwise the cookie user, with a stale hub cookie cleared |
| Handlers.BaseHandler.BaseUrl | jupyterhub/handlers/base.py:43-45 | The `base_url` setting, `/` when it is absent |
| Handlers.BaseHandler.FindUser | jupyterhub/handlers/base.py:99-104 | The user of that name exactly when one exists |
| Handlers.BaseHandler.UserFromUsername | jupyterhub/handlers/base.py:106-113 | An existing user comes back unchanged and nothing is added; otherwise exactly one new user of that name is added and returned |
| Handlers.LogoutJar | jupyterhub/handlers/base.py:115-119 | The hub cookie is cleared at the hub's base URL, the server cookie (if any) at the server's, and no other cookie changes |
| Handlers.LogoutJarOverwritesHub | jupyterhub/handlers/base.py:115-119 | A logout's jar does not depend on an earlier clearing of the stale hub cookie |
| Handlers.BaseHandler.ClearLoginCookie | jupyterhub/handlers/base.py:115-119 | The jar becomes the logout jar for the current user's server |
| Handlers.LoginTokens | jupyterhub/handlers/base.py:121-142 | A server token is minted exactly when the user has a server; a hub token exactly when the request's hub cookie is not valid after that; every minted token is owned by the user; no existing row changes |
| Handlers.LoginTokensOwnedByUser | jupyterhub/handlers/base.py:121-142 | The user's cookie tokens grow by exactly the minted tokens; every other user's stay as they were |
| Handlers.LoginLeavesValidHubCookie | jupyterhub/handlers/base.py:121-142 | After a login the client holds a valid hub cookie: the one it sent, or the minted one, which names the user who logged in |
| Handlers.LoginJar | jupyterhub/handlers/base.py:121-142 | The server cookie is set to its token at the server's base URL, the hub cookie (when minted) at the hub's, and no other cookie changes |
| Handlers.BaseHandler.SetLoginCookie | jupyterhub/handlers/base.py:121-142 | The token table becomes the login table and the jar the login jar; user rows and API tokens are untouched |
| Handlers.BaseHandler.UserServer | jupyterhub/handlers/base.py:193-197 | The spawned server's cookie name is the hub's plus `-name`, its secret the hub's, its base URL `base_url/user/name` |
| Handlers.BaseHandler.SpawnSingleUser | jupyterhub/handlers/base.py:191-218 | Only the user's row changes: new server, a spawner holding the new API token, the spawner's reported state; exactly one API token is added, owned by the user |
| Handlers.BaseHandler.StopSingleUser | jupyterhub/handlers/base.py:220-233 | Without a spawner nothing changes and stop is not called; otherwise stop is called exactly when poll says running, and state, spawner and server are reset |
| Handlers.BaseHandler.PrefixRedirectGet | jupyterhub/handlers/base.py:301-309 | A non-permanent redirect to the request path joined under the hub's base URL |
| Handlers.BaseHandler.ServeOwner | jupyterhub/handlers/base.py:318-331 | Spawns exactly when there is no spawner or poll reports it stopped, then mints login cookies and redirects to `base_url/user/name` |
| Handlers.BaseHandler.SendToLogin | jupyterhub/handlers/base.py:332-339 | Clears the login cookies, then redirects non-permanently to `login_url` with `next` set to the request path; without `login_url` it fails after clearing |
| Handlers.BaseHandler.UserSpawnGet | jupyterhub/handlers/base.py:316-339 | When the current user is the path's user: spawn-or-reuse, login cookies, redirect to the user's server; otherwise no database change, logout jar and the login redirect |
| Handlers.StatusMessage | jupyterhub/handlers/base.py:260-274 | A non-empty exception reason wins; otherwise the standard reason phrase, else `Unknown HTTP Error` |
| Handlers.ErrorMessage | jupyterhub/handlers/base.py:261-269 | The message equals the formatted log message when there is an exception whose message formats, and is empty when there is no exception or formatting raises; a non-empty message always comes from the formatter |
| Handlers.ErrorTemplate | jupyterhub/handlers/base.py:285-290 | `<code>.html` when that template exists, else `error.html` |
| Handlers.WriteErrorAsWritten | jupyterhub/handlers/base.py:258-282 | As written, rendering fails exactly when no `exc_info` is given |
| Handlers.WriteErrorWithoutExcInfo | jupyterhub/handlers/base.py:258-282 | Without `exc_info` the code as written fails for every status code; the corrected page has the standard phrase and an empty message |
| Handlers.WriteError | jupyterhub/handlers/base.py:258-292 | The corrected page carries the status code and the exception (None without one) and agrees with the code as written whenever `exc_info` is given |
| Auth.BaseAuthenticate | jupyterhub/auth.py:26-33 | The base authenticator returns None for every form |
| Auth.DefaultPamAuthenticator | jupyterhub/auth.py:18-41 | By default the whitelist is empty, the encoding `utf8`, the PAM service `login` |
| Auth.PamAuthenticate | jupyterhub/auth.py:43-57 | A missing username raises; a name outside a non-empty whitelist gets None; for an admitted name, an unencodable username, a missing password and an unencodable password raise, in that order; with both fields encoded the result is the username when PAM accepts the encoded pair under the configured service and None when it refuses; the result is exactly the username in no other case |
| Auth.WhitelistRefusesWithoutPam | jupyterhub/auth.py:49-51 | With a non-empty whitelist, a name outside it gets None whatever PAM and the encoder would do |
| Auth.EmptyWhitelistAsksPam | jupyterhub/auth.py:49-57 | With an empty whitelist, every complete encodable form is decided by PAM alone |
| Auth.MockPam | jupyterhub/tests/mocking.py:20-29 | The test stand-in accepts exactly when password and username are equal |
| Auth.MockLogin | jupyterhub/tests/mocking.py:45-48 | Under the stand-in, the default authenticator logs in a user whose password is the username, and, for an injective encoder, nobody else |
| ApiAuth.AuthorizationsToken | jupyterhub/apihandlers/auth.py:25-27 | The route captures a token exactly when the path is the prefix followed by one or more characters, none of them `/`, and the token is that rest |
| ApiAuth.AuthorizationsTokenRoundTrip | jupyterhub/apihandlers/auth.py:26 | Any non-empty token without `/` after the prefix is captured whole |
| ApiAuth.AuthorizationsGet | jupyterhub/apihandlers/auth.py:15-23 | Succeeds exactly when the token is a cookie token, answering its owner's name; otherwise 404 |
| ApiAuth.ApiTokenRefused | jupyterhub/apihandlers/auth.py:18-20 | An API token that is not also a cookie token gets 404 |
| ApiAuth.OnlyCookieTokensConsulted | jupyterhub/apihandlers/auth.py:17-23 | Two databases with the same users and cookie tokens answer alike, whatever their API tokens |
| ApiAuth.MintedTokenAuthorizes | jupyterhub/apihandlers/auth.py:18-23 | A cookie token minted for a user answers that user's name |

## Left out

- The model follows Python 3: the reason phrases are Python 3.4's `http.client.responses` table and `\s` is Unicode whitespace. Under Python 2, `httplib.responses` lacks 428, 429, 431 and 511, and a pattern compiled without `re.UNICODE` treats only ASCII whitespace as `\s`.
- Process start-up and the event loop: Tornado's server, the IOLoop, coroutine plumbing and `cleanup`. Coroutine calls are plain sequential calls.
- Starting the proxy process and copying its environment: only the argument list is modelled.
- `notify_proxy` and `notify_proxy_delete`: HTTP requests to the proxy's API.
- The SQL session: it is replaced by in-memory maps, and `commit` is implicit.
- `jupyterhub/orm.py` is not part of this model. The `Server`/`Hub`/`Proxy` defaults and URL formatting tested in `test_orm.py` come from it.
- `init_db` (the admin users): it creates ORM rows that the modelled rules do not read.
- `init_proxy`: `ProxyCommand` reads the public and API ip and port from the app's settings, which `init_proxy` copies unchanged into the proxy rows (app.py:250-261) that `start_proxy` reads. The proxy auth token only reaches the process environment, which is left out.
- `url_path_join`, `url_concat`, `simplepam.authenticate` and `str.encode` are parameters. Their behaviour is not part of this model.
- The `token_authenticated` decorator on the authorizations API: it lives in `utils`, which is not part of this model.
- The spawner's `start`, `stop` and `poll` are not modelled. `poll`'s result and `get_state`'s result are parameters, and `StopSingleUser` reports whether `stop` would be called.
- Random token generation: the fresh tokens are parameters.
- Logging, the Jinja environment, template rendering, `static_url`, the `static_path`, `template_path`, `config`, `log`, `db`, `hub`, `admin_users`, `authenticator`, `spawner_class` and `cookie_secret` settings: framework glue with no rule to state. `DefaultSettings` holds only the three URL settings.
- Cookie signing and expiry dates: Tornado handles them. A cookie is a value or a clearing, with a path.
- Tornado's URL routing beyond the authorizations route: patterns are carried as text, and only the authorizations pattern's capture is modelled. Percent-decoding of captured path arguments is Tornado's job.
- The JSON text of the authorizations reply: the reply is the record `{"user": name}`. JSON escaping is left out.
- `BaseHandler.authenticate`, which only forwards to the configured authenticator.
- HubApp.JupyterHubApp.SetHubPrefix: nested change notifications are bounded by a `depth` argument, which stands for Python's recursion limit. Running out of depth is reported as an error; Python would raise `RecursionError` (`RuntimeError` before 3.5).
- HubApp.JupyterHubApp.constructor: the default is shown as a value that has not been computed yet; the caching of a computed dynamic default is not modelled.
- Auth.PamAuthenticate: exceptions raised inside `simplepam` are not modelled, because the PAM check is a total predicate.

## Findings

| source | as written | input that shows it | evidently intended | confidence | as-written member | corrected member |
|---|---|---|---|---|---|---|
| jupyterhub/handlers/base.py:258-282 | `exception` is bound only inside `if exc_info:` but is always read when the template namespace is built | `write_error(404)` called with no `exc_info` keyword (as `send_error(404)` does); `Handlers.WriteErrorWithoutExcInfo` shows the failure for every status code | bind `exception` to None when there is no `exc_info`, and render the page with the standard reason phrase and an empty message | medium, not executed | Handlers.WriteErrorAsWritten | Handlers.WriteError |
