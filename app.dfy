/** The hub application's configuration: hub-prefix normalisation, the port
    check, the route table and its URL prefixing, the proxy's command line and
    the merged web-server settings. */
module HubApp {
  import opened Wrappers
  import opened Text
  import opened Orm
  import Handlers
  import ApiAuth

  /** Python's `logging.DEBUG` and `logging.INFO`. */
  const DEBUG: int := 10
  const INFO: int := 20

  /** The request handler classes a route can name. */
  datatype HandlerKind = UserSpawn | Authorizations | PrefixRedirect | Template404 | Other(className: string)

  /** One `(pattern, handler)` tuple of the route table. */
  datatype Route = Route(pattern: string, handler: HandlerKind)

  /** The routes declared next to the user-spawn handler and the authorizations API handler. */
  const UserSpawnRoutes: seq<Route> := [Route(Handlers.UserSpawnPattern, UserSpawn)]
  const AuthorizationsRoutes: seq<Route> := [Route(ApiAuth.AuthorizationsPattern, Authorizations)]

  /** The `TraitError`s of configuration. */
  datatype ConfigError =
    | InvalidHubPrefix              // "'/' is not a valid hub prefix"
    | RecursionLimit                // change notifications nested deeper than allowed
    | HubAndProxySamePort(port: int)
    | HubAndProxyApiSamePort(port: int)
    | ProxyPublicAndApiSamePort(port: int)

  //---------------------------------------------------------------
  // hub prefix
  //---------------------------------------------------------------

  /** `s.startswith("/")`. */
  predicate LeadingSlash(s: string) {
    |s| > 0 && s[0] == '/'
  }

  /** `s.endswith("/")`. */
  predicate TrailingSlash(s: string) {
    |s| > 0 && s[|s| - 1] == '/'
  }

  /** The first two steps of the hub-prefix handler: a leading and a trailing
      slash are added when missing, and nothing else changes. */
  function SlashPrefix(p: string): (r: string)
    ensures LeadingSlash(r) && TrailingSlash(r)
    ensures LeadingSlash(p) && TrailingSlash(p) ==> r == p
  {
    var lead := if LeadingSlash(p) then p else "/" + p;
    if TrailingSlash(lead) then lead else lead + "/"
  }

  /** The slashes are only added around the value: it appears unchanged at
      offset 0, or at offset 1 when a leading slash was added, and the result
      is longer by exactly the slashes that were missing. */
  lemma SlashPrefixKeepsValue(p: string)
    ensures var r := SlashPrefix(p);
            var i := if LeadingSlash(p) then 0 else 1;
            |r| == |p| + i + (if p != "" && !TrailingSlash(p) then 1 else 0) && r[i..i + |p|] == p
  {
    var lead := if LeadingSlash(p) then p else "/" + p;
    var i := if LeadingSlash(p) then 0 else 1;
    assert lead[i..i + |p|] == p;
  }

  /** The value the hub-prefix handler computes for `value` (without the
      reassignment): `/` is refused, the slashes are forced, and a value outside
      `baseUrl` is joined under it. */
  function NormalizeHubPrefix(value: string, baseUrl: string, join: UrlPathJoin): (r: Result<string, ConfigError>)
    ensures r.Failure? <==> value == "/"
    ensures r.Failure? ==> r.error == InvalidHubPrefix
    ensures r.Success? && StartsWith(SlashPrefix(value), baseUrl) ==> r.value == SlashPrefix(value)
    ensures r.Success? && !StartsWith(SlashPrefix(value), baseUrl) ==> r.value == join([baseUrl, SlashPrefix(value)])
  {
    if value == "/" then Failure(InvalidHubPrefix)
    else
      var s := SlashPrefix(value);
      Success(if StartsWith(s, baseUrl) then s else join([baseUrl, s]))
  }

  /** The trait's value and the outcome after the change handler runs on `value`,
      allowing `depth` nested reassignments: each reassignment stores the value
      and notifies the handler again; an exception leaves the stored value. */
  function HubPrefixChanged(value: string, baseUrl: string, join: UrlPathJoin, depth: nat): (r: (string, Outcome<ConfigError>))
    ensures r.1 == Fail(InvalidHubPrefix) ==> r.0 == "/"
    ensures r.1.Fail? ==> r.1.error == InvalidHubPrefix || r.1.error == RecursionLimit
    decreases depth
  {
    match NormalizeHubPrefix(value, baseUrl, join)
    case Failure(e) => (value, Fail(e))
    case Success(newnew) =>
      if newnew == value then (value, Pass)
      else if depth == 0 then (newnew, Fail(RecursionLimit))
      else HubPrefixChanged(newnew, baseUrl, join, depth - 1)
  }

  /** When the handler returns without error, the stored value is one the
      handler leaves as it is. */
  lemma {:induction false} SettledPrefixIsNormal(value: string, baseUrl: string, join: UrlPathJoin, depth: nat)
    ensures var r := HubPrefixChanged(value, baseUrl, join, depth);
            r.1.Pass? ==> NormalizeHubPrefix(r.0, baseUrl, join) == Success(r.0)
    decreases depth, 1
  {
    var n := NormalizeHubPrefix(value, baseUrl, join);
    if n.Success? && n.value != value && depth > 0 {
      SettledAfterReassigning(value, n.value, baseUrl, join, depth);
    } else {
      SettledWithoutReassigning(value, baseUrl, join, depth);
    }
  }

  /** The case of `SettledPrefixIsNormal` where the handler reassigns: the
      outcome is that of the nested notification. */
  lemma {:induction false} SettledAfterReassigning(value: string, newnew: string, baseUrl: string, join: UrlPathJoin, depth: nat)
    requires NormalizeHubPrefix(value, baseUrl, join) == Success(newnew) && newnew != value && depth > 0
    ensures var r := HubPrefixChanged(value, baseUrl, join, depth);
            r.1.Pass? ==> NormalizeHubPrefix(r.0, baseUrl, join) == Success(r.0)
    decreases depth, 0
  {
    HubPrefixChangedStep(value, newnew, baseUrl, join, depth);
    SettledPrefixIsNormal(newnew, baseUrl, join, depth - 1);
  }

  /** The cases of `SettledPrefixIsNormal` where the handler does not reassign. */
  lemma SettledWithoutReassigning(value: string, baseUrl: string, join: UrlPathJoin, depth: nat)
    requires var n := NormalizeHubPrefix(value, baseUrl, join);
             !(n.Success? && n.value != value && depth > 0)
    ensures var r := HubPrefixChanged(value, baseUrl, join, depth);
            r.1.Pass? ==> NormalizeHubPrefix(r.0, baseUrl, join) == Success(r.0)
  {
    var n := NormalizeHubPrefix(value, baseUrl, join);
    if n.Success? {
      HubPrefixChangedStep(value, n.value, baseUrl, join, depth);
    }
  }

  /** One notification: the handler's value is stored when it differs, and the
      stored value is handled again. */
  lemma HubPrefixChangedStep(value: string, newnew: string, baseUrl: string, join: UrlPathJoin, depth: nat)
    requires NormalizeHubPrefix(value, baseUrl, join) == Success(newnew)
    ensures HubPrefixChanged(value, baseUrl, join, depth) ==
              if newnew == value then (value, Pass)
              else if depth == 0 then (newnew, Fail(RecursionLimit))
              else HubPrefixChanged(newnew, baseUrl, join, depth - 1)
  {
  }

  /** A prefix already in normal form is left as it is. */
  lemma NormalPrefixIsFixpoint(p: string, baseUrl: string, join: UrlPathJoin, depth: nat)
    requires p != "/" && LeadingSlash(p) && TrailingSlash(p) && StartsWith(p, baseUrl)
    ensures HubPrefixChanged(p, baseUrl, join, depth) == (p, Pass)
  {
  }

  /** When the handler's value is itself normal, one reassignment settles the trait on it. */
  lemma {:induction false} PrefixSettlesInOneStep(value: string, baseUrl: string, join: UrlPathJoin, depth: nat)
    requires depth >= 1
    requires NormalizeHubPrefix(value, baseUrl, join).Success?
    requires var p := NormalizeHubPrefix(value, baseUrl, join).value;
             p != "/" && LeadingSlash(p) && TrailingSlash(p) && StartsWith(p, baseUrl)
    ensures HubPrefixChanged(value, baseUrl, join, depth) == (NormalizeHubPrefix(value, baseUrl, join).value, Pass)
  {
    var p := NormalizeHubPrefix(value, baseUrl, join).value;
    if p != value {
      NormalPrefixIsFixpoint(p, baseUrl, join, depth - 1);
    }
  }

  /** Under the default base URL the empty prefix is completed to `/`, which the
      nested notification then refuses, leaving `/` stored. */
  lemma EmptyPrefixRefused(join: UrlPathJoin, depth: nat)
    requires depth >= 1
    ensures HubPrefixChanged("", "/", join, depth) == ("/", Fail(InvalidHubPrefix))
  {
    assert SlashPrefix("") == "/";
    assert NormalizeHubPrefix("/", "/", join) == Failure(InvalidHubPrefix);
  }

  //---------------------------------------------------------------
  // ports
  //---------------------------------------------------------------

  /** The port check of start-up: the hub, the proxy's public port and the
      proxy's API port must differ, checked in that order of pairs. */
  function CheckPorts(hubPort: int, port: int, proxyApiPort: int): (r: Outcome<ConfigError>)
    ensures r.Pass? <==> hubPort != port && hubPort != proxyApiPort && proxyApiPort != port
    ensures r == Fail(HubAndProxySamePort(port)) <==> hubPort == port
    ensures r == Fail(HubAndProxyApiSamePort(hubPort)) <==> hubPort != port && hubPort == proxyApiPort
    ensures r == Fail(ProxyPublicAndApiSamePort(port)) <==>
              hubPort != port && hubPort != proxyApiPort && proxyApiPort == port
  {
    if hubPort == port then Fail(HubAndProxySamePort(port))
    else if hubPort == proxyApiPort then Fail(HubAndProxyApiSamePort(hubPort))
    else if proxyApiPort == port then Fail(ProxyPublicAndApiSamePort(port))
    else Pass
  }

  //---------------------------------------------------------------
  // routes
  //---------------------------------------------------------------

  /** Every route with its pattern joined under `prefix`; handlers untouched. */
  function PrefixRoutes(prefix: string, routes: seq<Route>, join: UrlPathJoin): (r: seq<Route>)
    ensures |r| == |routes|
    ensures forall i :: 0 <= i < |r| ==>
              r[i].handler == routes[i].handler && r[i].pattern == join([prefix, routes[i].pattern])
  {
    if routes == [] then []
    else [routes[0].(pattern := join([prefix, routes[0].pattern]))] + PrefixRoutes(prefix, routes[1..], join)
  }

  /** Rewrites each route's pattern in place and returns the same array. */
  method AddUrlPrefix(prefix: string, handlers: array<Route>, join: UrlPathJoin) returns (r: array<Route>)
    modifies handlers
    ensures r == handlers
    ensures handlers[..] == PrefixRoutes(prefix, old(handlers[..]), join)
  {
    ghost var original := handlers[..];
    for i := 0 to handlers.Length
      invariant forall k :: i <= k < handlers.Length ==> handlers[k] == original[k]
      invariant forall k :: 0 <= k < i ==>
                  handlers[k] == original[k].(pattern := join([prefix, original[k].pattern]))
    {
      var tup := handlers[i];
      handlers[i] := tup.(pattern := join([prefix, tup.pattern]));
    }
    r := handlers;
  }

  /** The hub's route table: the prefixed hub routes, the prefixed API routes,
      then the redirect for paths outside the prefix, then the 404 catch-all. */
  function HandlerTable(hubPrefix: string, hubRoutes: seq<Route>, apiRoutes: seq<Route>, join: UrlPathJoin): (r: seq<Route>)
    ensures |r| == |hubRoutes| + |apiRoutes| + 2
    ensures forall i :: 0 <= i < |hubRoutes| ==>
              r[i] == hubRoutes[i].(pattern := join([hubPrefix, hubRoutes[i].pattern]))
    ensures forall i :: 0 <= i < |apiRoutes| ==>
              r[|hubRoutes| + i] == apiRoutes[i].(pattern := join([hubPrefix, apiRoutes[i].pattern]))
    ensures r[|r| - 2] == Route("(?!" + hubPrefix + ").*", PrefixRedirect)
    ensures r[|r| - 1] == Route("(.*)", Template404)
  {
    var prefixed := PrefixRoutes(hubPrefix, hubRoutes + apiRoutes, join);
    prefixed + [Route("(?!" + hubPrefix + ").*", PrefixRedirect), Route("(.*)", Template404)]
  }

  //---------------------------------------------------------------
  // settings
  //---------------------------------------------------------------

  /** `settings.update(configured)`: the configured entries take priority. */
  function MergeSettings(defaults: map<string, string>, configured: map<string, string>): (r: map<string, string>)
    ensures r.Keys == defaults.Keys + configured.Keys
    ensures forall k :: k in configured ==> r[k] == configured[k]
    ensures forall k :: k in defaults && k !in configured ==> r[k] == defaults[k]
  {
    defaults + configured
  }

  /** Reads the value after `flag` in a list of `flag value` pairs, as the proxy
      reads its options. */
  function OptionValue(args: seq<string>, flag: string): Option<string>
    decreases |args|
  {
    if |args| < 2 then None
    else if args[0] == flag then Some(args[1])
    else OptionValue(args[2..], flag)
  }

  /** The optional tail of the proxy's argument list, in its fixed order. */
  function OptionalProxyArgs(debug: bool, sslKey: string, sslCert: string): (r: seq<string>)
    ensures |r| == (if debug then 2 else 0) + (if sslKey != "" then 2 else 0) + (if sslCert != "" then 2 else 0)
  {
    (if debug then ["--log-level", "debug"] else [])
    + (if sslKey != "" then ["--ssl-key", sslKey] else [])
    + (if sslCert != "" then ["--ssl-cert", sslCert] else [])
  }

  /** Each optional flag is present exactly when its setting asks for it, and
      carries that setting's value. */
  lemma OptionalProxyArgsReadBack(debug: bool, sslKey: string, sslCert: string)
    ensures var args := OptionalProxyArgs(debug, sslKey, sslCert);
            && |args| == (if debug then 2 else 0) + (if sslKey != "" then 2 else 0) + (if sslCert != "" then 2 else 0)
            && OptionValue(args, "--log-level") == (if debug then Some("debug") else None)
            && OptionValue(args, "--ssl-key") == (if sslKey != "" then Some(sslKey) else None)
            && OptionValue(args, "--ssl-cert") == (if sslCert != "" then Some(sslCert) else None)
  {
    var d: seq<string> := if debug then ["--log-level", "debug"] else [];
    var k: seq<string> := if sslKey != "" then ["--ssl-key", sslKey] else [];
    var c: seq<string> := if sslCert != "" then ["--ssl-cert", sslCert] else [];
    assert OptionalProxyArgs(debug, sslKey, sslCert) == d + (k + c);
    ReadBackFlag(debug, sslKey, sslCert, "--log-level");
    ReadBackFlag(debug, sslKey, sslCert, "--ssl-key");
    ReadBackFlag(debug, sslKey, sslCert, "--ssl-cert");
  }

  /** Reading one flag back from the three optional pairs: the first pair that
      carries it answers, and no pair means no value. */
  lemma ReadBackFlag(debug: bool, sslKey: string, sslCert: string, flag: string)
    ensures var d: seq<string> := if debug then ["--log-level", "debug"] else [];
            var k: seq<string> := if sslKey != "" then ["--ssl-key", sslKey] else [];
            var c: seq<string> := if sslCert != "" then ["--ssl-cert", sslCert] else [];
            OptionValue(d + (k + c), flag) ==
              if debug && flag == "--log-level" then Some("debug")
              else if sslKey != "" && flag == "--ssl-key" then Some(sslKey)
              else if sslCert != "" && flag == "--ssl-cert" then Some(sslCert)
              else None
  {
    var k: seq<string> := if sslKey != "" then ["--ssl-key", sslKey] else [];
    var c: seq<string> := if sslCert != "" then ["--ssl-cert", sslCert] else [];
    OptionValueOptional(sslCert != "", "--ssl-cert", sslCert, [], flag);
    assert c + [] == c;
    OptionValueOptional(sslKey != "", "--ssl-key", sslKey, c, flag);
    OptionValueOptional(debug, "--log-level", "debug", k + c, flag);
  }

  /** An optional `flag value` pair in front of the rest answers for its flag
      when present and defers to the rest otherwise. */
  lemma OptionValueOptional(present: bool, f: string, v: string, rest: seq<string>, flag: string)
    ensures OptionValue((if present then [f, v] else []) + rest, flag) ==
              if present && f == flag then Some(v) else OptionValue(rest, flag)
  {
    if present {
      OptionValuePair(f, v, rest, flag);
    } else {
      assert [] + rest == rest;
    }
  }

  lemma OptionValuePair(f: string, v: string, rest: seq<string>, flag: string)
    ensures OptionValue([f, v] + rest, flag) == if f == flag then Some(v) else OptionValue(rest, flag)
  {
    assert ([f, v] + rest)[2..] == rest;
  }

  /** The default routes of the handlers modelled here, in the app's order:
      the user-spawn route and the authorizations API route under the hub
      prefix, then the redirect and the 404 catch-all. */
  lemma DefaultHandlerTable(hubPrefix: string, join: UrlPathJoin)
    ensures HandlerTable(hubPrefix, UserSpawnRoutes, AuthorizationsRoutes, join) ==
              [ Route(join([hubPrefix, "/user/([^/]+)/?.*"]), UserSpawn),
                Route(join([hubPrefix, "/api/authorizations/([^/]+)"]), Authorizations),
                Route("(?!" + hubPrefix + ").*", PrefixRedirect),
                Route("(.*)", Template404) ]
  {
    var t := HandlerTable(hubPrefix, UserSpawnRoutes, AuthorizationsRoutes, join);
    assert ApiAuth.AuthorizationsPattern == "/api/authorizations/([^/]+)";
    assert |t| == 4;
    assert t[0] == UserSpawnRoutes[0].(pattern := join([hubPrefix, UserSpawnRoutes[0].pattern]));
    assert t[1] == AuthorizationsRoutes[0].(pattern := join([hubPrefix, AuthorizationsRoutes[0].pattern]));
  }

  /** The configurable parts of the hub application. */
  class JupyterHubApp {
    const join: UrlPathJoin
    var baseUrl: string
    var ip: string
    var port: int
    var proxyCmd: string
    var proxyApiIp: string
    var proxyApiPort: Option<int>    // None: not configured, read as its default
    var hubIp: string
    var hubPort: int
    var hubPrefix: Option<string>    // None: not configured, read as its default
    var cookieSecret: Bytes
    var sslKey: string
    var sslCert: string
    var logLevel: int
    var handlers: seq<Route>
    var tornadoSettings: map<string, string>

    /** The documented defaults. */
    constructor (join: UrlPathJoin)
      ensures this.join == join
      ensures baseUrl == "/" && ip == "" && port == 8000 && proxyCmd == "configurable-http-proxy"
      ensures proxyApiIp == "localhost" && proxyApiPort == None
      ensures hubIp == "localhost" && hubPort == 8081 && hubPrefix == None
      ensures cookieSecret == [0x73, 0x65, 0x63, 0x72, 0x65, 0x74, 0x21]   // b'secret!'
      ensures sslKey == "" && sslCert == "" && logLevel == INFO
      ensures handlers == [] && tornadoSettings == map[]
    {
      this.join := join;
      baseUrl, ip, port, proxyCmd := "/", "", 8000, "configurable-http-proxy";
      proxyApiIp, proxyApiPort := "localhost", None;
      hubIp, hubPort, hubPrefix := "localhost", 8081, None;
      cookieSecret := [0x73, 0x65, 0x63, 0x72, 0x65, 0x74, 0x21];
      sslKey, sslCert, logLevel := "", "", INFO;
      handlers, tornadoSettings := [], map[];
    }

    /** The proxy API port; unless configured, one above the public port. */
    function ProxyApiPort(): (p: int)
      reads this
      ensures proxyApiPort.None? ==> p == port + 1
      ensures proxyApiPort.Some? ==> p == proxyApiPort.value
    {
      if proxyApiPort.Some? then proxyApiPort.value else port + 1
    }

    /** The hub prefix; unless configured, `/hub/` joined under the base URL. */
    function HubPrefix(): (p: string)
      reads this
      ensures hubPrefix.Some? ==> p == hubPrefix.value
      ensures hubPrefix.None? ==> p == join([baseUrl, "/hub/"])
    {
      if hubPrefix.Some? then hubPrefix.value else join([baseUrl, "/hub/"])
    }

    /** The hub's own server record as it is loaded into the database. */
    function HubServer(): (s: Server)
      reads this
      ensures s.cookieName == "jupyter-hub-token" && s.cookieSecret == cookieSecret && s.baseUrl == HubPrefix()
    {
      Server("jupyter-hub-token", cookieSecret, HubPrefix())
    }

    /** Assigning the hub prefix: the value is stored and, if it differs from the
        old one, the change handler runs (see `HubPrefixChanged`). */
    method SetHubPrefix(value: string, depth: nat) returns (outcome: Outcome<ConfigError>)
      modifies this`hubPrefix
      ensures value == old(HubPrefix()) ==> outcome == Pass && hubPrefix == old(hubPrefix)
      ensures value != old(HubPrefix()) ==>
                && hubPrefix == Some(HubPrefixChanged(value, baseUrl, join, depth).0)
                && outcome == HubPrefixChanged(value, baseUrl, join, depth).1
      decreases depth, 1
    {
      if value == HubPrefix() {
        return Pass;
      }
      hubPrefix := Some(value);
      outcome := OnHubPrefixChanged(value, depth);
    }

    /** The change handler: forces the slashes step by step, joins under the base
        URL and reassigns the trait when the value changed. */
    method OnHubPrefixChanged(value: string, depth: nat) returns (outcome: Outcome<ConfigError>)
      requires hubPrefix == Some(value)
      modifies this`hubPrefix
      ensures hubPrefix == Some(HubPrefixChanged(value, baseUrl, join, depth).0)
      ensures outcome == HubPrefixChanged(value, baseUrl, join, depth).1
      decreases depth, 0
    {
      if value == "/" {
        return Fail(InvalidHubPrefix);
      }
      var newnew := AnchoredPrefix(value);
      HubPrefixChangedStep(value, newnew, baseUrl, join, depth);
      if newnew == value {
        outcome := Pass;
      } else if depth == 0 {
        hubPrefix := Some(newnew);
        outcome := Fail(RecursionLimit);
      } else {
        outcome := SetHubPrefix(newnew, depth - 1);
      }
    }

    /** The handler's computation of the new value, one step at a time. */
    method AnchoredPrefix(value: string) returns (newnew: string)
      requires value != "/"
      ensures NormalizeHubPrefix(value, baseUrl, join) == Success(newnew)
    {
      newnew := value;
      if !LeadingSlash(value) {
        newnew := "/" + value;
      }
      if !TrailingSlash(newnew) {
        newnew := newnew + "/";
      }
      assert newnew == SlashPrefix(value);
      if !StartsWith(newnew, baseUrl) {
        newnew := join([baseUrl, newnew]);
      }
    }

    /** The port check on the current configuration. */
    function InitPorts(): (r: Outcome<ConfigError>)
      reads this
      ensures r == CheckPorts(hubPort, port, ProxyApiPort())
      ensures proxyApiPort.None? ==> (r.Pass? <==> hubPort != port && hubPort != port + 1)
    {
      CheckPorts(hubPort, port, ProxyApiPort())
    }

    /** Builds the route table from the hub's and the API's default routes. */
    method InitHandlers(hubRoutes: seq<Route>, apiRoutes: seq<Route>)
      modifies this`handlers
      ensures handlers == HandlerTable(HubPrefix(), hubRoutes, apiRoutes, join)
    {
      var all := hubRoutes + apiRoutes;
      var h := new Route[|all|](i requires 0 <= i < |all| => all[i]);
      assert h[..] == all;
      var prefixed := AddUrlPrefix(HubPrefix(), h, join);
      handlers := prefixed[..];
      handlers := handlers + [Route("(?!" + HubPrefix() + ").*", PrefixRedirect), Route("(.*)", Template404)];
    }

    /** The proxy's argument list; `hubHost` is the hub server's `host` URL. */
    method ProxyCommand(hubHost: string) returns (cmd: seq<string>)
      ensures |cmd| >= 11
      ensures cmd[..11] == [proxyCmd, "--ip", ip, "--port", DecimalString(port),
                            "--api-ip", proxyApiIp, "--api-port", DecimalString(ProxyApiPort()),
                            "--default-target", hubHost]
      ensures cmd[11..] == OptionalProxyArgs(logLevel == DEBUG, sslKey, sslCert)
    {
      cmd := [proxyCmd,
        "--ip", ip,
        "--port", DecimalString(port),
        "--api-ip", proxyApiIp,
        "--api-port", DecimalString(ProxyApiPort()),
        "--default-target", hubHost];
      ghost var fixed := cmd;
      ghost var tail: seq<string> := [];
      if logLevel == DEBUG {
        cmd, tail := cmd + ["--log-level", "debug"], tail + ["--log-level", "debug"];
      }
      assert cmd == fixed + tail;
      if sslKey != "" {
        cmd, tail := cmd + ["--ssl-key", sslKey], tail + ["--ssl-key", sslKey];
      }
      assert cmd == fixed + tail;
      if sslCert != "" {
        cmd, tail := cmd + ["--ssl-cert", sslCert], tail + ["--ssl-cert", sslCert];
      }
      assert cmd == fixed + tail && tail == OptionalProxyArgs(logLevel == DEBUG, sslKey, sslCert);
      assert cmd[..11] == fixed && cmd[11..] == tail;
    }

    /** The settings computed by the hub before the configured ones are merged in. */
    function DefaultSettings(): (s: map<string, string>)
      reads this
      ensures s.Keys == {"base_url", "login_url", "static_url_prefix"}
      ensures s["base_url"] == baseUrl
      ensures s["login_url"] == join([HubPrefix(), "login"])
      ensures s["static_url_prefix"] == join([HubPrefix(), "static/"])
    {
      map["base_url" := baseUrl,
          "login_url" := join([HubPrefix(), "login"]),
          "static_url_prefix" := join([HubPrefix(), "static/"])]
    }

    /** The web-server settings: computed ones, overridden by configured ones. */
    method InitTornadoSettings()
      modifies this`tornadoSettings
      ensures tornadoSettings == MergeSettings(DefaultSettings(), old(tornadoSettings))
    {
      var settings := DefaultSettings();
      tornadoSettings := MergeSettings(settings, tornadoSettings);
    }
  }
}
