/** Login-form authentication: the base authenticator, which accepts nobody, and
    the PAM authenticator, a username whitelist in front of a PAM check. The PAM
    library and the text encoder live outside this model and are parameters. */
module Auth {
  import opened Wrappers
  import opened Orm

  /** `simplepam.authenticate(username, password, service=...)`. */
  type PamCheck = (Bytes, Bytes, string) -> bool

  /** `text.encode(encoding)`: the bytes, or None when the text cannot be encoded. */
  type Encoder = (string, string) -> Option<Bytes>

  /** Why an attempt raises instead of answering: a form field is missing, or a
      field cannot be encoded. */
  datatype AuthError = MissingField(key: string) | Unencodable(key: string)

  /** The configurable parts of the PAM authenticator. */
  datatype PamAuthenticator = PamAuthenticator(whitelist: set<string>, encoding: string, service: string)

  /** A PAM authenticator as configured by default: any user may try, the text
      is encoded as `utf8` and PAM's `login` service is used. */
  function DefaultPamAuthenticator(): (a: PamAuthenticator)
    ensures a.whitelist == {} && a.encoding == "utf8" && a.service == "login"
  {
    PamAuthenticator({}, "utf8", "login")
  }

  /** The base authenticator answers None (login failed) for every form. */
  function BaseAuthenticate(data: map<string, string>): (r: Option<string>)
    ensures r.None?
  {
    None
  }

  /** The whitelist lets a name through when it is empty or holds the name. */
  predicate Admitted(whitelist: set<string>, username: string) {
    whitelist == {} || username in whitelist
  }

  /** PAM authentication of a login form: read `username`; refuse a name outside
      a non-empty whitelist; encode `username`, read and encode `password`; return
      the username when PAM accepts the pair under the configured service. */
  function PamAuthenticate(a: PamAuthenticator, data: map<string, string>, encode: Encoder, pam: PamCheck)
    : (r: Result<Option<string>, AuthError>)
    ensures "username" !in data ==> r == Failure(MissingField("username"))
    ensures "username" in data ==>
              (r == Success(Some(data["username"])) <==>
              && "password" in data
              && Admitted(a.whitelist, data["username"])
              && encode(data["username"], a.encoding).Some?
              && encode(data["password"], a.encoding).Some?
              && pam(encode(data["username"], a.encoding).value, encode(data["password"], a.encoding).value, a.service))
    ensures r.Success? && r.value.Some? ==> "username" in data && r.value.value == data["username"]
    // a name outside a non-empty whitelist is refused before anything else happens
    ensures "username" in data && !Admitted(a.whitelist, data["username"]) ==> r == Success(None)
    // an admitted name: the encoding of the name, the password field and its
    // encoding are needed in that order, each raising when it fails
    ensures "username" in data && Admitted(a.whitelist, data["username"])
            && encode(data["username"], a.encoding).None? ==>
              r == Failure(Unencodable("username"))
    ensures "username" in data && Admitted(a.whitelist, data["username"])
            && encode(data["username"], a.encoding).Some? && "password" !in data ==>
              r == Failure(MissingField("password"))
    ensures "username" in data && Admitted(a.whitelist, data["username"])
            && encode(data["username"], a.encoding).Some? && "password" in data
            && encode(data["password"], a.encoding).None? ==>
              r == Failure(Unencodable("password"))
    // with everything encoded, PAM alone decides between the name and None
    ensures "username" in data && Admitted(a.whitelist, data["username"]) && "password" in data
            && encode(data["username"], a.encoding).Some? && encode(data["password"], a.encoding).Some? ==>
              r == Success(if pam(encode(data["username"], a.encoding).value, encode(data["password"], a.encoding).value, a.service)
                           then Some(data["username"]) else None)
  {
    if "username" !in data then Failure(MissingField("username"))
    else
      var username := data["username"];
      if !Admitted(a.whitelist, username) then Success(None)
      else match encode(username, a.encoding)
        case None => Failure(Unencodable("username"))
        case Some(busername) =>
          if "password" !in data then Failure(MissingField("password"))
          else match encode(data["password"], a.encoding)
            case None => Failure(Unencodable("password"))
            case Some(bpassword) =>
              if pam(busername, bpassword, a.service) then Success(Some(username)) else Success(None)
  }

  /** With a non-empty whitelist, a name outside it is refused before anything is
      encoded or PAM is asked: the answer is None whatever PAM and the encoder do. */
  lemma WhitelistRefusesWithoutPam(a: PamAuthenticator, data: map<string, string>,
                                   encode1: Encoder, pam1: PamCheck, encode2: Encoder, pam2: PamCheck)
    requires "username" in data && a.whitelist != {} && data["username"] !in a.whitelist
    ensures PamAuthenticate(a, data, encode1, pam1) == Success(None)
    ensures PamAuthenticate(a, data, encode1, pam1) == PamAuthenticate(a, data, encode2, pam2)
  {
  }

  /** With an empty whitelist, every well-formed, encodable form is decided by
      PAM alone, on the encoded username and password and the configured service. */
  lemma EmptyWhitelistAsksPam(a: PamAuthenticator, data: map<string, string>, encode: Encoder, pam: PamCheck)
    requires a.whitelist == {}
    requires "username" in data && "password" in data
    requires encode(data["username"], a.encoding).Some? && encode(data["password"], a.encoding).Some?
    ensures var bu := encode(data["username"], a.encoding).value;
            var bp := encode(data["password"], a.encoding).value;
            PamAuthenticate(a, data, encode, pam) == Success(if pam(bu, bp, a.service) then Some(data["username"]) else None)
  {
  }

  /** The PAM stand-in of the hub's tests: the pair is accepted when the encoded
      password equals the encoded username. */
  function MockPam(username: Bytes, password: Bytes, service: string): (ok: bool)
    ensures ok <==> username == password
  {
    password == username
  }

  /** Under the test stand-in, the default authenticator logs in any user whose
      password is the username, and nobody else when the encoder is injective. */
  lemma MockLogin(username: string, password: string, encode: Encoder)
    requires encode(username, "utf8").Some? && encode(password, "utf8").Some?
    requires encode(username, "utf8") == encode(password, "utf8") ==> username == password
    ensures var data := map["username" := username, "password" := password];
            PamAuthenticate(DefaultPamAuthenticator(), data, encode, MockPam) ==
              Success(if username == password then Some(username) else None)
  {
    var data := map["username" := username, "password" := password];
    assert data["username"] == username && data["password"] == password;
  }
}
