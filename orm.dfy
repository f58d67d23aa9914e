/** The hub's database, as in-memory tables. The SQL session of the original is
    replaced by three maps that the handlers update in place: API token to user
    name, cookie token to user name, and user name to user record. A user's token
    lists are the rows of a token table that name it, as a relationship is. */
module Orm {
  import opened Wrappers

  type Bytes = seq<bv8>

  /** A server the hub routes to: the hub itself or one user's single-user server. */
  datatype Server = Server(cookieName: string, cookieSecret: Bytes, baseUrl: string)

  /** A spawner object; of its constructor arguments only the API token is tracked. */
  datatype Spawner = Spawner(apiToken: string)

  /** A user row with its server, spawner and saved spawner state. */
  datatype User = User(
    name: string,
    server: Option<Server>,
    spawner: Option<Spawner>,
    state: map<string, string>)

  /** A freshly created user: no server, no spawner, empty state. */
  function NewUser(name: string): User {
    User(name, None, None, map[])
  }

  /** The tokens of a table that belong to `name`. */
  function TokensOf(table: map<string, string>, name: string): set<string> {
    set t | t in table && table[t] == name
  }

  /** Adding a token row for `name` adds exactly that token to `name`'s tokens
      and leaves every other user's tokens as they were. */
  lemma TokensOfAdd(table: map<string, string>, token: string, name: string, other: string)
    requires token !in table
    ensures TokensOf(table[token := name], other) ==
              if other == name then TokensOf(table, other) + {token} else TokensOf(table, other)
  {
  }

  class HubDb {
    var users: map<string, User>
    var apiTokens: map<string, string>
    var cookieTokens: map<string, string>

    /** Each row is filed under its own name, and every token belongs to a user. */
    ghost predicate Valid()
      reads this
    {
      && (forall n :: n in users ==> users[n].name == n)
      && (forall t :: t in apiTokens ==> apiTokens[t] in users)
      && (forall t :: t in cookieTokens ==> cookieTokens[t] in users)
    }

    constructor ()
      ensures Valid()
      ensures users == map[] && apiTokens == map[] && cookieTokens == map[]
    {
      users, apiTokens, cookieTokens := map[], map[], map[];
    }

    /** `user.api_tokens`. */
    function ApiTokensOf(name: string): set<string>
      reads this
    {
      TokensOf(apiTokens, name)
    }

    /** `user.cookie_tokens`. */
    function CookieTokensOf(name: string): set<string>
      reads this
    {
      TokensOf(cookieTokens, name)
    }

    /** The query `User.name == name`, first match. */
    function FindUser(name: string): (r: Option<User>)
      requires Valid()
      reads this
      ensures r.Some? <==> name in users
      ensures r.Some? ==> r.value == users[name] && r.value.name == name
    {
      if name in users then Some(users[name]) else None
    }

    /** `db.add(User(name=name))` followed by a commit. */
    method AddUser(name: string)
      requires Valid() && name !in users
      modifies this`users
      ensures Valid()
      ensures users == old(users)[name := NewUser(name)]
      ensures apiTokens == old(apiTokens) && cookieTokens == old(cookieTokens)
    {
      users := users[name := NewUser(name)];
    }

    /** Writes back a changed user row. */
    method SetUser(u: User)
      requires Valid() && u.name in users
      modifies this`users
      ensures Valid()
      ensures users == old(users)[u.name := u]
      ensures apiTokens == old(apiTokens) && cookieTokens == old(cookieTokens)
    {
      users := users[u.name := u];
    }

    /** `user.new_cookie_token()` added and committed; `token` is the fresh value. */
    method NewCookieToken(name: string, token: string)
      requires Valid() && name in users && token !in cookieTokens
      modifies this`cookieTokens
      ensures Valid()
      ensures cookieTokens == old(cookieTokens)[token := name]
      ensures CookieTokensOf(name) == old(CookieTokensOf(name)) + {token}
    {
      TokensOfAdd(cookieTokens, token, name, name);
      cookieTokens := cookieTokens[token := name];
    }

    /** `user.new_api_token()` added and committed; `token` is the fresh value. */
    method NewApiToken(name: string, token: string)
      requires Valid() && name in users && token !in apiTokens
      modifies this`apiTokens
      ensures Valid()
      ensures apiTokens == old(apiTokens)[token := name]
      ensures ApiTokensOf(name) == old(ApiTokensOf(name)) + {token}
    {
      TokensOfAdd(apiTokens, token, name, name);
      apiTokens := apiTokens[token := name];
    }
  }

  /** The token bookkeeping exercised by the hub's ORM tests: one user, three
      cookie tokens and one API token, reported as the sizes of the user's
      token lists. */
  method TokenCounts() returns (cookieCount: nat, apiCount: nat)
    ensures cookieCount == 3 && apiCount == 1
  {
    var db := new HubDb();
    db.AddUser("inara");
    assert db.CookieTokensOf("inara") == {} && db.ApiTokensOf("inara") == {};
    db.NewCookieToken("inara", "c1");
    assert "c1" in db.CookieTokensOf("inara");
    db.NewCookieToken("inara", "c2");
    db.NewCookieToken("inara", "c3");
    db.NewApiToken("inara", "a1");
    assert db.ApiTokensOf("inara") == {"a1"};
    assert db.CookieTokensOf("inara") == {"c1", "c2", "c3"};
    cookieCount := |db.CookieTokensOf("inara")|;
    apiCount := |db.ApiTokensOf("inara")|;
  }
}
