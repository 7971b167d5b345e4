/** The admin gate: the middleware on `/admin` paths, whose `authorized`
    callback decides whether the request may proceed, after which the
    middleware function either sends a signed-in visitor away from the login
    page or lets the request through with its path recorded in the
    `x-current-path` request header. Whether a token is present is the
    parameter `signedIn`. */
module Access {
  import opened Common

  const AdminRoot := "/admin"
  const LoginPath := "/admin/login"
  const CurrentPathHeader := "x-current-path"

  /** The matcher `/admin/:path*`: `/admin` itself and everything below it. */
  predicate UnderAdmin(path: string): (r: bool)
    ensures r <==> path == AdminRoot || exists rest :: path == AdminRoot + "/" + rest
  {
    if StartsWith(path, AdminRoot + "/") then
      assert path == AdminRoot + "/" + path[|AdminRoot + "/"|..];
      true
    else
      path == AdminRoot
  }

  /** The `authorized` callback: the login page is always open, any other
      admin path needs a token. */
  predicate Authorized(path: string, signedIn: bool): (r: bool)
    ensures path == LoginPath ==> r
    ensures path != LoginPath ==> (r <==> signedIn)
  {
    path == LoginPath || signedIn
  }

  /** The outcome for one request. */
  datatype Decision =
    | Untouched                              // outside the matcher
    | RedirectTo(location: string)
    | Continue(headers: map<string, string>) // passed on with these request headers

  function Middleware(path: string, signedIn: bool, headers: map<string, string>): (r: Decision)
    ensures !UnderAdmin(path) ==> r == Untouched
    ensures UnderAdmin(path) && !Authorized(path, signedIn) ==> r == RedirectTo(LoginPath)
    ensures UnderAdmin(path) && signedIn && path == LoginPath ==> r == RedirectTo(AdminRoot)
    ensures r.Continue? <==> UnderAdmin(path) && Authorized(path, signedIn) && !(signedIn && path == LoginPath)
    ensures r.Continue? ==>
      && CurrentPathHeader in r.headers && r.headers[CurrentPathHeader] == path
      && (forall h :: h in headers && h != CurrentPathHeader ==> h in r.headers && r.headers[h] == headers[h])
      && r.headers.Keys == headers.Keys + {CurrentPathHeader}
  {
    if !UnderAdmin(path) then Untouched
    else if !Authorized(path, signedIn) then RedirectTo(LoginPath)
    else if signedIn && path == LoginPath then RedirectTo(AdminRoot)
    else Continue(headers[CurrentPathHeader := path])
  }

  /** Every admin path other than the login page needs a token; the login page
      never does. */
  lemma AuthorizedIffToken(path: string, signedIn: bool)
    requires UnderAdmin(path)
    ensures path == LoginPath ==> Authorized(path, signedIn)
    ensures path != LoginPath ==> (Authorized(path, signedIn) <==> signedIn)
  {
  }

  /** Redirects settle after one step: the location either redirect sends the
      browser to is itself passed through, so there is no redirect loop, for a
      visitor with or without a token. */
  lemma RedirectSettles(path: string, signedIn: bool, headers: map<string, string>,
                        next: map<string, string>)
    requires Middleware(path, signedIn, headers).RedirectTo?
    ensures Middleware(Middleware(path, signedIn, headers).location, signedIn, next).Continue?
  {
    var location := Middleware(path, signedIn, headers).location;
    if signedIn {
      assert location == AdminRoot;
    } else {
      assert location == LoginPath;
      assert StartsWith(LoginPath, AdminRoot + "/") by {
        assert LoginPath[..|AdminRoot + "/"|] == AdminRoot + "/";
      }
    }
  }
}

/** The credential provider and the session callbacks. */
module Auth {
  import opened Common

  datatype Credentials = Credentials(username: string, password: string)

  datatype User = User(id: string, name: string, email: string)

  /** The one account `authorize` hands out. */
  const Admin := User("1", "Admin", "admin@example.com")

  /** Session lifetime in seconds: one day. */
  const SessionMaxAge: nat := 24 * 60 * 60

  /** `authorize`: the submitted credentials against `ADMIN_USERNAME` and
      `ADMIN_PASSWORD`; with no credentials, or either variable unset or
      empty, nobody is let in. */
  function Authorize(credentials: Option<Credentials>, adminUsername: Option<string>,
                     adminPassword: Option<string>): (r: Option<User>)
    ensures r.Some? <==>
      && credentials.Some? && Truthy(adminUsername) && Truthy(adminPassword)
      && credentials.value.username == adminUsername.value
      && credentials.value.password == adminPassword.value
    ensures r.Some? ==> r.value == Admin
  {
    if credentials.None? || !Truthy(adminUsername) || !Truthy(adminPassword) then None
    else if credentials.value.username == adminUsername.value
         && credentials.value.password == adminPassword.value then Some(Admin)
    else None
  }

  /** Exactly one pair of credentials is accepted, and none when the
      configuration is incomplete: in particular an empty password never
      signs anyone in. */
  lemma AuthorizeSinglePair(a: Credentials, b: Credentials,
                            adminUsername: Option<string>, adminPassword: Option<string>)
    ensures (Authorize(Some(a), adminUsername, adminPassword).Some?
             && Authorize(Some(b), adminUsername, adminPassword).Some?) ==> a == b
    ensures !Truthy(adminUsername) || !Truthy(adminPassword) ==>
      Authorize(Some(a), adminUsername, adminPassword).None?
    ensures a.password == "" ==> Authorize(Some(a), adminUsername, adminPassword).None?
  {
  }

  /** The JWT the session strategy keeps. */
  class Token {
    var id: Option<string>

    constructor (id: Option<string>)
      ensures this.id == id
    {
      this.id := id;
    }
  }

  class SessionUser {
    var id: Option<string>

    constructor (id: Option<string>)
      ensures this.id == id
    {
      this.id := id;
    }
  }

  class Session {
    var user: SessionUser?

    constructor (user: SessionUser?)
      ensures this.user == user
    {
      this.user := user;
    }
  }

  /** The `jwt` callback: on sign-in (`user` present) the user's id is stored
      on the token; otherwise the token comes back unchanged. */
  method Jwt(token: Token, user: Option<User>) returns (r: Token)
    modifies token
    ensures r == token
    ensures user.Some? ==> token.id == Some(user.value.id)
    ensures user.None? ==> token.id == old(token.id)
  {
    if user.Some? {
      token.id := Some(user.value.id);
    }
    r := token;
  }

  /** The `session` callback: the token's id is copied onto the session's user
      when the session has one. */
  method SessionCallback(session: Session, token: Token) returns (r: Session)
    modifies session.user
    ensures r == session && session.user == old(session.user)
    ensures session.user != null ==> session.user.id == token.id
  {
    if session.user != null {
      session.user.id := token.id;
    }
    r := session;
  }
}
