/** The session store (`AuthProvider`): the in-memory `user`, `token`,
    `isLoading` and `error`, the two local-storage entries `auth_token` and
    `auth_user`, and the `auth_token` cookie. The transitions are first given
    as functions on a snapshot of that state; the class below performs them
    step by step and is proved to end in the state the functions describe. */
module Session {
  import opened Common
  import opened Types

  const LoginFailed := "Login failed"
  const LoginRetry := "Login failed. Please try again."
  const RegistrationFailed := "Registration failed"
  const RegistrationRetry := "Registration failed. Please try again."

  /** The `auth_user` storage entry: the serialisation of a user record, or
      text that does not parse as one. */
  datatype StoredUser = Serialized(user: User) | Unparsable(text: string)

  /** Truthiness of the raw `auth_user` string: a serialised record is never
      empty. */
  predicate StoredUserTruthy(e: Option<StoredUser>)
  {
    e.Some? && (e.value.Serialized? || e.value.text != "")
  }

  /** Everything the store owns, at one moment. */
  datatype State = State(
    user: Option<User>,
    token: Option<string>,
    isLoading: bool,
    error: Option<string>,
    storedToken: Option<string>,
    storedUser: Option<StoredUser>,
    cookie: Option<string>)

  /** A login or register attempt: the state it leaves, and the message of
      the error it re-raises to its caller, if any. */
  datatype Attempt = Attempt(after: State, raised: Option<string>)

  /** The store's invariant: a user is only ever held together with a token,
      and a held token is never the empty string. */
  predicate Inv(s: State)
  {
    (s.user.Some? ==> s.token.Some?) && (s.token.Some? ==> Truthy(s.token))
  }

  /** Signed in as `u` with token `t`: memory, storage and cookie all agree,
      and no error is shown. */
  predicate SignedIn(s: State, u: User, t: string)
  {
    && t != ""
    && s.user == Some(u) && s.token == Some(t)
    && s.storedToken == Some(t) && s.storedUser == Some(Serialized(u))
    && s.cookie == Some(t)
    && s.error == None
  }

  /** Nothing of a session is left in memory, storage or cookie. */
  predicate SignedOut(s: State)
  {
    && s.user == None && s.token == None && s.error == None
    && s.storedToken == None && s.storedUser == None && s.cookie == None
  }

  /** The state the provider starts in, over whatever the browser kept. */
  function Initial(storedToken: Option<string>, storedUser: Option<StoredUser>, cookie: Option<string>): (r: State)
    ensures Inv(r) && r.isLoading
    ensures r.user == None && r.token == None && r.error == None
    ensures r.storedToken == storedToken && r.storedUser == storedUser && r.cookie == cookie
  {
    State(None, None, true, None, storedToken, storedUser, cookie)
  }

  /** The mount-time effect. */
  function Restored(s: State): (r: State)
    ensures !r.isLoading && r.error == s.error && r.cookie == s.cookie
    ensures Inv(s) ==> Inv(r)
    ensures r.user != s.user ==>
      && s.storedUser.Some? && s.storedUser.value.Serialized?
      && r.user == Some(s.storedUser.value.user) && r.token == s.storedToken
    ensures r.storedToken != s.storedToken || r.storedUser != s.storedUser
      ==> r.storedToken == None && r.storedUser == None && r.user == s.user
          && s.storedUser.Some? && s.storedUser.value.Unparsable?
    ensures !Truthy(s.storedToken) || !StoredUserTruthy(s.storedUser) ==> r == s.(isLoading := false)
    ensures Truthy(s.storedToken) && s.storedUser.Some? && s.storedUser.value.Serialized? ==>
      r == s.(user := Some(s.storedUser.value.user), token := s.storedToken, isLoading := false)
    ensures Truthy(s.storedToken) && StoredUserTruthy(s.storedUser) && s.storedUser.value.Unparsable? ==>
      r == s.(token := s.storedToken, storedToken := None, storedUser := None, isLoading := false)
  {
    if Truthy(s.storedToken) && StoredUserTruthy(s.storedUser) then
      var s1 := s.(token := s.storedToken);
      match s.storedUser.value
      case Serialized(u) => s1.(user := Some(u), isLoading := false)
      case Unparsable(_) => s1.(storedToken := None, storedUser := None, isLoading := false)
    else
      s.(isLoading := false)
  }

  /** The token a reply issues: `response.data?.token` when truthy. */
  function IssuedToken(reply: AuthReply): (r: Option<string>)
    ensures r.Some? ==> r.value != "" && reply.Responded? && reply.token == r
    ensures reply.Responded? && Truthy(reply.token) ==> r == reply.token
  {
    if reply.Responded? && Truthy(reply.token) then reply.token else None
  }

  /** The message of the error a failed attempt re-raises: the server's
      message or `fallback` when no token came back, the thrown message
      otherwise. */
  function RaisedMessage(reply: AuthReply, fallback: string): string
  {
    match reply
    case Responded(message, _) => if message != "" then message else fallback
    case Threw(message) => message
  }

  /** `error.message || retry`. */
  function ErrorText(message: string, retry: string): (r: string)
    ensures retry != "" ==> r != ""
    ensures message != "" ==> r == message
    ensures message == "" ==> r == retry
  {
    if message != "" then message else retry
  }

  /** The body shared by `login` and `register`, for the user record `u`
      each builds from its credentials. */
  function AuthenticateStep(s: State, u: User, reply: AuthReply, fallback: string, retry: string): (r: Attempt)
    requires retry != ""
    ensures !r.after.isLoading
    ensures r.raised.None? <==> IssuedToken(reply).Some?
    ensures r.raised.None? ==> SignedIn(r.after, u, IssuedToken(reply).value)
    ensures r.raised.Some? ==>
      && r.after.user == s.user && r.after.token == s.token
      && r.after.storedToken == s.storedToken && r.after.storedUser == s.storedUser
      && r.after.cookie == s.cookie
      && r.after.error == Some(ErrorText(r.raised.value, retry))
    ensures Inv(s) ==> Inv(r.after)
  {
    var started := s.(isLoading := true, error := None);
    match IssuedToken(reply)
    case Some(t) =>
      var done := started.(token := Some(t), user := Some(u), storedToken := Some(t),
                           storedUser := Some(Serialized(u)), cookie := Some(t));
      Attempt(done.(isLoading := false), None)
    case None =>
      var m := RaisedMessage(reply, fallback);
      Attempt(started.(error := Some(ErrorText(m, retry)), isLoading := false), Some(m))
  }

  /** `login`: the user record takes the submitted username for its id, its
      username and its email alike. */
  function LoggedIn(s: State, credentials: LoginRequest, reply: AuthReply): (r: Attempt)
    ensures r.raised.None? ==> r.after.user == Some(User(credentials.username, credentials.username, credentials.username))
    ensures reply.Responded? && !Truthy(reply.token)
      ==> r.raised == Some(if reply.message != "" then reply.message else LoginFailed)
    ensures reply.Threw? ==> r.raised == Some(reply.message)
    ensures r.raised.Some? ==> r.after.error == Some(if r.raised.value != "" then r.raised.value else LoginRetry)
  {
    var name := credentials.username;
    AuthenticateStep(s, User(name, name, name), reply, LoginFailed, LoginRetry)
  }

  /** `register`: as `login`, but the email comes from the registration
      form. */
  function Registered(s: State, credentials: RegisterRequest, reply: AuthReply): (r: Attempt)
    ensures r.raised.None? ==> r.after.user == Some(User(credentials.username, credentials.username, credentials.email))
    ensures reply.Responded? && !Truthy(reply.token)
      ==> r.raised == Some(if reply.message != "" then reply.message else RegistrationFailed)
    ensures reply.Threw? ==> r.raised == Some(reply.message)
    ensures r.raised.Some? ==> r.after.error == Some(if r.raised.value != "" then r.raised.value else RegistrationRetry)
  {
    var name := credentials.username;
    AuthenticateStep(s, User(name, name, credentials.email), reply, RegistrationFailed, RegistrationRetry)
  }

  /** `logout`: everything but `isLoading` is cleared. */
  function LoggedOut(s: State): (r: State)
    ensures SignedOut(r) && Inv(r)
    ensures r.isLoading == s.isLoading
  {
    s.(user := None, token := None, error := None, storedToken := None, storedUser := None, cookie := None)
  }

  /** Logging out twice is logging out once. */
  lemma LogoutIdempotent(s: State)
    ensures LoggedOut(LoggedOut(s)) == LoggedOut(s)
  {
  }

  /** A mount that finds both storage entries missing or empty restores
      nothing: user and token stay null. */
  lemma MountWithoutStorage(storedToken: Option<string>, storedUser: Option<StoredUser>, cookie: Option<string>)
    requires !Truthy(storedToken) || !StoredUserTruthy(storedUser)
    ensures var r := Restored(Initial(storedToken, storedUser, cookie));
      r.user == None && r.token == None && !r.isLoading
      && r.storedToken == storedToken && r.storedUser == storedUser
  {
  }

  /** A corrupt `auth_user` entry is dropped along with the token entry, but
      the token was already taken into memory and the cookie is untouched. */
  lemma MountWithCorruptUser(storedToken: string, text: string, cookie: Option<string>)
    requires storedToken != "" && text != ""
    ensures var r := Restored(Initial(Some(storedToken), Some(Unparsable(text)), cookie));
      r.user == None && r.token == Some(storedToken)
      && r.storedToken == None && r.storedUser == None && r.cookie == cookie && !r.isLoading
  {
  }

  /** What a successful login or register persists is what the next mount
      restores: a page reload keeps the session. */
  lemma ReloadKeepsSession(s: State, u: User, reply: AuthReply, fallback: string, retry: string)
    requires retry != ""
    requires AuthenticateStep(s, u, reply, fallback, retry).raised.None?
    ensures var a := AuthenticateStep(s, u, reply, fallback, retry).after;
      var r := Restored(Initial(a.storedToken, a.storedUser, a.cookie));
      r.user == a.user && r.token == a.token && r.cookie == a.cookie
  {
  }

  /** Logout removes everything a later mount could restore: the next
      page load starts signed out, whatever state the store was in. */
  lemma NothingRestoredAfterLogout(s: State)
    ensures var out := LoggedOut(s);
      var r := Restored(Initial(out.storedToken, out.storedUser, out.cookie));
      SignedOut(r) && !r.isLoading
  {
  }

  /** The provider. `Snapshot` is its abstract state; every method ends in the
      state the matching function computes from the state it began in. */
  class AuthProvider {
    var user: Option<User>
    var token: Option<string>
    var isLoading: bool
    var error: Option<string>
    var storedToken: Option<string>
    var storedUser: Option<StoredUser>
    var cookie: Option<string>

    function Snapshot(): State
      reads this
    {
      State(user, token, isLoading, error, storedToken, storedUser, cookie)
    }

    ghost predicate Valid()
      reads this
    {
      Inv(Snapshot())
    }

    /** The provider as first rendered, over the browser's persisted state. */
    constructor (initialToken: Option<string>, initialUser: Option<StoredUser>, initialCookie: Option<string>)
      ensures Valid()
      ensures Snapshot() == Initial(initialToken, initialUser, initialCookie)
    {
      user, token, isLoading, error := None, None, true, None;
      storedToken, storedUser, cookie := initialToken, initialUser, initialCookie;
    }

    /** The mount effect: restore the stored session, or discard a corrupt
      one. */
    method RestoreOnMount()
      requires Valid()
      modifies this
      ensures Valid()
      ensures Snapshot() == Restored(old(Snapshot()))
    {
      if Truthy(storedToken) && StoredUserTruthy(storedUser) {
        token := storedToken;
        match storedUser.value
        case Serialized(u) =>
          user := Some(u);
        case Unparsable(_) =>
          storedToken := None;
          storedUser := None;
      }
      isLoading := false;
    }

    method Authenticate(u: User, reply: AuthReply, fallback: string, retry: string) returns (raised: Option<string>)
      requires Valid() && retry != ""
      modifies this
      ensures Valid()
      ensures Snapshot() == AuthenticateStep(old(Snapshot()), u, reply, fallback, retry).after
      ensures raised == AuthenticateStep(old(Snapshot()), u, reply, fallback, retry).raised
    {
      isLoading := true;
      error := None;
      var issued := IssuedToken(reply);
      if issued.Some? {
        token := issued;
        user := Some(u);
        storedToken := issued;
        storedUser := Some(Serialized(u));
        cookie := issued;
        raised := None;
      } else {
        var message := RaisedMessage(reply, fallback);
        error := Some(ErrorText(message, retry));
        raised := Some(message);
      }
      isLoading := false;
    }

    /** `login`; `raised` is the error it re-throws, if any. */
    method Login(credentials: LoginRequest, reply: AuthReply) returns (raised: Option<string>)
      requires Valid()
      modifies this
      ensures Valid()
      ensures Snapshot() == LoggedIn(old(Snapshot()), credentials, reply).after
      ensures raised == LoggedIn(old(Snapshot()), credentials, reply).raised
    {
      var name := credentials.username;
      raised := Authenticate(User(name, name, name), reply, LoginFailed, LoginRetry);
    }

    /** `register`; `raised` is the error it re-throws, if any. */
    method Register(credentials: RegisterRequest, reply: AuthReply) returns (raised: Option<string>)
      requires Valid()
      modifies this
      ensures Valid()
      ensures Snapshot() == Registered(old(Snapshot()), credentials, reply).after
      ensures raised == Registered(old(Snapshot()), credentials, reply).raised
    {
      var name := credentials.username;
      raised := Authenticate(User(name, name, credentials.email), reply, RegistrationFailed, RegistrationRetry);
    }

    /** `logout`. */
    method Logout()
      requires Valid()
      modifies this
      ensures Valid()
      ensures Snapshot() == LoggedOut(old(Snapshot()))
    {
      user := None;
      token := None;
      error := None;
      storedToken := None;
      storedUser := None;
      cookie := None;
    }
  }
}
