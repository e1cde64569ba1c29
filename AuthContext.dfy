/** The authentication provider: the admin's token and profile, the bearer
    header it installs on the shared HTTP client's defaults, the token it
    keeps in local storage, and the `isLoading` gate in front of the
    application. The login and profile services are not modelled; their
    answers are parameters. */
module AuthContext {
  import opened Common
  import opened BrowserStorage

  const AuthorizationHeader := "Authorization"
  const TokenKey := "token"

  /** The admin profile returned by `GET /auth/`. */
  datatype AdminProfile = AdminProfile(id: string, username: string)

  /** The answer of `loginAPI`: the response body (falsy when absent) or the
      error it rethrows. */
  datatype LoginReply =
    | LoginBody(token: string)
    | NoLoginBody
    | LoginFailed(err: HttpError)

  /** The answer of `getAdmin`: a profile, a falsy value (the service itself
      turns its own errors into `undefined`), or an exception. */
  datatype AdminReply = Profile(profile: AdminProfile) | NoProfile | AdminThrew

  /** How the promise returned by `login` settles. */
  datatype LoginOutcome = Resolved(ok: bool) | Rejected(err: HttpError)

  /** The provider's state together with the two shared places it writes:
      `headers` is the top level of the HTTP client's default headers and
      `common` their `common` section. */
  datatype AuthState = AuthState(
    token: Option<string>,
    user: Option<AdminProfile>,
    headers: map<string, string>,
    common: map<string, string>,
    stored: map<string, string>,
    isLoading: bool)

  /** The children are rendered only once loading is over. */
  predicate ChildrenShown(s: AuthState)
  {
    !s.isLoading
  }

  /** `logout`: token and user cleared and the `common` bearer header deleted;
      the top-level header and the stored token are left in place. */
  function LoggedOut(s: AuthState): (r: AuthState)
    ensures r.token.None? && r.user.None?
    ensures AuthorizationHeader !in r.common
    ensures forall k :: k != AuthorizationHeader ==> (k in r.common <==> k in s.common)
    ensures forall k :: k != AuthorizationHeader && k in s.common ==> r.common[k] == s.common[k]
    ensures r.headers == s.headers && r.stored == s.stored && r.isLoading == s.isLoading
  {
    s.(token := None, user := None, common := s.common - {AuthorizationHeader})
  }

  /** `saveUserInfo`: true, with the user set, exactly when a profile came
      back; otherwise false and nothing changes. */
  function SavedUserInfo(s: AuthState, reply: AdminReply): (r: (AuthState, bool))
    ensures r.1 <==> reply.Profile?
    ensures r.1 ==> r.0 == s.(user := Some(reply.profile))
    ensures !r.1 ==> r.0 == s
  {
    match reply
    case Profile(p) => (s.(user := Some(p)), true)
    case _ => (s, false)
  }

  /** `login`: always logs out first. A rejected login call rejects `login`;
      an empty answer resolves to false; a token resolves to true whatever
      the profile fetch gives, after setting the token, the top-level bearer
      header and the stored token. */
  function LoggedIn(s: AuthState, reply: LoginReply, admin: AdminReply): (r: (AuthState, LoginOutcome))
    ensures !reply.LoginBody? ==> r.0 == LoggedOut(s)
    ensures reply.NoLoginBody? ==> r.1 == Resolved(false)
    ensures reply.LoginFailed? ==> r.1 == Rejected(reply.err)
    ensures reply.LoginBody? ==>
      && r.1 == Resolved(true)
      && r.0.token == Some(reply.token)
      && r.0.headers == s.headers[AuthorizationHeader := "Bearer " + reply.token]
      && r.0.stored == s.stored[TokenKey := reply.token]
      && r.0.user == (if admin.Profile? then Some(admin.profile) else None)
      && r.0.common == s.common - {AuthorizationHeader}
      && r.0.isLoading == s.isLoading
  {
    var out := LoggedOut(s);
    match reply
    case LoginFailed(err) => (out, Rejected(err))
    case NoLoginBody => (out, Resolved(false))
    case LoginBody(token) =>
      var withToken := out.(
        token := Some(token),
        headers := out.headers[AuthorizationHeader := "Bearer " + token],
        stored := out.stored[TokenKey := token]);
      (SavedUserInfo(withToken, admin).0, Resolved(true))
  }

  /** The startup effect: a stored (non-empty) token is restored into the
      state and the `common` bearer header, and dropped again by `logout`
      when no profile comes back; loading is over in every case. */
  function LoadedUser(s: AuthState, admin: AdminReply): (r: AuthState)
    ensures !r.isLoading
    ensures r.stored == s.stored && r.headers == s.headers
    ensures !Stored(s.stored, TokenKey) ==> r == s.(isLoading := false)
    ensures Stored(s.stored, TokenKey) && admin.Profile? ==>
      && r.token == Some(s.stored[TokenKey])
      && r.user == Some(admin.profile)
      && r.common == s.common[AuthorizationHeader := "Bearer " + s.stored[TokenKey]]
    ensures Stored(s.stored, TokenKey) && !admin.Profile? ==>
      r.token.None? && r.user == None && r.common == s.common - {AuthorizationHeader}
  {
    var loading := s.(isLoading := true);
    var restored :=
      if !Stored(loading.stored, TokenKey) then loading
      else
        var t := loading.stored[TokenKey];
        var withToken := loading.(token := Some(t),
                                  common := loading.common[AuthorizationHeader := "Bearer " + t]);
        var (saved, ok) := SavedUserInfo(withToken, admin);
        if ok then saved else LoggedOut(saved);
    restored.(isLoading := false)
  }

  /** `login` writes the top-level header but `logout` deletes the `common`
      one, so after a successful login followed by a logout the bearer
      header is still installed (and the token still stored). */
  lemma LogoutKeepsLoginHeader(s: AuthState, token: string, admin: AdminReply)
    ensures var after := LoggedOut(LoggedIn(s, LoginBody(token), admin).0);
      && after.token.None? && after.user.None?
      && AuthorizationHeader in after.headers
      && after.headers[AuthorizationHeader] == "Bearer " + token
      && after.stored[TokenKey] == token
  {
  }

  /** A login that gets no token leaves no credentials in the provider's
      state, even when another admin was logged in before. */
  lemma FailedLoginLeavesNoToken(s: AuthState, reply: LoginReply, admin: AdminReply)
    requires !reply.LoginBody?
    ensures LoggedIn(s, reply, admin).0.token.None?
    ensures LoggedIn(s, reply, admin).0.user.None?
    ensures LoggedIn(s, reply, admin).0.stored == s.stored
  {
  }

  /** A restart after a successful login restores the same token, now into
      the `common` header. */
  lemma RestartRestoresToken(s: AuthState, token: string, loginAdmin: AdminReply, profile: AdminProfile)
    requires token != ""
    ensures var restarted := LoadedUser(LoggedIn(s, LoginBody(token), loginAdmin).0, Profile(profile));
      && restarted.token == Some(token)
      && restarted.user == Some(profile)
      && restarted.common[AuthorizationHeader] == "Bearer " + token
      && ChildrenShown(restarted)
  {
  }

  /** The HTTP client's shared default headers. */
  class HeaderDefaults {
    var headers: map<string, string>
    var common: map<string, string>

    constructor()
      ensures headers == map[] && common == map[]
    {
      headers := map[];
      common := map[];
    }
  }

  /** The provider instance. `loginCalls` counts the calls to `login`. */
  class AuthProvider {
    const defaults: HeaderDefaults
    const storage: LocalStorage
    var token: Option<string>
    var user: Option<AdminProfile>
    var isLoading: bool
    ghost var loginCalls: nat

    function State(): AuthState
      reads this, defaults, storage
    {
      AuthState(token, user, defaults.headers, defaults.common, storage.items, isLoading)
    }

    constructor(defaults: HeaderDefaults, storage: LocalStorage)
      ensures this.defaults == defaults && this.storage == storage
      ensures token.None? && user.None? && isLoading && loginCalls == 0
    {
      this.defaults := defaults;
      this.storage := storage;
      token := None;
      user := None;
      isLoading := true;
      loginCalls := 0;
    }

    method Logout()
      modifies this`token, this`user, defaults`common
      ensures State() == LoggedOut(old(State()))
    {
      token := None;
      user := None;
      defaults.common := defaults.common - {AuthorizationHeader};
    }

    method SaveUserInfo(admin: AdminReply) returns (ok: bool)
      modifies this`user
      ensures (State(), ok) == SavedUserInfo(old(State()), admin)
    {
      match admin
      case Profile(p) =>
        user := Some(p);
        ok := true;
      case _ =>
        ok := false;
    }

    method Login(username: string, password: string, reply: LoginReply, admin: AdminReply)
      returns (outcome: LoginOutcome)
      modifies this`token, this`user, this`loginCalls, defaults, storage
      ensures (State(), outcome) == LoggedIn(old(State()), reply, admin)
      ensures loginCalls == old(loginCalls) + 1
    {
      loginCalls := loginCalls + 1;
      Logout();
      match reply
      case LoginFailed(err) =>
        outcome := Rejected(err);
      case NoLoginBody =>
        outcome := Resolved(false);
      case LoginBody(t) =>
        token := Some(t);
        defaults.headers := defaults.headers[AuthorizationHeader := "Bearer " + t];
        storage.SetItem(TokenKey, t);
        var _ := SaveUserInfo(admin);
        outcome := Resolved(true);
    }

    method LoadUser(admin: AdminReply)
      modifies this`token, this`user, this`isLoading, defaults
      ensures State() == LoadedUser(old(State()), admin)
    {
      isLoading := true;
      var stored := storage.GetItem(TokenKey);
      if Present(stored) {
        token := stored;
        defaults.common := defaults.common[AuthorizationHeader := "Bearer " + stored.value];
        var ok := SaveUserInfo(admin);
        if !ok {
          Logout();
        }
      }
      isLoading := false;
    }
  }
}
