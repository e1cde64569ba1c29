/** The admin login form: the empty-field guard, the one call to the
    provider's `login`, and what its result or error does to the message
    shown and to navigation. */
module AdminLogin {
  import opened Common
  import opened AuthContext

  const EmptyFieldsMessage := "Por favor, preencha todos os campos."
  const HomePath := "/"

  /** `JSON.stringify` of the boolean `login` resolves with. */
  function Stringify(b: bool): string
  {
    if b then "true" else "false"
  }

  /** The message and the navigation that follow a settled `login`: on
      resolution the message is the stringified result and the page moves
      to "/" only on true; on rejection the server's message is written and
      then overwritten by the stringified error. */
  function Settled(outcome: LoginOutcome): (r: (string, Option<string>))
    ensures outcome.Resolved? ==> r.0 == Stringify(outcome.ok)
    ensures r.1.Some? <==> outcome == Resolved(true)
    ensures r.1.Some? ==> r.1.value == HomePath
    ensures outcome.Rejected? ==> r.0 == outcome.err.json
  {
    match outcome
    case Resolved(res) =>
      (Stringify(res), if res then Some(HomePath) else None)
    case Rejected(err) => (err.json, None)
  }

  /** Whatever the provider had before, a login that does not get a token
      neither navigates nor leaves a token behind, and one that does get a
      token always navigates home. */
  lemma NavigateIffTokenReceived(s: AuthState, reply: LoginReply, admin: AdminReply)
    ensures var (after, outcome) := LoggedIn(s, reply, admin);
      && (Settled(outcome).1.Some? <==> reply.LoginBody?)
      && (Settled(outcome).1.Some? <==> after.token.Some?)
  {
  }

  class AdminLoginForm {
    var username: string
    var password: string
    var error: string

    constructor()
      ensures username == "" && password == "" && error == ""
    {
      username := "";
      password := "";
      error := "";
    }

    method SetUsername(value: string)
      modifies this`username
      ensures username == value
    {
      username := value;
    }

    method SetPassword(value: string)
      modifies this`password
      ensures password == value
    {
      password := value;
    }

    /** `handleLogin` with the provider's `login` answering `reply` and
        `admin`: an empty field shows the message and leaves the provider
        untouched; otherwise `login` is called exactly once and its outcome
        settles the message and the navigation. */
    method HandleLogin(auth: AuthProvider, reply: LoginReply, admin: AdminReply)
      returns (navigateTo: Option<string>)
      modifies this`error, auth, auth.defaults, auth.storage
      ensures username == "" || password == "" ==>
        && error == EmptyFieldsMessage && navigateTo.None?
        && auth.State() == old(auth.State()) && auth.loginCalls == old(auth.loginCalls)
      ensures username != "" && password != "" ==>
        && auth.loginCalls == old(auth.loginCalls) + 1
        && auth.State() == LoggedIn(old(auth.State()), reply, admin).0
        && (error, navigateTo) == Settled(LoggedIn(old(auth.State()), reply, admin).1)
    {
      if username == "" || password == "" {
        error := EmptyFieldsMessage;
        return None;
      }
      var outcome := auth.Login(username, password, reply, admin);
      match outcome
      case Resolved(res) =>
        error := Stringify(res);
        navigateTo := if res then Some(HomePath) else None;
      case Rejected(err) =>
        if err.responseMessage.Some? {
          error := err.responseMessage.value;
        }
        error := err.json;
        navigateTo := None;
    }
  }
}
