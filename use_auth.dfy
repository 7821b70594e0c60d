/**
 * The client's authentication hook: the stored token and the cached current user, as
 * the login, register and logout callbacks change them, and the `useAuth` guard.
 */
module UseAuth {
  import opened Common
  import opened Models

  /** The query cache entry for the current user: `undefined`, `null` or a user. */
  datatype QueryData = Undefined | Null | Loaded(user: PublicUser)

  /** What login and register answer with. */
  datatype AuthPayload = AuthPayload(user: PublicUser, token: string)

  /** The stored `auth_token` and the cached current user. */
  datatype AuthState = AuthState(token: Option<string>, data: QueryData)

  /** The callbacks of the three mutations. */
  datatype AuthEvent =
    | LoginSucceeded(payload: AuthPayload)
    | LoginFailed(message: string)
    | RegisterSucceeded(payload: AuthPayload)
    | RegisterFailed(message: string)
    | LogoutSucceeded
    | LogoutFailed(message: string)

  /**
   * The effect of one callback on the stored token and the cached user; toasts are not modelled.
   * Success stores the answer's token and exposes its user, failure changes nothing, and
   * logout, whatever the request gave, forgets both.
   */
  function Apply(s: AuthState, e: AuthEvent): (r: AuthState)
    ensures (e.LoginSucceeded? || e.RegisterSucceeded?) ==>
      r.token == Some(e.payload.token) && ExposedUser(r.data) == Some(e.payload.user)
    ensures (e.LoginFailed? || e.RegisterFailed?) ==> r == s
    ensures IsLogout(e) ==> r.token.None? && ExposedUser(r.data).None? && r.data != Undefined
  {
    match e
    case LoginSucceeded(p) => AuthState(Some(p.token), Loaded(p.user))
    case RegisterSucceeded(p) => AuthState(Some(p.token), Loaded(p.user))
    case LoginFailed(_) => s
    case RegisterFailed(_) => s
    case LogoutSucceeded => AuthState(None, Null)
    case LogoutFailed(_) => AuthState(None, Null)
  }

  predicate IsLogout(e: AuthEvent) {
    e.LogoutSucceeded? || e.LogoutFailed?
  }

  /** Login and register success both store the token and cache the user they were answered with. */
  lemma SuccessStoresSession(s: AuthState, p: AuthPayload)
    ensures Apply(s, LoginSucceeded(p)) == Apply(s, RegisterSucceeded(p)) == AuthState(Some(p.token), Loaded(p.user))
  {
  }

  /** A failed login or registration leaves the token and the user as they were. */
  lemma FailureChangesNothing(s: AuthState, m: string)
    ensures Apply(s, LoginFailed(m)) == s && Apply(s, RegisterFailed(m)) == s
  {
  }

  /** Logout ends in the same signed-out state whether the request succeeded or failed, and repeating it changes nothing. */
  lemma LogoutSignsOut(s: AuthState, e1: AuthEvent, e2: AuthEvent)
    requires IsLogout(e1) && IsLogout(e2)
    ensures Apply(s, e1) == AuthState(None, Null)
    ensures Apply(Apply(s, e1), e2) == Apply(s, e1)
  {
  }

  /** `user ?? null`: the user the provider exposes. */
  function ExposedUser(d: QueryData): (u: Option<PublicUser>)
    ensures u.Some? <==> d.Loaded?
    ensures u.Some? ==> u.value == d.user
  {
    match d
    case Loaded(user) => Some(user)
    case _ => None
  }

  /** The value the provider puts in the context (loading state, errors and mutations are not modelled). */
  datatype AuthContext = AuthContext(user: Option<PublicUser>)

  function ProvidedContext(d: QueryData): AuthContext {
    AuthContext(ExposedUser(d))
  }

  const NoProvider := "useAuth must be used within an AuthProvider"

  /** `useAuth()`: throws outside a provider, else gives the context. */
  function UseAuth(context: Option<AuthContext>): (r: Result<AuthContext>)
    ensures r.Err? <==> context.None?
    ensures r.Err? ==> r.message == NoProvider
    ensures r.Ok? ==> r.value == context.value
  {
    if context.None? then Err(NoProvider) else Ok(context.value)
  }

  /** Inside a provider the exposed user is null until the query has data, then the cached user. */
  lemma ContextUser(d: QueryData)
    ensures UseAuth(Some(ProvidedContext(d))).Ok?
    ensures d == Undefined || d == Null ==> UseAuth(Some(ProvidedContext(d))).value.user.None?
  {
  }

  /** The hook's state: `localStorage`'s `auth_token` and the query cache entry, as plain fields. */
  class AuthSession {
    var token: Option<string>
    var data: QueryData

    ghost function State(): AuthState
      reads this
    {
      AuthState(token, data)
    }

    /** A session starts with whatever token the browser kept and no user fetched yet. */
    constructor (stored: Option<string>)
      ensures State() == AuthState(stored, Undefined)
    {
      token := stored;
      data := Undefined;
    }

    method OnLoginSuccess(p: AuthPayload)
      modifies this
      ensures State() == Apply(old(State()), LoginSucceeded(p))
    {
      token := Some(p.token);
      data := Loaded(p.user);
    }

    method OnLoginError(message: string)
      ensures State() == Apply(old(State()), LoginFailed(message))
    {
    }

    method OnRegisterSuccess(p: AuthPayload)
      modifies this
      ensures State() == Apply(old(State()), RegisterSucceeded(p))
    {
      token := Some(p.token);
      data := Loaded(p.user);
    }

    method OnRegisterError(message: string)
      ensures State() == Apply(old(State()), RegisterFailed(message))
    {
    }

    method OnLogoutSuccess()
      modifies this
      ensures State() == Apply(old(State()), LogoutSucceeded)
    {
      token := None;
      data := Null;
    }

    /** Even a failed logout request removes the token locally. */
    method OnLogoutError(message: string)
      modifies this
      ensures State() == Apply(old(State()), LogoutFailed(message))
    {
      token := None;
      data := Null;
    }
  }
}
