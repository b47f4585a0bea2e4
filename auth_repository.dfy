/**
 * The session store: the signed-in user's token, id, role and email kept
 * under four keys of the app's private preferences, and the sign-in and
 * sign-up calls that need the authentication service.
 */
module AuthRepository {
  import opened Wrappers
  import opened Failures
  import opened Dtos
  import opened Domain

  const KeyToken: string := "auth_token"
  const KeyUserId: string := "user_id"
  const KeyUserRole: string := "user_role"
  const KeyUserEmail: string := "user_email"

  const NoServiceForSignIn: string := "AuthService no disponible para signIn."
  const NoServiceForSignUp: string := "AuthService no disponible para signUp."

  /** The four session keys and nothing else. */
  predicate IsSessionKey(k: string) {
    k == KeyToken || k == KeyUserId || k == KeyUserRole || k == KeyUserEmail
  }

  /** `saveAuthData(user)` on the preferences: the four keys hold the user's fields, every other key is kept. */
  function WithAuthData(prefs: map<string, string>, user: User): (r: map<string, string>)
    ensures r.Keys == prefs.Keys + {KeyToken, KeyUserId, KeyUserRole, KeyUserEmail}
    ensures r[KeyToken] == user.token && r[KeyUserId] == user.id
    ensures r[KeyUserRole] == user.role && r[KeyUserEmail] == user.email
    ensures forall k :: k in prefs && !IsSessionKey(k) ==> r[k] == prefs[k]
  {
    prefs[KeyToken := user.token][KeyUserId := user.id][KeyUserRole := user.role][KeyUserEmail := user.email]
  }

  /**
   * `getCurrentUser()` on the preferences: a user exactly when the token is
   * stored and not empty and the id, role and email are stored; the names
   * are never restored.
   */
  function CurrentUserIn(prefs: map<string, string>): (r: Option<User>)
    ensures r.Some? <==> KeyToken in prefs && prefs[KeyToken] != "" && KeyUserId in prefs && KeyUserRole in prefs && KeyUserEmail in prefs
    ensures r.Some? ==> r.value.token == prefs[KeyToken] && r.value.id == prefs[KeyUserId]
                        && r.value.role == prefs[KeyUserRole] && r.value.email == prefs[KeyUserEmail]
    ensures r.Some? ==> r.value.firstName.None? && r.value.lastName.None? && r.value.agencyName.None?
  {
    if KeyToken in prefs && prefs[KeyToken] != "" && KeyUserId in prefs && KeyUserRole in prefs && KeyUserEmail in prefs then
      Some(User(prefs[KeyUserId], prefs[KeyUserEmail], prefs[KeyUserRole], prefs[KeyToken], None, None, None))
    else None
  }

  /** A saved session with a token reads back as the user without names. */
  lemma RestoreAfterSave(prefs: map<string, string>, user: User)
    requires user.token != ""
    ensures CurrentUserIn(WithAuthData(prefs, user)) == Some(User(user.id, user.email, user.role, user.token, None, None, None))
  {
  }

  /** A saved session with an empty token reads back as nobody. */
  lemma EmptyTokenRestoresNobody(prefs: map<string, string>, user: User)
    requires user.token == ""
    ensures CurrentUserIn(WithAuthData(prefs, user)).None?
  {
  }

  /** Saving the same user twice stores the same as saving once; a later save of another user wins. */
  lemma SaveOverwrites(prefs: map<string, string>, first: User, second: User)
    ensures WithAuthData(WithAuthData(prefs, first), second) == WithAuthData(prefs, second)
  {
  }

  /** The user a sign-in response describes, with no names. */
  function UserOf(response: AuthResponse): (u: User)
    ensures u.id == response.id && u.email == response.email && u.role == response.rol && u.token == response.token
    ensures u.firstName.None? && u.lastName.None? && u.agencyName.None?
  {
    User(response.id, response.email, response.rol, response.token, None, None, None)
  }

  /** `signIn`: without a service it fails before calling; otherwise what the service answered. */
  function SignInOutcome(hasService: bool, response: Result<AuthResponse>): (r: Result<User>)
    ensures !hasService ==> r == Err(Other(Some(NoServiceForSignIn)))
    ensures hasService && response.Err? ==> r == Err(response.error)
    ensures hasService && response.Ok? ==> r == Ok(UserOf(response.value))
  {
    if !hasService then Err(Other(Some(NoServiceForSignIn)))
    else if response.Err? then Err(response.error)
    else Ok(UserOf(response.value))
  }

  class AuthRepository {
    /** Whether an `AuthService` was supplied. */
    const hasService: bool
    /** The "auth_prefs" preferences. */
    var prefs: map<string, string>

    constructor (hasService: bool, prefs: map<string, string>)
      ensures this.hasService == hasService && this.prefs == prefs
    {
      this.hasService := hasService;
      this.prefs := prefs;
    }

    /** `getCurrentUser()` */
    function CurrentUser(): (r: Option<User>)
      reads this
      ensures r == CurrentUserIn(prefs)
    {
      CurrentUserIn(prefs)
    }

    /** `saveAuthData` */
    method SaveAuthData(user: User)
      modifies this
      ensures prefs == WithAuthData(old(prefs), user)
      ensures user.token != "" ==> CurrentUser() == Some(User(user.id, user.email, user.role, user.token, None, None, None))
    {
      prefs := WithAuthData(prefs, user);
      if user.token != "" {
        RestoreAfterSave(old(prefs), user);
      }
    }

    /**
     * `signIn`, with what the service answered: the user is saved only when
     * the call succeeded.
     */
    method SignIn(command: SignInCommand, response: Result<AuthResponse>) returns (r: Result<User>)
      modifies this
      ensures r == SignInOutcome(hasService, response)
      ensures r.Ok? ==> prefs == WithAuthData(old(prefs), r.value)
      ensures r.Err? ==> prefs == old(prefs)
    {
      if !hasService {
        return Err(Other(Some(NoServiceForSignIn)));
      }
      if response.Err? {
        return Err(response.error);
      }
      var user := UserOf(response.value);
      SaveAuthData(user);
      r := Ok(user);
    }

    /**
     * `signUp`, with what the service answered (`None` when it succeeded):
     * the failure, if any. The store is never touched.
     */
    method SignUp(command: SignUpCommand, outcome: Option<Error>) returns (failure: Option<Error>)
      ensures !hasService ==> failure == Some(Other(Some(NoServiceForSignUp)))
      ensures hasService ==> failure == outcome
    {
      if !hasService {
        return Some(Other(Some(NoServiceForSignUp)));
      }
      failure := outcome;
    }

    /** `logout`: the whole store is cleared, so nobody is signed in. */
    method Logout()
      modifies this
      ensures prefs == map[]
      ensures CurrentUser().None?
    {
      prefs := map[];
    }
  }
}
