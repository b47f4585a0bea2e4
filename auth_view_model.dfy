/** The sign-in and sign-up forms, the signed-in user and the one-shot navigation event. */
module AuthViewModel {
  import opened Wrappers
  import opened Failures
  import opened Text
  import opened Dtos
  import opened Domain
  import AuthRepository

  datatype AuthUiState = AuthUiState(
    email: string,
    password: string,
    name: string,
    number: string,
    confirmPassword: string,
    isAgency: bool,
    role: string,
    isLoading: bool,
    errorMessage: Option<string>,
    successMessage: Option<string>,
    currentUser: Option<User>)

  datatype AuthEvent = SignUpSuccess | SignInSuccess

  /** `AuthUiState()` */
  const InitialState: AuthUiState := AuthUiState("", "", "", "", "", false, "", false, None, None, None)

  const MissingCredentials: string := "Completa email y contraseña."
  const InvalidCredentials: string := "Credenciales inválidas. Intente de nuevo."
  const MissingFields: string := "Complete todos los campos obligatorios."
  const ShortPassword: string := "La contraseña debe tener al menos 6 caracteres."
  const PasswordMismatch: string := "Las contraseñas no coinciden."
  const AccountCreated: string := "Cuenta creada con éxito. Inicie sesión."
  const SignUpFailed: string := "Error al registrar la cuenta."
  const DefaultLastName: string := "Apellido"
  /** The placeholder tax id every agency signs up with. */
  const PlaceholderRuc: string := "12345678901"
  const MinPasswordLength: nat := 6

  /** `mapIsAgency`: the role mentions "agency" in any case. */
  function MapIsAgency(role: Option<string>): (r: bool)
    ensures role.None? ==> !r
    ensures role.Some? && |role.value| < 6 ==> !r
  {
    role.Some? && ContainsIgnoreCase(role.value, "agency")
  }

  /** A role that starts with `agency` is an agency role. */
  lemma AgencyPrefixIsAgency(role: string)
    requires "agency" <= role
    ensures MapIsAgency(Some(role))
  {
    ContainsAtStart(role, "agency");
  }

  /** The role a sign-up asks for. */
  function DesiredRole(isAgency: bool): (role: string)
    ensures isAgency ==> role == "agency"
    ensures !isAgency ==> role == "tourist"
  {
    if isAgency then "agency" else "tourist"
  }

  /** Signing up with a role and reading the role back gives the same kind of account. */
  lemma DesiredRoleMapsBack(isAgency: bool)
    ensures MapIsAgency(Some(DesiredRole(isAgency))) == isAgency
  {
    if isAgency {
      ContainsItself("agency");
    } else {
      var s := DesiredRole(false);
      forall i | 0 <= i <= |s| - |"agency"|
        ensures !MatchesAt(s, i, "agency")
      {
        assert FoldCase(s[i]) != FoldCase("agency"[0]);
      }
    }
  }

  /** The name shown for a user: the agency name, else the trimmed first and last name, a null part shown as "null". */
  function DisplayName(u: User): (r: string)
    ensures u.agencyName.Some? ==> r == u.agencyName.value
    ensures u.agencyName.None? ==> r == Trim(FullName(Render(u.firstName), Render(u.lastName)))
  {
    match u.agencyName
    case Some(n) => n
    case None => Trim(FullName(Render(u.firstName), Render(u.lastName)))
  }

  /** A user with a first and a last name that carry no surrounding whitespace is shown by their full name. */
  lemma DisplayNameOfNamedUser(u: User, first: string, last: string)
    requires u.agencyName.None? && u.firstName == Some(first) && u.lastName == Some(last)
    requires first != [] && !IsWhitespace(first[0])
    requires last != [] && !IsWhitespace(last[|last| - 1])
    ensures DisplayName(u) == FullName(first, last)
  {
    var s := FullName(first, last);
    assert s[0] == first[0] && s[|s| - 1] == last[|last| - 1];
    TrimUntrimmed(s);
  }

  /**
   * A user restored from the session store, or returned by sign-in, has no
   * names, so the name shown is "null null".
   */
  lemma StoredUserShownAsNullNull(u: User)
    requires u.firstName.None? && u.lastName.None? && u.agencyName.None?
    ensures DisplayName(u) == "null null"
  {
    var s := FullName(Render(u.firstName), Render(u.lastName));
    assert s == "null" + " " + "null";
    assert |s| == 9 && s[0] == 'n' && s[8] == 'l';
    TrimUntrimmed(s);
  }

  /** The form with a signed-in user shown. */
  function SignedIn(s: AuthUiState, user: User): (r: AuthUiState)
    ensures r.currentUser == Some(user) && r.role == user.role && r.name == DisplayName(user)
    ensures r.isAgency == MapIsAgency(Some(user.role))
    ensures r.email == s.email && r.password == s.password && r.isLoading == s.isLoading
  {
    s.(currentUser := Some(user), role := user.role, isAgency := MapIsAgency(Some(user.role)), name := DisplayName(user))
  }

  /** The first sign-up problem, checked in the order: missing field, short password, mismatch. */
  function SignUpError(s: AuthUiState): (r: Option<string>)
    ensures r.None? <==> Trim(s.name) != [] && Trim(s.email) != [] && Trim(s.number) != []
                         && Utf16Length(s.password) >= MinPasswordLength && s.password == s.confirmPassword
    ensures (Trim(s.name) == [] || Trim(s.email) == [] || Trim(s.number) == []) ==> r == Some(MissingFields)
    ensures (Trim(s.name) != [] && Trim(s.email) != [] && Trim(s.number) != [] && Utf16Length(s.password) < MinPasswordLength)
            ==> r == Some(ShortPassword)
    ensures (Trim(s.name) != [] && Trim(s.email) != [] && Trim(s.number) != [] && Utf16Length(s.password) >= MinPasswordLength
             && s.password != s.confirmPassword) ==> r == Some(PasswordMismatch)
  {
    if Trim(s.name) == [] || Trim(s.email) == [] || Trim(s.number) == [] then Some(MissingFields)
    else if Utf16Length(s.password) < MinPasswordLength then Some(ShortPassword)
    else if s.password != s.confirmPassword then Some(PasswordMismatch)
    else None
  }

  /**
   * The length check counts UTF-16 units: three characters above U+FFFF
   * make a long enough password, three others do not.
   */
  lemma PasswordLengthInUnits()
    ensures Utf16Length("\U{1F600}\U{1F600}\U{1F600}") >= MinPasswordLength
    ensures Utf16Length("abc") < MinPasswordLength
  {
    var p := "\U{1F600}\U{1F600}\U{1F600}";
    assert p[1..][1..][1..] == [];
  }

  /** The sign-up command built from a valid form. */
  function SignUpCommandOf(s: AuthUiState): (c: SignUpCommand)
    ensures c.number == Trim(s.number) && c.email == Trim(s.email) && c.password == s.password
    ensures c.rol == DesiredRole(s.isAgency)
    ensures c.agencyName == (if s.isAgency then Some(Trim(s.name)) else None)
    ensures c.ruc == (if s.isAgency then Some(PlaceholderRuc) else None)
  {
    var name := Trim(s.name);
    var parts := SplitOnce(name, ' ');
    var lastName := if |parts| > 1 then parts[1] else DefaultLastName;
    SignUpCommand(parts[0], lastName, Trim(s.number), Trim(s.email), s.password, DesiredRole(s.isAgency),
                  if s.isAgency then Some(name) else None, if s.isAgency then Some(PlaceholderRuc) else None)
  }

  /**
   * The name splits at its first space: joining the parts gives the trimmed
   * name back; a name without a space is the first name, with the default
   * last name.
   */
  lemma SignUpNameSplit(s: AuthUiState)
    ensures var c := SignUpCommandOf(s);
            ' ' !in c.firstName
            && (' ' in Trim(s.name) ==> FullName(c.firstName, c.lastName) == Trim(s.name))
            && (' ' !in Trim(s.name) ==> c.firstName == Trim(s.name) && c.lastName == DefaultLastName)
  {
  }

  /** A sign-up's first and last name is the only way to split the name at its first space. */
  lemma SignUpNameUnique(s: AuthUiState, first: string, last: string)
    requires ' ' !in first && FullName(first, last) == Trim(s.name)
    ensures SignUpCommandOf(s).firstName == first && SignUpCommandOf(s).lastName == last
  {
    SplitFullName(first, last);
  }

  /** The form after a successful sign-up: every text field cleared but the role. */
  function SignedUp(s: AuthUiState): (r: AuthUiState)
    ensures r.name == "" && r.email == "" && r.number == "" && r.password == "" && r.confirmPassword == ""
    ensures !r.isLoading && r.successMessage == Some(AccountCreated)
    ensures r.isAgency == s.isAgency && r.role == s.role && r.errorMessage == s.errorMessage && r.currentUser == s.currentUser
  {
    s.(isLoading := false, successMessage := Some(AccountCreated), name := "", email := "", number := "", password := "", confirmPassword := "")
  }

  class AuthViewModel {
    var state: AuthUiState
    var event: Option<AuthEvent>
    const repository: AuthRepository.AuthRepository

    /** The view model before the session is restored. */
    constructor (repository: AuthRepository.AuthRepository)
      ensures state == InitialState && event.None? && this.repository == repository
    {
      state := InitialState;
      event := None;
      this.repository := repository;
    }

    /** The `init` block: show the user the session store holds, if any. */
    method RestoreSession()
      modifies this
      ensures var saved := repository.CurrentUser();
              saved.None? ==> state == old(state)
      ensures var saved := repository.CurrentUser();
              saved.Some? ==> state == SignedIn(old(state), saved.value).(email := saved.value.email)
      ensures event == old(event)
    {
      var saved := repository.CurrentUser();
      if saved.Some? {
        state := SignedIn(state, saved.value).(email := saved.value.email);
      }
    }

    /** `setEmail` */
    method SetEmail(value: string)
      modifies this
      ensures state == old(state).(email := value, errorMessage := None, successMessage := None)
      ensures event == old(event)
    {
      state := state.(email := value, errorMessage := None, successMessage := None);
    }

    /** `setPassword` */
    method SetPassword(value: string)
      modifies this
      ensures state == old(state).(password := value, errorMessage := None, successMessage := None)
      ensures event == old(event)
    {
      state := state.(password := value, errorMessage := None, successMessage := None);
    }

    /** `setName` */
    method SetName(value: string)
      modifies this
      ensures state == old(state).(name := value, errorMessage := None, successMessage := None)
      ensures event == old(event)
    {
      state := state.(name := value, errorMessage := None, successMessage := None);
    }

    /** `setNumber` */
    method SetNumber(value: string)
      modifies this
      ensures state == old(state).(number := value, errorMessage := None, successMessage := None)
      ensures event == old(event)
    {
      state := state.(number := value, errorMessage := None, successMessage := None);
    }

    /** `setConfirmPassword` */
    method SetConfirmPassword(value: string)
      modifies this
      ensures state == old(state).(confirmPassword := value, errorMessage := None, successMessage := None)
      ensures event == old(event)
    {
      state := state.(confirmPassword := value, errorMessage := None, successMessage := None);
    }

    /** `setIsAgency` */
    method SetIsAgency(value: bool)
      modifies this
      ensures state == old(state).(isAgency := value, errorMessage := None, successMessage := None)
      ensures event == old(event)
    {
      state := state.(isAgency := value, errorMessage := None, successMessage := None);
    }

    /**
     * `onSignIn`, with what the sign-in service answers. Returns the command
     * sent, if the form got that far.
     */
    method OnSignIn(response: Result<AuthResponse>) returns (command: Option<SignInCommand>)
      modifies this, repository
      ensures old(state.isLoading) ==> command.None? && state == old(state) && event == old(event)
                                       && repository.prefs == old(repository.prefs)
      ensures !old(state.isLoading) && (Trim(old(state.email)) == [] || old(state.password) == []) ==>
                command.None? && state == old(state).(errorMessage := Some(MissingCredentials))
                && event == old(event) && repository.prefs == old(repository.prefs)
      ensures !old(state.isLoading) && Trim(old(state.email)) != [] && old(state.password) != [] ==>
                command == Some(SignInCommand(Trim(old(state.email)), old(state.password)))
                && var r := AuthRepository.SignInOutcome(repository.hasService, response);
                   (r.Ok? ==> state == SignedIn(old(state), r.value).(isLoading := false, email := "", password := "", errorMessage := None)
                              && event == Some(SignInSuccess)
                              && repository.prefs == AuthRepository.WithAuthData(old(repository.prefs), r.value))
                   && (r.Err? ==> state == old(state).(isLoading := false, errorMessage := Some(Message(r.error).GetOr(InvalidCredentials)))
                                  && event == old(event) && repository.prefs == old(repository.prefs))
    {
      if state.isLoading {
        return None;
      }
      var email := Trim(state.email);
      var password := state.password;
      if email == [] || password == [] {
        state := state.(errorMessage := Some(MissingCredentials));
        return None;
      }
      var c := SignInCommand(email, password);
      command := Some(c);
      SubmitSignIn(c, response);
    }

    /** What `onSignIn` does once the form is filled in: show loading, send the command, show what came back. */
    method SubmitSignIn(c: SignInCommand, response: Result<AuthResponse>)
      modifies this, repository
      ensures var r := AuthRepository.SignInOutcome(repository.hasService, response);
              (r.Ok? ==> state == SignedIn(old(state), r.value).(isLoading := false, email := "", password := "", errorMessage := None)
                         && event == Some(SignInSuccess)
                         && repository.prefs == AuthRepository.WithAuthData(old(repository.prefs), r.value))
              && (r.Err? ==> state == old(state).(isLoading := false, errorMessage := Some(Message(r.error).GetOr(InvalidCredentials)))
                             && event == old(event) && repository.prefs == old(repository.prefs))
    {
      state := state.(isLoading := true, errorMessage := None);
      var r := repository.SignIn(c, response);
      if r.Ok? {
        state := SignedIn(state, r.value).(isLoading := false, email := "", password := "", errorMessage := None);
        event := Some(SignInSuccess);
      } else {
        state := state.(isLoading := false, errorMessage := Some(Message(r.error).GetOr(InvalidCredentials)));
      }
    }

    /**
     * `onSignUp`, with the outcome of the sign-up call (`None` when it
     * succeeded). Returns the command sent, if the form was valid.
     */
    method OnSignUp(outcome: Option<Error>) returns (command: Option<SignUpCommand>)
      modifies this
      ensures old(state.isLoading) ==> command.None? && state == old(state) && event == old(event)
      ensures !old(state.isLoading) && SignUpError(old(state)).Some? ==>
                command.None? && state == old(state).(errorMessage := SignUpError(old(state))) && event == old(event)
      ensures !old(state.isLoading) && SignUpError(old(state)).None? ==>
                command == Some(SignUpCommandOf(old(state)))
                && var failure := if repository.hasService then outcome else Some(Other(Some(AuthRepository.NoServiceForSignUp)));
                   (failure.None? ==> state == SignedUp(old(state).(errorMessage := None, successMessage := None))
                                      && event == Some(SignUpSuccess))
                   && (failure.Some? ==> state == old(state).(isLoading := false, errorMessage := Some(Message(failure.value).GetOr(SignUpFailed)), successMessage := None)
                                         && event == old(event))
    {
      if state.isLoading {
        return None;
      }
      var form := state;
      var error := SignUpError(form);
      if error.Some? {
        state := state.(errorMessage := error);
        return None;
      }
      state := state.(isLoading := true, errorMessage := None, successMessage := None);
      var c := SignUpCommandOf(form);
      command := Some(c);
      var failure := repository.SignUp(c, outcome);
      if failure.None? {
        state := SignedUp(state);
        event := Some(SignUpSuccess);
      } else {
        state := state.(isLoading := false, errorMessage := Some(Message(failure.value).GetOr(SignUpFailed)));
      }
    }

    /** `logout`: the session store is cleared and the form is back to its defaults. */
    method Logout()
      modifies this, repository
      ensures state == InitialState && event == old(event)
      ensures repository.prefs == map[] && repository.CurrentUser().None?
    {
      repository.Logout();
      state := InitialState;
    }

    /** `clearSuccessMessage` */
    method ClearSuccessMessage()
      modifies this
      ensures state == old(state).(successMessage := None) && event == old(event)
    {
      state := state.(successMessage := None);
    }

    /** `clearEvent` */
    method ClearEvent()
      modifies this
      ensures state == old(state) && event.None?
    {
      event := None;
    }
  }
}
