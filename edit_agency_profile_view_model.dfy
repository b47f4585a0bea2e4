/** The edit-profile form: the profile loaded into text fields and saved back as a payload. */
module EditAgencyProfileViewModel {
  import opened Wrappers
  import opened Failures
  import opened Text
  import opened Dtos
  import opened Domain
  import AgencyRepository

  datatype EditProfileUiState = EditProfileUiState(
    isLoading: bool,
    isSaving: bool,
    errorMessage: Option<string>,
    saveSuccess: bool,
    agencyName: string,
    ruc: string,
    description: string,
    avatarUrl: string,
    contactEmail: string,
    contactPhone: string,
    facebookUrl: string,
    instagramUrl: string,
    whatsappUrl: string)

  /** `EditProfileUiState()` */
  const InitialState: EditProfileUiState := EditProfileUiState(true, false, None, false, "", "", "", "", "", "", "", "", "")

  const AuthenticationError: string := "Authentication error."

  /** The form after a successful load: every missing field shows as empty text. */
  function WithProfile(s: EditProfileUiState, p: AgencyProfileDto): (r: EditProfileUiState)
    ensures r.agencyName == p.agencyName
    ensures r.ruc == NullToEmpty(p.ruc) && r.description == NullToEmpty(p.description) && r.avatarUrl == NullToEmpty(p.avatarUrl)
    ensures r.contactEmail == NullToEmpty(p.contactEmail) && r.contactPhone == NullToEmpty(p.contactPhone)
    ensures r.facebookUrl == NullToEmpty(p.socialLinkFacebook) && r.instagramUrl == NullToEmpty(p.socialLinkInstagram)
    ensures r.whatsappUrl == NullToEmpty(p.socialLinkWhatsapp)
    ensures !r.isLoading && r.isSaving == s.isSaving && r.errorMessage == s.errorMessage && r.saveSuccess == s.saveSuccess
  {
    s.(isLoading := false, agencyName := p.agencyName, ruc := NullToEmpty(p.ruc), description := NullToEmpty(p.description),
       avatarUrl := NullToEmpty(p.avatarUrl), contactEmail := NullToEmpty(p.contactEmail), contactPhone := NullToEmpty(p.contactPhone),
       facebookUrl := NullToEmpty(p.socialLinkFacebook), instagramUrl := NullToEmpty(p.socialLinkInstagram),
       whatsappUrl := NullToEmpty(p.socialLinkWhatsapp))
  }

  /** The payload `saveChanges` sends: every empty field as null, the name as it is. */
  function PayloadOf(s: EditProfileUiState): (p: UpdateAgencyProfilePayload)
    ensures p.agencyName == s.agencyName
    ensures p.ruc == EmptyToNull(s.ruc) && p.description == EmptyToNull(s.description) && p.avatarUrl == EmptyToNull(s.avatarUrl)
    ensures p.contactEmail == EmptyToNull(s.contactEmail) && p.contactPhone == EmptyToNull(s.contactPhone)
    ensures p.socialLinkFacebook == EmptyToNull(s.facebookUrl) && p.socialLinkInstagram == EmptyToNull(s.instagramUrl)
    ensures p.socialLinkWhatsapp == EmptyToNull(s.whatsappUrl)
  {
    UpdateAgencyProfilePayload(s.agencyName, EmptyToNull(s.ruc), EmptyToNull(s.description), EmptyToNull(s.avatarUrl),
                               EmptyToNull(s.contactEmail), EmptyToNull(s.contactPhone), EmptyToNull(s.facebookUrl),
                               EmptyToNull(s.instagramUrl), EmptyToNull(s.whatsappUrl))
  }

  /** A stored empty string comes back as null; everything else as it was. */
  function Normalized(field: Option<string>): (r: Option<string>)
    ensures r != Some("")
    ensures field != Some("") ==> r == field
    ensures r.None? <==> IsNullOrEmpty(field)
  {
    if field == Some("") then None else field
  }

  /** Loading a profile and saving it with no edits sends the profile back, empty strings as null. */
  lemma LoadThenSave(s: EditProfileUiState, p: AgencyProfileDto)
    ensures PayloadOf(WithProfile(s, p))
         == UpdateAgencyProfilePayload(p.agencyName, Normalized(p.ruc), Normalized(p.description), Normalized(p.avatarUrl),
                                       Normalized(p.contactEmail), Normalized(p.contactPhone), Normalized(p.socialLinkFacebook),
                                       Normalized(p.socialLinkInstagram), Normalized(p.socialLinkWhatsapp))
  {
    EmptyToNullOfNullToEmpty(p.ruc);
    EmptyToNullOfNullToEmpty(p.description);
    EmptyToNullOfNullToEmpty(p.avatarUrl);
    EmptyToNullOfNullToEmpty(p.contactEmail);
    EmptyToNullOfNullToEmpty(p.contactPhone);
    EmptyToNullOfNullToEmpty(p.socialLinkFacebook);
    EmptyToNullOfNullToEmpty(p.socialLinkInstagram);
    EmptyToNullOfNullToEmpty(p.socialLinkWhatsapp);
  }

  /** Saving a form and loading what was sent gives the same form back. */
  lemma SaveThenLoad(s: EditProfileUiState, p: AgencyProfileDto)
    requires var q := PayloadOf(s);
             p == AgencyProfileDto(q.agencyName, q.ruc, q.description, q.avatarUrl, q.contactEmail, q.contactPhone,
                                   q.socialLinkFacebook, q.socialLinkInstagram, q.socialLinkWhatsapp)
    ensures WithProfile(s, p) == s.(isLoading := false)
  {
  }

  /** `onFieldChange`'s keys and the field each one edits. */
  function WithField(s: EditProfileUiState, field: string, value: string): (r: EditProfileUiState)
    ensures field == "name" ==> r == s.(agencyName := value)
    ensures field == "ruc" ==> r == s.(ruc := value)
    ensures field == "description" ==> r == s.(description := value)
    ensures field == "avatar" ==> r == s.(avatarUrl := value)
    ensures field == "email" ==> r == s.(contactEmail := value)
    ensures field == "phone" ==> r == s.(contactPhone := value)
    ensures field == "facebook" ==> r == s.(facebookUrl := value)
    ensures field == "instagram" ==> r == s.(instagramUrl := value)
    ensures field == "whatsapp" ==> r == s.(whatsappUrl := value)
    ensures field !in {"name", "ruc", "description", "avatar", "email", "phone", "facebook", "instagram", "whatsapp"} ==> r == s
  {
    match field
    case "name" => s.(agencyName := value)
    case "ruc" => s.(ruc := value)
    case "description" => s.(description := value)
    case "avatar" => s.(avatarUrl := value)
    case "email" => s.(contactEmail := value)
    case "phone" => s.(contactPhone := value)
    case "facebook" => s.(facebookUrl := value)
    case "instagram" => s.(instagramUrl := value)
    case "whatsapp" => s.(whatsappUrl := value)
    case _ => s
  }

  /** Clearing a field in the form sends null for it and leaves the rest of the payload alone. */
  lemma ClearedFieldSendsNull(s: EditProfileUiState)
    ensures PayloadOf(WithField(s, "ruc", "")).ruc.None?
    ensures PayloadOf(WithField(s, "ruc", "")) == PayloadOf(s).(ruc := None)
  {
  }

  class EditAgencyProfileViewModel {
    var state: EditProfileUiState

    constructor ()
      ensures state == InitialState
    {
      state := InitialState;
    }

    /**
     * `loadInitialData`, with the current user and what the profile fetch
     * returned (before the repository's 404 fallback). With no user the
     * form stays loading.
     */
    method LoadInitialData(currentUser: Option<User>, fetched: Result<AgencyProfileDto>)
      modifies this
      ensures currentUser.None? ==> state == old(state).(isLoading := true)
      ensures currentUser.Some? ==>
        var r := AgencyRepository.GetAgencyProfile(fetched);
        state == if r.Ok? then WithProfile(old(state), r.value)
                 else old(state).(isLoading := false, errorMessage := Some("Failed to load data: " + Render(Message(r.error))))
    {
      state := state.(isLoading := true);
      if currentUser.Some? {
        var r := AgencyRepository.GetAgencyProfile(fetched);
        if r.Ok? {
          state := WithProfile(state, r.value);
        } else {
          state := state.(isLoading := false, errorMessage := Some("Failed to load data: " + Render(Message(r.error))));
        }
      }
    }

    /** `resetSaveSuccessFlag` */
    method ResetSaveSuccessFlag()
      modifies this
      ensures state == old(state).(saveSuccess := false)
    {
      state := state.(saveSuccess := false);
    }

    /** `onFieldChange` */
    method OnFieldChange(field: string, value: string)
      modifies this
      ensures state == WithField(old(state), field, value)
    {
      state := WithField(state, field, value);
    }

    /**
     * `saveChanges`, with the current user and the outcome of the update
     * (`None` when it succeeded). Returns the payload sent, if any. Every
     * outcome ends with saving off.
     */
    method SaveChanges(currentUser: Option<User>, outcome: Option<Error>) returns (payload: Option<UpdateAgencyProfilePayload>)
      modifies this
      ensures !state.isSaving
      ensures currentUser.None? ==> payload.None? && state == old(state).(isSaving := false, errorMessage := Some(AuthenticationError))
      ensures currentUser.Some? ==> payload == Some(PayloadOf(old(state)))
      ensures currentUser.Some? && outcome.None? ==> state == old(state).(isSaving := false, errorMessage := None, saveSuccess := true)
      ensures currentUser.Some? && outcome.Some? ==>
        state == old(state).(isSaving := false, errorMessage := Some("Error saving: " + Render(Message(outcome.value))))
    {
      state := state.(isSaving := true, errorMessage := None);
      if currentUser.None? {
        state := state.(isSaving := false, errorMessage := Some(AuthenticationError));
        return None;
      }
      var p := PayloadOf(state);
      payload := Some(p);
      if outcome.None? {
        state := state.(isSaving := false, saveSuccess := true);
      } else {
        state := state.(isSaving := false, errorMessage := Some("Error saving: " + Render(Message(outcome.value))));
      }
    }
  }
}
