/** The agency's experience list: loading it and the delete dialog. */
module ManageExperiencesViewModel {
  import opened Wrappers
  import opened Failures
  import opened Seqs
  import opened Dtos
  import opened Domain
  import opened Favorites

  datatype ManageExperiencesUiState = ManageExperiencesUiState(
    isLoading: bool,
    experiences: seq<Experience>,
    error: Option<string>,
    showDeleteDialog: bool,
    experienceToDelete: Option<Experience>)

  /** `ManageExperiencesUiState()` */
  const InitialState: ManageExperiencesUiState := ManageExperiencesUiState(true, [], None, false, None)

  const NoAgency: string := "No se pudo verificar la agencia."
  const LoadFailed: string := "Error al cargar las experiencias."

  /**
   * `experiences.filter { it.id != experience?.id }`: with a target, every
   * experience sharing its id goes; with none, the comparison with null
   * keeps everything.
   */
  function KeepOthers(experiences: seq<Experience>, target: Option<Experience>): (r: seq<Experience>)
    ensures target.None? ==> r == experiences
    ensures target.Some? ==> forall e :: e in r <==> e in experiences && e.id != target.value.id
    ensures IsSubsequence(r, experiences)
  {
    if target.None? then
      FilterAll(experiences, (e: Experience) => true);
      experiences
    else
      Filter(experiences, (e: Experience) => e.id != target.value.id)
  }

  /** Deleting the same experience a second time changes nothing. */
  lemma KeepOthersIdempotent(experiences: seq<Experience>, target: Option<Experience>)
    ensures KeepOthers(KeepOthers(experiences, target), target) == KeepOthers(experiences, target)
  {
    if target.Some? {
      var once := KeepOthers(experiences, target);
      FilterAll(once, (e: Experience) => e.id != target.value.id);
    }
  }

  /** Deleting keeps, in order and with their multiplicity, exactly the experiences with another id. */
  lemma KeepOthersCounts(experiences: seq<Experience>, target: Experience)
    ensures var r := KeepOthers(experiences, Some(target));
            (forall e: Experience :: e.id != target.id ==> multiset(r)[e] == multiset(experiences)[e])
            && target !in r
  {
  }

  class ManageExperiencesViewModel {
    var state: ManageExperiencesUiState
    const store: FavoriteStore

    constructor (store: FavoriteStore)
      ensures state == InitialState && this.store == store
    {
      state := InitialState;
      this.store := store;
    }

    /**
     * `loadAgencyExperiences`, with the current user and what the agency's
     * experience endpoint returned: the repository's `getExperiencesForAgency`
     * maps each record and flags it by the store; no user or a failure sets
     * an error and keeps the list.
     */
    method LoadAgencyExperiences(currentUser: Option<User>, fetched: Result<seq<ExperienceDto>>)
      modifies this
      ensures currentUser.None? ==> state == old(state).(isLoading := false, error := Some(NoAgency))
      ensures currentUser.Some? && fetched.Ok? ==>
        state == old(state).(isLoading := false, experiences := MarkFavorites(fetched.value, store.rows.Keys))
      ensures currentUser.Some? && fetched.Ok? ==> InStep(state.experiences, store.rows.Keys)
      ensures currentUser.Some? && fetched.Err? ==> state == old(state).(isLoading := false, error := Some(LoadFailed))
    {
      state := state.(isLoading := true);
      if currentUser.None? {
        state := state.(isLoading := false, error := Some(NoAgency));
        return;
      }
      if fetched.Ok? {
        state := state.(isLoading := false, experiences := MarkFavorites(fetched.value, store.rows.Keys));
        MarkFavoritesInStep(fetched.value, store.rows.Keys);
      } else {
        state := state.(isLoading := false, error := Some(LoadFailed));
      }
    }

    /** `onConfirmDelete`: the dialog closes and the target's id leaves the list. */
    method OnConfirmDelete()
      modifies this
      ensures state == old(state).(showDeleteDialog := false, experienceToDelete := None,
                                   experiences := KeepOthers(old(state).experiences, old(state).experienceToDelete))
    {
      var target := state.experienceToDelete;
      state := state.(showDeleteDialog := false, experienceToDelete := None, experiences := KeepOthers(state.experiences, target));
    }

    /** `openDeleteDialog` */
    method OpenDeleteDialog(experience: Experience)
      modifies this
      ensures state == old(state).(showDeleteDialog := true, experienceToDelete := Some(experience))
    {
      state := state.(showDeleteDialog := true, experienceToDelete := Some(experience));
    }

    /** `dismissDeleteDialog` */
    method DismissDeleteDialog()
      modifies this
      ensures state == old(state).(showDeleteDialog := false, experienceToDelete := None)
    {
      state := state.(showDeleteDialog := false, experienceToDelete := None);
    }
  }
}
