/** The agency dashboard screen: loading the aggregated data into the UI state. */
module AgencyDashboardViewModel {
  import opened Wrappers
  import opened Failures
  import opened Domain
  import opened DashboardUi
  import AgencyRepository

  datatype AgencyDashboardUiState = AgencyDashboardUiState(
    isLoading: bool,
    errorMessage: Option<string>,
    agencyName: string,
    stats: AgencyStatsUi,
    recentBookings: seq<BookingUi>,
    recentReviews: seq<ReviewUi>)

  /** `AgencyDashboardUiState()` */
  const InitialState: AgencyDashboardUiState := AgencyDashboardUiState(true, None, "", DefaultStats, [], [])

  const NotAuthenticated: string := "Error: Usuario no autenticado."
  const LoadFailed: string := "No se pudieron cargar los datos del dashboard."

  /** The dashboard starts loading, with zero statistics and no items. */
  lemma InitialStateIsEmpty()
    ensures InitialState.isLoading && InitialState.errorMessage.None?
    ensures InitialState.stats.confirmedBookings == 0 && InitialState.stats.newQueries == 0 && InitialState.stats.totalExperiences == 0
    ensures InitialState.stats.totalEarnings == Literal("S/ 0.00")
    ensures InitialState.recentBookings == [] && InitialState.recentReviews == []
  {
  }

  class AgencyDashboardViewModel {
    var state: AgencyDashboardUiState

    constructor ()
      ensures state == InitialState
    {
      state := InitialState;
    }

    /** The first step of `loadDashboardData`: loading, with no error. */
    method StartLoading()
      modifies this
      ensures state == old(state).(isLoading := true, errorMessage := None)
    {
      state := state.(isLoading := true, errorMessage := None);
    }

    /**
     * `loadDashboardData`, with the current user and what the repository's
     * fetches returned. No user or a failure sets an error and keeps the
     * shown data; a success copies the four data fields.
     */
    method LoadDashboardData(currentUser: Option<User>, fetches: AgencyRepository.DashboardFetches)
      modifies this
      ensures currentUser.None? ==> state == old(state).(isLoading := false, errorMessage := Some(NotAuthenticated))
      ensures currentUser.Some? ==>
        var r := AgencyRepository.GetDashboardData(fetches);
        state == if r.Ok? then old(state).(isLoading := false, errorMessage := None, agencyName := r.value.agencyName,
                                           stats := r.value.stats, recentBookings := r.value.recentBookings,
                                           recentReviews := r.value.recentReviews)
                 else old(state).(isLoading := false, errorMessage := Some(LoadFailed))
    {
      StartLoading();
      if currentUser.None? {
        state := state.(isLoading := false, errorMessage := Some(NotAuthenticated));
        return;
      }
      var r := AgencyRepository.GetDashboardData(fetches);
      if r.Ok? {
        var data := r.value;
        state := state.(isLoading := false, agencyName := data.agencyName, stats := data.stats,
                        recentBookings := data.recentBookings, recentReviews := data.recentReviews);
      } else {
        state := state.(isLoading := false, errorMessage := Some(LoadFailed));
      }
    }
  }
}
