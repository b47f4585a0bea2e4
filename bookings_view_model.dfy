/** The agency's bookings screen: the loaded bookings, the search box and the income total. */
module BookingsViewModel {
  import opened Wrappers
  import opened Failures
  import opened Text
  import opened Seqs
  import opened Dtos
  import opened Domain
  import AgencyRepository

  datatype BookingsUiState = BookingsUiState(isLoading: bool, bookings: seq<Booking>, searchQuery: string, errorMessage: Option<string>)

  /** `BookingsUiState()` */
  const InitialState: BookingsUiState := BookingsUiState(true, [], "", None)

  const NotAuthenticated: string := "Error: Usuario no autenticado."
  const LoadFailed: string := "No se pudieron cargar las reservas."

  function TotalPaid(b: Booking): real {
    b.totalPaid
  }

  /** `totalIncome`: the sum paid over every loaded booking, whatever the search. */
  function TotalIncome(s: BookingsUiState): (total: real)
    ensures (forall b :: b in s.bookings ==> b.totalPaid >= 0.0) ==> total >= 0.0
  {
    SumOf(s.bookings, TotalPaid)
  }

  /** A booking matches the search when its traveler or its experience contains the text, ignoring case. */
  predicate MatchesSearch(b: Booking, query: string) {
    ContainsIgnoreCase(b.travelerName, query) || ContainsIgnoreCase(b.experienceName, query)
  }

  /** `filteredBookings` */
  function FilteredBookings(s: BookingsUiState): (r: seq<Booking>)
    ensures IsBlank(s.searchQuery) ==> r == s.bookings
    ensures !IsBlank(s.searchQuery) ==> forall b :: b in r <==> b in s.bookings && MatchesSearch(b, s.searchQuery)
    ensures IsSubsequence(r, s.bookings) && |r| <= |s.bookings|
  {
    if IsBlank(s.searchQuery) then
      FilterAll(s.bookings, (b: Booking) => true);
      s.bookings
    else Filter(s.bookings, (b: Booking) => MatchesSearch(b, s.searchQuery))
  }

  /**
   * The income splits between the bookings the search shows and those it
   * hides, and it does not change with the search text.
   */
  lemma TotalIncomeSplitsBySearch(s: BookingsUiState, query: string)
    requires !IsBlank(query)
    ensures var shown := FilteredBookings(s.(searchQuery := query));
            var hidden := Filter(s.bookings, (b: Booking) => !MatchesSearch(b, query));
            SumOf(shown, TotalPaid) + SumOf(hidden, TotalPaid) == TotalIncome(s)
    ensures TotalIncome(s.(searchQuery := query)) == TotalIncome(s)
  {
    var p := (b: Booking) => MatchesSearch(b, query);
    assert FilteredBookings(s.(searchQuery := query)) == Filter(s.bookings, p);
    SumOfFilterSplit(s.bookings, TotalPaid, p, (b: Booking) => !MatchesSearch(b, query));
  }

  class BookingsViewModel {
    var state: BookingsUiState

    constructor ()
      ensures state == InitialState
    {
      state := InitialState;
    }

    /**
     * `loadBookings`, with the current user and what the repository's fetches
     * returned: no user stops with an error; a success replaces the bookings
     * and leaves any earlier error in place; a failure keeps the bookings.
     */
    method LoadBookings(currentUser: Option<User>, bookings: Result<seq<BookingDto>>,
                        exps: Result<seq<ExperienceSummaryDto>>, users: map<string, UserDetailsDto>)
      modifies this
      ensures currentUser.None? ==> state == old(state).(isLoading := false, errorMessage := Some(NotAuthenticated))
      ensures currentUser.Some? ==>
        var r := AgencyRepository.GetBookingsForAgency(bookings, exps, users);
        state == if r.Ok? then old(state).(isLoading := false, bookings := r.value)
                 else old(state).(isLoading := false, errorMessage := Some(LoadFailed))
    {
      state := state.(isLoading := true);
      if currentUser.None? {
        state := state.(isLoading := false, errorMessage := Some(NotAuthenticated));
        return;
      }
      var r := AgencyRepository.GetBookingsForAgency(bookings, exps, users);
      if r.Ok? {
        state := state.(isLoading := false, bookings := r.value);
      } else {
        state := state.(isLoading := false, errorMessage := Some(LoadFailed));
      }
    }

    /** `onSearchQueryChanged`: only the search text changes. */
    method OnSearchQueryChanged(query: string)
      modifies this
      ensures state == old(state).(searchQuery := query)
    {
      state := state.(searchQuery := query);
    }
  }
}
