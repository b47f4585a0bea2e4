/**
 * The agency repository after its fetches have completed: the profile
 * fallback, the softened list fetches, the dashboard aggregation and the
 * agency's bookings. Each fetch is a `Result`; the user-details lookup is a
 * map holding the lookups that succeed.
 */
module AgencyRepository {
  import opened Wrappers
  import opened Numbers
  import opened Failures
  import opened Text
  import opened Seqs
  import opened Dtos
  import opened Domain
  import opened DashboardUi
  import opened BookingJoin

  /** The profile a new agency gets when the backend has none. */
  const NewAgencyProfile: AgencyProfileDto :=
    AgencyProfileDto("Nueva Agencia", None, Some("Completa tu descripción..."), None, None, None, None, None, None)

  /** `getAgencyProfile`: a 404 becomes the new-agency profile; any other error propagates. */
  function GetAgencyProfile(fetched: Result<AgencyProfileDto>): (r: Result<AgencyProfileDto>)
    ensures fetched.Ok? ==> r == fetched
    ensures fetched.Err? && IsNotFound(fetched.error) ==> r == Ok(NewAgencyProfile)
    ensures r.Err? <==> fetched.Err? && !IsNotFound(fetched.error)
    ensures r.Err? ==> r == fetched && !IsNotFound(r.error)
  {
    match fetched
    case Ok(_) => fetched
    case Err(e) => if IsNotFound(e) then Ok(NewAgencyProfile) else fetched
  }

  /** A list fetch inside the dashboard: a 404 becomes the empty list; any other error propagates. */
  function SoftList<T>(fetched: Result<seq<T>>): (r: Result<seq<T>>)
    ensures fetched.Ok? ==> r == fetched
    ensures fetched.Err? && IsNotFound(fetched.error) ==> r == Ok([])
    ensures r.Err? <==> fetched.Err? && !IsNotFound(fetched.error)
    ensures r.Err? ==> r == fetched && !IsNotFound(r.error)
  {
    match fetched
    case Ok(_) => fetched
    case Err(e) => if IsNotFound(e) then Ok([]) else fetched
  }

  /** What the dashboard's five fetches and its user lookups returned. */
  datatype DashboardFetches = DashboardFetches(
    profile: Result<AgencyProfileDto>,
    reviews: Result<seq<ReviewDto>>,
    inquiries: Result<seq<DashboardInquiryDto>>,
    bookings: Result<seq<BookingDto>>,
    experiences: Result<seq<ExperienceSummaryDto>>,
    users: map<string, UserDetailsDto>)

  datatype AgencyDashboardData = AgencyDashboardData(agencyName: string, stats: AgencyStatsUi, recentBookings: seq<BookingUi>, recentReviews: seq<ReviewUi>)

  /** The data shown when the dashboard catches a 404. */
  const NotFoundDashboard: AgencyDashboardData := AgencyDashboardData("Agencia", DefaultStats, [], [])

  /** How many of the dashboard's items it enriches and shows. */
  const RecentCount: nat := 5

  /** An inquiry is new when it is known to be unanswered (`isAnswered == false`; null is not new). */
  function IsNewInquiry(i: DashboardInquiryDto): (r: bool)
    ensures i.isAnswered.None? ==> !r
    ensures i.isAnswered == Some(true) ==> !r
  {
    i.isAnswered == Some(false)
  }

  function BookingPrice(b: BookingDto): real {
    b.price
  }

  /** The statistics card: counts and the earnings of the joined bookings. */
  function Stats(joined: seq<BookingDto>, inquiries: seq<DashboardInquiryDto>, exps: seq<ExperienceSummaryDto>): (s: AgencyStatsUi)
    ensures s.confirmedBookings == |joined|
    ensures s.newQueries == |Filter(inquiries, IsNewInquiry)|
    ensures s.totalExperiences == |exps|
    ensures s.totalEarnings == Formatted(SumOf(joined, BookingPrice))
  {
    AgencyStatsUi(|joined|, Count(inquiries, IsNewInquiry), |exps|, Formatted(SumOf(joined, BookingPrice)))
  }

  /**
   * `Double.toInt()`: rounds toward zero and saturates at the bounds of a
   * 32-bit `Int`.
   */
  function DoubleToInt(x: real): (n: int)
    ensures MinInt <= n <= MaxInt
    ensures x <= MinInt as real ==> n == MinInt
    ensures x >= MaxInt as real ==> n == MaxInt
    ensures MinInt as real <= x <= MaxInt as real ==> (n as real) <= x < (n as real) + 1.0 || (n as real) - 1.0 < x <= (n as real)
    ensures 0.0 <= x <= MaxInt as real ==> n as real <= x < n as real + 1.0
    ensures MinInt as real <= x <= 0.0 ==> n as real - 1.0 < x <= n as real
  {
    var t: int := if x >= 0.0 then x.Floor else -((-x).Floor);
    if t < MinInt then MinInt else if t > MaxInt then MaxInt else t
  }

  /** One recent review, with its author looked up. */
  function ReviewOf(users: map<string, UserDetailsDto>, r: ReviewDto): (u: ReviewUi)
    ensures var t := TravelerOf(users, r.touristUserId); u.author == FullName(t.firstName, t.lastName)
    ensures u.comment == r.comment && u.rating == DoubleToInt(r.rating)
  {
    var t := TravelerOf(users, r.touristUserId);
    ReviewUi(FullName(t.firstName, t.lastName), r.comment, DoubleToInt(r.rating))
  }

  /** `take(5).map { ... }` over the reviews. */
  function RecentReviews(reviews: seq<ReviewDto>, users: map<string, UserDetailsDto>): (r: seq<ReviewUi>)
    ensures |r| == Min(RecentCount, |reviews|)
    ensures forall i :: 0 <= i < |r| ==> r[i] == ReviewOf(users, reviews[i])
  {
    seq(Min(RecentCount, |reviews|), i requires 0 <= i < Min(RecentCount, |reviews|) => ReviewOf(users, reviews[i]))
  }

  /** The status every dashboard booking shows. */
  const ConfirmedStatus: string := "Confirmada"

  /** One recent booking, with its traveler looked up and its experience found. */
  function BookingUiOf(users: map<string, UserDetailsDto>, exps: seq<ExperienceSummaryDto>, b: BookingDto): (u: BookingUi)
    ensures var t := TravelerOf(users, b.touristId); u.traveler == FullName(t.firstName, t.lastName)
    ensures u.experience == ExperienceTitle(exps, b.experienceId)
    ensures u.date == b.bookingDate && u.status == ConfirmedStatus
  {
    var t := TravelerOf(users, b.touristId);
    BookingUi(FullName(t.firstName, t.lastName), ExperienceTitle(exps, b.experienceId), b.bookingDate, ConfirmedStatus)
  }

  /** `take(5).map { ... }` over the joined bookings. */
  function RecentBookings(joined: seq<BookingDto>, exps: seq<ExperienceSummaryDto>, users: map<string, UserDetailsDto>): (r: seq<BookingUi>)
    ensures |r| == Min(RecentCount, |joined|)
    ensures forall i :: 0 <= i < |r| ==> r[i] == BookingUiOf(users, exps, joined[i])
  {
    seq(Min(RecentCount, |joined|), i requires 0 <= i < Min(RecentCount, |joined|) => BookingUiOf(users, exps, joined[i]))
  }

  /** The dashboard built from fetches that all succeeded (after softening). */
  function Assemble(profile: AgencyProfileDto, reviews: seq<ReviewDto>, inquiries: seq<DashboardInquiryDto>,
                    bookings: seq<BookingDto>, exps: seq<ExperienceSummaryDto>, users: map<string, UserDetailsDto>): (d: AgencyDashboardData)
    ensures d.agencyName == profile.agencyName
    ensures d.stats == Stats(JoinBookings(bookings, exps), inquiries, exps)
    ensures d.recentBookings == RecentBookings(JoinBookings(bookings, exps), exps, users)
    ensures d.recentReviews == RecentReviews(reviews, users)
  {
    var joined := JoinBookings(bookings, exps);
    AgencyDashboardData(profile.agencyName, Stats(joined, inquiries, exps), RecentBookings(joined, exps, users), RecentReviews(reviews, users))
  }

  /**
   * The body of `getDashboardData`'s try block: the awaited results in
   * order, the first error that propagates out of them, or the assembled data.
   */
  function DashboardBody(f: DashboardFetches): (r: Result<AgencyDashboardData>)
    ensures r.Err? <==> AnyHardFailure(f)
    ensures r.Err? ==> !IsNotFound(r.error)
  {
    var profile := GetAgencyProfile(f.profile);
    var reviews := SoftList(f.reviews);
    var inquiries := SoftList(f.inquiries);
    var bookings := SoftList(f.bookings);
    var exps := SoftList(f.experiences);
    if profile.Err? then Err(profile.error)
    else if reviews.Err? then Err(reviews.error)
    else if inquiries.Err? then Err(inquiries.error)
    else if bookings.Err? then Err(bookings.error)
    else if exps.Err? then Err(exps.error)
    else Ok(Assemble(profile.value, reviews.value, inquiries.value, bookings.value, exps.value, f.users))
  }

  /** `getDashboardData`: the body, with a 404 caught by the outer handler and every other error rethrown. */
  function GetDashboardData(f: DashboardFetches): (r: Result<AgencyDashboardData>)
    ensures DashboardBody(f).Ok? ==> r == DashboardBody(f)
    ensures DashboardBody(f).Err? && IsNotFound(DashboardBody(f).error) ==> r == Ok(NotFoundDashboard)
    ensures DashboardBody(f).Err? && !IsNotFound(DashboardBody(f).error) ==> r == DashboardBody(f)
  {
    var body := DashboardBody(f);
    if body.Err? && IsNotFound(body.error) then Ok(NotFoundDashboard) else body
  }

  /** A fetch failed with an error the dashboard does not soften. */
  predicate HardFailure<T>(r: Result<T>) {
    r.Err? && !IsNotFound(r.error)
  }

  predicate AnyHardFailure(f: DashboardFetches) {
    HardFailure(f.profile) || HardFailure(f.reviews) || HardFailure(f.inquiries) || HardFailure(f.bookings) || HardFailure(f.experiences)
  }

  /**
   * The dashboard fails exactly when some fetch failed with an error other
   * than 404, and then with one of those errors.
   */
  lemma DashboardFailsOnHardErrors(f: DashboardFetches)
    ensures GetDashboardData(f).Err? <==> AnyHardFailure(f)
    ensures GetDashboardData(f).Err? ==> !IsNotFound(GetDashboardData(f).error)
    ensures GetDashboardData(f).Err? ==>
      var e := GetDashboardData(f).error;
      (HardFailure(f.profile) && e == f.profile.error) || (HardFailure(f.reviews) && e == f.reviews.error)
      || (HardFailure(f.inquiries) && e == f.inquiries.error) || (HardFailure(f.bookings) && e == f.bookings.error)
      || (HardFailure(f.experiences) && e == f.experiences.error)
  {
  }

  /** The value of a fetch once the dashboard has softened a 404 to the empty list. */
  function Softened<T>(r: Result<seq<T>>): seq<T> {
    if r.Ok? then r.value else []
  }

  /**
   * When no fetch fails hard, the dashboard is assembled from the softened
   * fetches: the outer 404 fallback is never reached.
   */
  lemma DashboardAssembledWithoutHardErrors(f: DashboardFetches)
    requires !AnyHardFailure(f)
    ensures GetDashboardData(f) == Ok(Assemble(if f.profile.Ok? then f.profile.value else NewAgencyProfile,
                                               Softened(f.reviews), Softened(f.inquiries), Softened(f.bookings),
                                               Softened(f.experiences), f.users))
  {
  }

  /** A 404 on the reviews fetch gives the same dashboard as an agency with no reviews. */
  lemma ReviewsNotFoundIsEmpty(f: DashboardFetches)
    requires f.reviews.Err? && IsNotFound(f.reviews.error)
    ensures GetDashboardData(f) == GetDashboardData(f.(reviews := Ok([])))
  {
  }

  /**
   * The statistics of an assembled dashboard: joined bookings counted, new
   * inquiries counted over every inquiry, all agency experiences counted,
   * and earnings that are never negative when no price is.
   */
  lemma DashboardStats(profile: AgencyProfileDto, reviews: seq<ReviewDto>, inquiries: seq<DashboardInquiryDto>,
                       bookings: seq<BookingDto>, exps: seq<ExperienceSummaryDto>, users: map<string, UserDetailsDto>)
    ensures var s := Assemble(profile, reviews, inquiries, bookings, exps, users).stats;
            && s.confirmedBookings == |JoinBookings(bookings, exps)|
            && s.newQueries == Count(inquiries, IsNewInquiry)
            && s.totalExperiences == |exps|
            && s.totalEarnings.Formatted?
            && ((forall b :: b in bookings ==> b.price >= 0.0) ==> s.totalEarnings.amount >= 0.0)
  {
    var joined := JoinBookings(bookings, exps);
    assert forall b :: b in joined ==> b in bookings;
  }

  /**
   * On an assembled dashboard every recent booking shows "Confirmada" and the
   * title of its own experience, never the unknown-experience fallback
   * unless the agency titled an experience that way.
   */
  lemma RecentBookingsKnown(profile: AgencyProfileDto, reviews: seq<ReviewDto>, inquiries: seq<DashboardInquiryDto>,
                            bookings: seq<BookingDto>, exps: seq<ExperienceSummaryDto>, users: map<string, UserDetailsDto>)
    ensures var d := Assemble(profile, reviews, inquiries, bookings, exps, users);
            var joined := JoinBookings(bookings, exps);
            forall i :: 0 <= i < |d.recentBookings| ==>
              d.recentBookings[i].status == ConfirmedStatus
              && exists e :: e in exps && e.id == joined[i].experienceId && d.recentBookings[i].experience == e.title
  {
    var joined := JoinBookings(bookings, exps);
    forall i | 0 <= i < Min(RecentCount, |joined|)
      ensures exists e :: e in exps && e.id == joined[i].experienceId && ExperienceTitle(exps, joined[i].experienceId) == e.title
    {
      JoinedTitleKnown(bookings, exps, joined[i]);
    }
  }

  /**
   * A failed user lookup still yields the item, with the anonymous
   * traveler's name; no lookup shortens a list.
   */
  lemma FailedLookupKeepsItem(users: map<string, UserDetailsDto>, exps: seq<ExperienceSummaryDto>, b: BookingDto, r: ReviewDto)
    ensures b.touristId !in users ==> BookingUiOf(users, exps, b).traveler == "Viajero Anónimo"
    ensures r.touristUserId !in users ==> ReviewOf(users, r).author == "Viajero Anónimo"
    ensures |RecentReviews([r], users)| == 1 && |RecentBookings([b], exps, users)| == 1
  {
  }

  /** The recent lists are the first items of their sources, in order, and at most five. */
  lemma RecentArePrefixes(reviews: seq<ReviewDto>, joined: seq<BookingDto>, exps: seq<ExperienceSummaryDto>, users: map<string, UserDetailsDto>)
    ensures |RecentReviews(reviews, users)| <= RecentCount && |RecentBookings(joined, exps, users)| <= RecentCount
    ensures RecentReviews(reviews, users) == RecentReviews(reviews[..Min(RecentCount, |reviews|)], users)
    ensures RecentBookings(joined, exps, users) == RecentBookings(joined[..Min(RecentCount, |joined|)], exps, users)
  {
  }

  /** One booking of the agency, with its traveler looked up and its experience found. */
  function BookingOf(users: map<string, UserDetailsDto>, exps: seq<ExperienceSummaryDto>, b: BookingDto): (r: Booking)
    ensures var t := TravelerOf(users, b.touristId); r.travelerName == FullName(t.firstName, t.lastName) && r.travelerImage == t.avatarUrl
    ensures r.experienceName == ExperienceTitle(exps, b.experienceId)
    ensures r.date == b.bookingDate && r.people == b.numberOfPeople && r.totalPaid == b.price
  {
    var t := TravelerOf(users, b.touristId);
    Booking(FullName(t.firstName, t.lastName), t.avatarUrl, ExperienceTitle(exps, b.experienceId), b.bookingDate, b.numberOfPeople, b.price)
  }

  /**
   * `getBookingsForAgency`: every joined booking, enriched, with no cap.
   * Neither fetch is softened: any error of either propagates.
   */
  function GetBookingsForAgency(bookings: Result<seq<BookingDto>>, exps: Result<seq<ExperienceSummaryDto>>,
                                users: map<string, UserDetailsDto>): (r: Result<seq<Booking>>)
    ensures r.Err? <==> bookings.Err? || exps.Err?
    ensures r.Err? ==> (bookings.Err? && r.error == bookings.error) || (exps.Err? && r.error == exps.error)
    ensures r.Ok? ==> var joined := JoinBookings(bookings.value, exps.value);
                      |r.value| == |joined| && forall i :: 0 <= i < |joined| ==> r.value[i] == BookingOf(users, exps.value, joined[i])
  {
    if bookings.Err? then Err(bookings.error)
    else if exps.Err? then Err(exps.error)
    else
      var joined := JoinBookings(bookings.value, exps.value);
      Ok(seq(|joined|, i requires 0 <= i < |joined| => BookingOf(users, exps.value, joined[i])))
  }

  /** Each of the agency's bookings shows the title of its own experience. */
  lemma AgencyBookingKnown(bookings: seq<BookingDto>, exps: seq<ExperienceSummaryDto>, users: map<string, UserDetailsDto>, i: nat)
    requires i < |GetBookingsForAgency(Ok(bookings), Ok(exps), users).value|
    ensures var joined := JoinBookings(bookings, exps);
            i < |joined| && exists e :: e in exps && e.id == joined[i].experienceId
                                       && GetBookingsForAgency(Ok(bookings), Ok(exps), users).value[i].experienceName == e.title
  {
    var joined := JoinBookings(bookings, exps);
    assert joined[i] in joined;
    JoinedTitleKnown(bookings, exps, joined[i]);
  }
}
