/** `BookingRepositoryImpl.getBookingsByAgency`: the agency's bookings through the booking mapper. */
module BookingRepository {
  import opened Wrappers
  import opened Failures
  import opened Dtos
  import opened Domain
  import opened BookingJoin
  import BookingMapper
  import AgencyRepository

  /** The experience the mapper gets when the booking's experience is not among the agency's. */
  const UnknownSummary: ExperienceSummaryDto := ExperienceSummaryDto(0, UnknownExperience, 0.0)

  /** `find { ... } ?: ExperienceSummaryDto(0, "Experiencia Desconocida", 0.0)` */
  function SummaryOf(exps: seq<ExperienceSummaryDto>, id: int): (e: ExperienceSummaryDto)
    ensures id in ExperienceIds(exps) ==> e in exps && e.id == id
    ensures id !in ExperienceIds(exps) ==> e == UnknownSummary
  {
    var found := FindExperience(exps, id);
    if found.Some? then found.value else UnknownSummary
  }

  /** Every error of either fetch propagates; otherwise one booking per joined booking, in order, with no cap. */
  function GetBookingsByAgency(bookings: Result<seq<BookingDto>>, exps: Result<seq<ExperienceSummaryDto>>,
                               users: map<string, UserDetailsDto>): (r: Result<seq<Booking>>)
    ensures r.Err? <==> bookings.Err? || exps.Err?
    ensures r.Err? ==> (bookings.Err? && r.error == bookings.error) || (exps.Err? && r.error == exps.error)
    ensures r.Ok? ==> var joined := JoinBookings(bookings.value, exps.value);
                      |r.value| == |joined|
                      && forall i :: 0 <= i < |joined| ==>
                           r.value[i] == BookingMapper.ToDomain(joined[i], TravelerOf(users, joined[i].touristId), SummaryOf(exps.value, joined[i].experienceId))
  {
    if bookings.Err? then Err(bookings.error)
    else if exps.Err? then Err(exps.error)
    else
      var joined := JoinBookings(bookings.value, exps.value);
      Ok(seq(|joined|, i requires 0 <= i < |joined| =>
        var b := joined[i];
        BookingMapper.ToDomain(b, TravelerOf(users, b.touristId), SummaryOf(exps.value, b.experienceId))))
  }

  /** A booking whose traveler lookup failed names "Viajero Anónimo" with no picture; the booking is kept. */
  lemma FailedTravelerLookup(users: map<string, UserDetailsDto>, exps: seq<ExperienceSummaryDto>, b: BookingDto)
    requires b.touristId !in users
    ensures var r := BookingMapper.ToDomain(b, TravelerOf(users, b.touristId), SummaryOf(exps, b.experienceId));
            r.travelerName == "Viajero Anónimo" && r.travelerImage.None?
  {
  }

  /** For equal fetches, both repositories give the same bookings. */
  lemma SameAsAgencyRepository(bookings: Result<seq<BookingDto>>, exps: Result<seq<ExperienceSummaryDto>>, users: map<string, UserDetailsDto>)
    ensures GetBookingsByAgency(bookings, exps, users) == AgencyRepository.GetBookingsForAgency(bookings, exps, users)
  {
    if bookings.Ok? && exps.Ok? {
      var joined := JoinBookings(bookings.value, exps.value);
      var a := GetBookingsByAgency(bookings, exps, users).value;
      var b := AgencyRepository.GetBookingsForAgency(bookings, exps, users).value;
      forall i | 0 <= i < |joined|
        ensures a[i] == b[i]
      {
        JoinedTitleKnown(bookings.value, exps.value, joined[i]);
        assert joined[i].experienceId in ExperienceIds(exps.value) by {
          assert joined[i] in joined;
        }
      }
      assert a == b;
    }
  }
}
