/** Building a domain `Booking` from a booking, its traveler and its experience. */
module BookingMapper {
  import opened Wrappers
  import opened Text
  import opened Dtos
  import opened Domain

  /** `BookingDto.toDomain(traveler, experience)` */
  function ToDomain(b: BookingDto, traveler: UserDetailsDto, experience: ExperienceSummaryDto): (r: Booking)
    ensures r.travelerName == FullName(traveler.firstName, traveler.lastName)
    ensures r.travelerImage == traveler.avatarUrl
    ensures r.experienceName == experience.title
    ensures r.date == b.bookingDate && r.people == b.numberOfPeople && r.totalPaid == b.price
  {
    Booking(FullName(traveler.firstName, traveler.lastName), traveler.avatarUrl, experience.title, b.bookingDate, b.numberOfPeople, b.price)
  }

  /**
   * The booking does not depend on the traveler's phone number, on the
   * experience's id or price, or on the booking's own id and tourist id.
   */
  lemma ToDomainIgnores(b: BookingDto, traveler: UserDetailsDto, experience: ExperienceSummaryDto,
                        number: Option<string>, expId: int, expPrice: real, id: int, touristId: string)
    ensures ToDomain(b, traveler, experience)
         == ToDomain(b.(id := id, touristId := touristId), traveler.(number := number), experience.(id := expId, price := expPrice))
  {
  }

  /** The traveler's first and last name can be read back from the booking when the first name has no space. */
  lemma TravelerNameSplits(b: BookingDto, traveler: UserDetailsDto, experience: ExperienceSummaryDto)
    requires ' ' !in traveler.firstName
    ensures SplitOnce(ToDomain(b, traveler, experience).travelerName, ' ') == [traveler.firstName, traveler.lastName]
  {
    SplitFullName(traveler.firstName, traveler.lastName);
  }
}
