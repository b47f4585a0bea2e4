/** The records the backend sends and receives, with the fields the app reads or writes. */
module Dtos {
  import opened Wrappers

  /** The agency profile, with the nine fields the repository fills and the edit screen reads. */
  datatype AgencyProfileDto = AgencyProfileDto(
    agencyName: string,
    ruc: Option<string>,
    description: Option<string>,
    avatarUrl: Option<string>,
    contactEmail: Option<string>,
    contactPhone: Option<string>,
    socialLinkFacebook: Option<string>,
    socialLinkInstagram: Option<string>,
    socialLinkWhatsapp: Option<string>)

  datatype ReviewDto = ReviewDto(id: int, touristUserId: string, agencyUserId: string, comment: string, rating: real)

  /** The inquiry as the dashboard reads it: only whether it was answered, which may be missing. */
  datatype DashboardInquiryDto = DashboardInquiryDto(id: int, isAnswered: Option<bool>)

  datatype BookingDto = BookingDto(id: int, touristId: string, experienceId: int, price: real, bookingDate: string, numberOfPeople: int)

  datatype ExperienceSummaryDto = ExperienceSummaryDto(id: int, title: string, price: real)

  datatype UserDetailsDto = UserDetailsDto(firstName: string, lastName: string, number: Option<string>, avatarUrl: Option<string>)

  /** The inquiry as the inquiry mapper reads it. */
  datatype InquiryDto = InquiryDto(
    id: int,
    experienceTitle: string,
    travelerName: string,
    travelerAvatarUrl: Option<string>,
    question: string,
    askedAt: string,
    isAnswered: bool,
    answer: Option<string>)

  datatype Agency = Agency(
    agencyName: string,
    avatarUrl: string,
    contactEmail: string,
    contactPhone: string,
    description: string,
    rating: int,
    reservationCount: int,
    reviewCount: int,
    ruc: string,
    socialLinkFacebook: string,
    socialLinkInstagram: string,
    socialLinkWhatsapp: string,
    userId: string)

  datatype Category = Category(name: string)
  datatype ExperienceImage = ExperienceImage(url: string)
  datatype Include = Include(description: string)
  datatype Schedule = Schedule(time: string)

  datatype ExperienceDto = ExperienceDto(
    agency: Agency,
    category: Category,
    categoryId: int,
    description: string,
    duration: int,
    experienceImages: seq<ExperienceImage>,
    frequencies: string,
    id: int,
    includes: seq<Include>,
    location: string,
    price: real,
    schedule: seq<Schedule>,
    title: string)

  /** The row of the local favourites table. */
  datatype FavoriteExperienceEntity = FavoriteExperienceEntity(
    id: int,
    title: string,
    description: string,
    location: string,
    duration: int,
    price: real,
    categoryName: string,
    agencyName: string)

  datatype CreateExperienceCommand = CreateExperienceCommand(
    title: string,
    description: string,
    location: string,
    duration: int,
    price: real,
    frequencies: string,
    schedules: seq<Schedule>,
    experienceImages: seq<ExperienceImage>,
    includes: seq<Include>,
    categoryId: int,
    agencyUserId: string)

  datatype UpdateAgencyProfilePayload = UpdateAgencyProfilePayload(
    agencyName: string,
    ruc: Option<string>,
    description: Option<string>,
    avatarUrl: Option<string>,
    contactEmail: Option<string>,
    contactPhone: Option<string>,
    socialLinkFacebook: Option<string>,
    socialLinkInstagram: Option<string>,
    socialLinkWhatsapp: Option<string>)

  datatype SignInCommand = SignInCommand(email: string, password: string)

  datatype SignUpCommand = SignUpCommand(
    firstName: string,
    lastName: string,
    number: string,
    email: string,
    password: string,
    rol: string,
    agencyName: Option<string>,
    ruc: Option<string>)

  /** What the sign-in endpoint answers. */
  datatype AuthResponse = AuthResponse(id: string, email: string, rol: string, token: string)

  datatype CreateResponseCommand = CreateResponseCommand(inquiryId: int, responderId: string, answer: string, answeredAt: string)
}
