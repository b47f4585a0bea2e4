/** The app's domain records. */
module Domain {
  import opened Wrappers

  datatype Booking = Booking(travelerName: string, travelerImage: Option<string>, experienceName: string, date: string, people: int, totalPaid: real)

  datatype Experience = Experience(
    id: int,
    title: string,
    description: string,
    location: string,
    duration: int,
    price: real,
    frequencies: string,
    categoryId: int,
    categoryName: string,
    agencyName: string,
    experienceImages: seq<string>,
    includes: seq<string>,
    schedule: seq<string>,
    isFavorite: bool)

  datatype Query = Query(
    id: int,
    travelerName: Option<string>,
    travelerAvatarUrl: Option<string>,
    experienceTitle: Option<string>,
    question: string,
    askedAt: string,
    isAnswered: bool,
    answer: Option<string>,
    answeredAt: Option<string>)

  datatype User = User(
    id: string,
    email: string,
    role: string,
    token: string,
    firstName: Option<string>,
    lastName: Option<string>,
    agencyName: Option<string>)
}
