# TripMatch core, modelled in Dafny

TripMatch is an Android app that connects travel agencies with tourists. This project models the logic under its screens:

- **The agency aggregation in `AgencyRepository`.**
  - It fetches the agency profile, reviews, inquiries, bookings and experiences.
  - It joins bookings to the agency's own experiences by experience id. There is no join in the backend.
  - It computes the dashboard statistics.
  - It enriches the five most recent reviews and bookings with a per-item user lookup. A failed lookup falls back to "Viajero Anónimo".
  - A "not found" (HTTP 404) becomes a default profile or an empty list. Any other failure propagates.
- **The same join in `BookingRepositoryImpl`,** and the DTO-to-domain mappers for bookings, inquiries and experiences.
- **The view models.** Each one holds a UI-state record and changes it in small steps:
  - agency dashboard, bookings list and queries (the inquiry response dialog);
  - experience creation, experience management (the delete dialog) and profile editing;
  - sign-in and sign-up;
  - the tourist dashboard and the experience list, with favourite toggling.
- **The inquiry filter and the response-dialog predicates of the queries screen.**
- **The session store of `AuthRepository`,** a key-value store holding the token, user id, role and e-mail.

Every fetch is modelled as an already completed result. A `Result<T>` is either `Ok(value)` or `Err(error)`. An `Error` is either an HTTP error carrying its code, status and body, or any other exception with its optional message. A user lookup is a `map` from user id to user details, where a missing key means the lookup threw. Money is a `real`.

Each view model is a `class` with one state field, or with the fields the source assigns. Each operation is a `method` whose `modifies` clause names that state, and whose outcome parameter carries what the asynchronous call returned. The favourites table is a `FavoriteStore` object holding a `map` from experience id to its stored row, shared by the view models that use it. The session store is a `map<string, string>` field of the `AuthRepository` class.

Where declarations and uses disagree, the model follows the code that runs:

- `getDashboardData` rethrows every error that is not a 404 (`AgencyRepository.kt:119-126`). It does not turn a failure into a degraded snapshot. Its own 404 fallback is unreachable, because every inner fetch already turns a 404 into a default. `AgencyRepository.DashboardAssembledWithoutHardErrors` and `AgencyRepository.DashboardFailsOnHardErrors` state both facts.
- `AgencyProfileDto` is declared with four fields (`data/model/AgencyDtos.kt:3-8`). The repository builds it with nine (`AgencyRepository.kt:35`) and the edit screen reads all nine, so the model has nine.
- `InquiryMapper` reads `isAnswered` and `answer`. Neither inquiry DTO declares `answer`, so the model's `InquiryDto` has the fields the mapper reads.
- `ExperienceRepository.getFavorites` reads entity fields that `FavoriteExperienceEntity` does not have. The model ties each loaded favourite to its row only on the table's eight columns and leaves the other fields open.
- `Category`, `ExperienceImage`, `Include`, `Schedule` and the sign-in response are not part of this model's source files. They have the fields the code uses.

Two consequences of the code as written are proved here:

- A user restored from the session store, or returned by sign-in, has no first name, last name or agency name. The sign-in screen therefore shows that user's name as `"null null"` (`AuthViewModel.StoredUserShownAsNullNull`).
- The tourist dashboard greets every such user as "Turista" (`TouristDashboardViewModel.RestoredUserIsTurista`).

`ManageExperiencesViewModel.onConfirmDelete` only removes the experience from the list. It calls no backend.

## Model

Paths are relative to the repository root.

| member | source | states |
|---|---|---|
| Text.EmptyToNullOfNullToEmpty | app/src/main/java/pe/edu/upc/tripmatch/presentation/viewmodel/EditAgencyProfileViewModel.kt:98-105 | `ifEmpty { null }` after `?: ""` gives back the original optional string, except that a stored "" comes back as null |
| Text.TrimInside | app/src/main/java/pe/edu/upc/tripmatch/presentation/viewmodel/AuthViewModel.kt:79 | `trim()` keeps a stretch of the input with only whitespace before and after it, and that stretch neither starts nor ends with whitespace |
| Text.TrimStartDrops | app/src/main/java/pe/edu/upc/tripmatch/presentation/viewmodel/AuthViewModel.kt:79 | dropping the leading whitespace removes a blank prefix and leaves a suffix that does not start with whitespace |
| Text.TrimEndDrops | app/src/main/java/pe/edu/upc/tripmatch/presentation/viewmodel/AuthViewModel.kt:79 | dropping the trailing whitespace removes a blank suffix and leaves a prefix that does not end with whitespace |
| Text.TrimUntrimmed | app/src/main/java/pe/edu/upc/tripmatch/presentation/viewmodel/AuthViewModel.kt:52 | trimming a string with no whitespace at either end leaves it unchanged |
| Text.BlankIffTrimEmpty | app/src/main/java/pe/edu/upc/tripmatch/presentation/viewmodel/AuthViewModel.kt:79-82 | a string trims to empty exactly when it is blank |
| Text.SplitOnce | app/src/main/java/pe/edu/upc/tripmatch/presentation/viewmodel/AuthViewModel.kt:143 | `split(sep, limit = 2)` gives one part (the whole string) exactly when the separator is absent, otherwise two parts that rejoin to the input with no separator in the first |
| Text.SplitOnceUnique | app/src/main/java/pe/edu/upc/tripmatch/presentation/viewmodel/AuthViewModel.kt:143-145 | any two strings joined by the separator, the first one free of it, are the split's result |
| Text.FirstWord | app/src/main/java/pe/edu/upc/tripmatch/presentation/viewmodel/TouristDashboardViewModel.kt:40 | the first word is the longest space-free prefix: it holds no space and is followed by a space or the end |
| Text.SplitFullName | app/src/main/java/pe/edu/upc/tripmatch/data/model/BookingMapper.kt:7 | splitting "first last" at the first space gives back the first and last names when the first name has no space |
| Text.FullNameOfSplit | app/src/main/java/pe/edu/upc/tripmatch/presentation/viewmodel/AuthViewModel.kt:143-145 | a string with a space is the full name of its two split parts |
| Text.Utf16Units | app/src/main/java/pe/edu/upc/tripmatch/presentation/viewmodel/AuthViewModel.kt:131 | a character up to U+FFFF is one unit and is not a surrogate; any other is a high and a low surrogate that decode back to it |
| Text.Utf16Length | app/src/main/java/pe/edu/upc/tripmatch/presentation/viewmodel/AuthViewModel.kt:131 | Kotlin's `length` is the size of the UTF-16 encoding, between the number of characters and twice that |
| Text.Utf16LengthOfBmp | app/src/main/java/pe/edu/upc/tripmatch/presentation/viewmodel/AuthViewModel.kt:131 | `length` equals the number of characters when no character is above U+FFFF |
| Text.Utf16Take | app/src/main/java/pe/edu/upc/tripmatch/presentation/view/QueriesScreen.kt:306-308 | the result is the longest prefix of whole characters that fits in the given number of units |
| Text.Utf16TakeOfBmp | app/src/main/java/pe/edu/upc/tripmatch/presentation/view/QueriesScreen.kt:306-308 | on text with no character above U+FFFF, taking n units takes the first n characters |
| Text.ContainsAtStart | app/src/main/java/pe/edu/upc/tripmatch/presentation/view/QueriesScreen.kt:48-49 | a string contains each of its prefixes, ignoring case |
| Numbers.ParseInt | app/src/main/java/pe/edu/upc/tripmatch/presentation/viewmodel/CreateExperienceViewModel.kt:111 | `toIntOrNull` accepts only an optional sign followed by digits, yields values in the 32-bit range only, non-negative without a '-', and reads plain digits in range as their value |
| Numbers.ParseIntOfNatToString | app/src/main/java/pe/edu/upc/tripmatch/presentation/viewmodel/CreateExperienceViewModel.kt:111 | parsing the decimal rendering of a number in range gives that number back |
| Numbers.ParseIntOfSigned | app/src/main/java/pe/edu/upc/tripmatch/presentation/viewmodel/CreateExperienceViewModel.kt:111 | '-' before a rendered number negates it down to the smallest `Int` and '+' keeps it up to the largest; one past either bound is null |
| Numbers.ParseDecimal | app/src/main/java/pe/edu/upc/tripmatch/presentation/viewmodel/CreateExperienceViewModel.kt:101-112 | `toDoubleOrNull` succeeds exactly when, after dropping padding at both ends and one type suffix, the text is digits with at most one point, an optional leading sign and at least one digit; a success implies the input holds a digit |
| Numbers.ParseUnsignedShape | app/src/main/java/pe/edu/upc/tripmatch/presentation/viewmodel/CreateExperienceViewModel.kt:101-112 | unsigned decimal text reads as a number exactly when it has digits and at most one point, with at least one digit |
| Numbers.ParseDecimalOfDigits | app/src/main/java/pe/edu/upc/tripmatch/presentation/viewmodel/CreateExperienceViewModel.kt:101-112 | `toDoubleOrNull` on a string of digits is the number those digits denote |
| Numbers.TrimLeadingPaddingDrops | app/src/main/java/pe/edu/upc/tripmatch/presentation/viewmodel/CreateExperienceViewModel.kt:112 | the padding `toDoubleOrNull` skips in front is exactly a run of characters up to U+0020, and the rest does not start with one |
| Numbers.TrimTrailingPaddingDrops | app/src/main/java/pe/edu/upc/tripmatch/presentation/viewmodel/CreateExperienceViewModel.kt:112 | the padding skipped at the end is exactly a run of characters up to U+0020, and the rest does not end with one |
| Numbers.ParseDecimalPadded | app/src/main/java/pe/edu/upc/tripmatch/presentation/viewmodel/CreateExperienceViewModel.kt:112 | any run of padding before decimal text, and one optional f/F/d/D suffix and any run of padding after it, leave its value unchanged; digit text keeps its integer value |
| Seqs.Filter | app/src/main/java/pe/edu/upc/tripmatch/data/repository/AgencyRepository.kt:66 | `filter` keeps, in order, exactly the elements satisfying the predicate, each as often as it occurs |
| Seqs.Count | app/src/main/java/pe/edu/upc/tripmatch/data/repository/AgencyRepository.kt:67 | `count` is the length of the matching filter |
| Seqs.SumOf | app/src/main/java/pe/edu/upc/tripmatch/data/repository/AgencyRepository.kt:68 | `sumOf` over non-negative values is non-negative |
| Seqs.FilterSplit | app/src/main/java/pe/edu/upc/tripmatch/presentation/view/QueriesScreen.kt:41-52 | the elements one predicate keeps split into those a second predicate keeps and those it rejects |
| Seqs.SumOfFilterSplit | app/src/main/java/pe/edu/upc/tripmatch/presentation/viewmodel/BookingsViewModel.kt:18-29 | a sum over a list is the sum over the kept elements plus the sum over the rejected ones |
| StringOrder.Sort | app/src/main/java/pe/edu/upc/tripmatch/presentation/viewmodel/CreateExperienceViewModel.kt:65 | `sorted()` returns an ascending permutation of its input, ascending in `compareTo` order (by UTF-16 code unit) |
| StringOrder.LeIsUtf16Order | app/src/main/java/pe/edu/upc/tripmatch/presentation/viewmodel/CreateExperienceViewModel.kt:65 | the order used for sorting is exactly the lexicographic order of the strings' UTF-16 encodings, a proper prefix first |
| StringOrder.SupplementaryBeforePrivateUse | app/src/main/java/pe/edu/upc/tripmatch/presentation/viewmodel/CreateExperienceViewModel.kt:65 | a character above U+FFFF sorts before U+E000 though its code point is larger, as `compareTo` does |
| StringOrder.InsertSorted | app/src/main/java/pe/edu/upc/tripmatch/presentation/viewmodel/CreateExperienceViewModel.kt:65 | inserting a string into an ascending list keeps it ascending |
| StringOrder.LeReflexive | app/src/main/java/pe/edu/upc/tripmatch/presentation/viewmodel/CreateExperienceViewModel.kt:65 | every string is at or below itself in `compareTo` order |
| StringOrder.LeAntisymmetric | app/src/main/java/pe/edu/upc/tripmatch/presentation/viewmodel/CreateExperienceViewModel.kt:65 | two strings each at or below the other are equal |
| StringOrder.LeTransitive | app/src/main/java/pe/edu/upc/tripmatch/presentation/viewmodel/CreateExperienceViewModel.kt:65 | the `compareTo` order is transitive |
| StringOrder.LeTotal | app/src/main/java/pe/edu/upc/tripmatch/presentation/viewmodel/CreateExperienceViewModel.kt:65 | any two strings are comparable |
| StringOrder.SortedUnique | app/src/main/java/pe/edu/upc/tripmatch/presentation/viewmodel/CreateExperienceViewModel.kt:65 | two ascending lists holding the same strings are equal, so the sorted result is determined by its contents |
| StringOrder.RemoveFirst | app/src/main/java/pe/edu/upc/tripmatch/presentation/viewmodel/CreateExperienceViewModel.kt:61 | `list - x` drops the first occurrence of x and keeps the rest in order, removes one x from the contents, and leaves a list without x unchanged |
| StringOrder.RemoveFirstSorted | app/src/main/java/pe/edu/upc/tripmatch/presentation/viewmodel/CreateExperienceViewModel.kt:61-65 | removing an element keeps an ascending list ascending |
| BookingMapper.ToDomain | app/src/main/java/pe/edu/upc/tripmatch/data/model/BookingMapper.kt:5-14 | the booking's traveler name is "first last", its image is the traveler's avatar, its experience name is the title, and date, people and total are copied |
| BookingMapper.ToDomainIgnores | app/src/main/java/pe/edu/upc/tripmatch/data/model/BookingMapper.kt:5-14 | the result does not depend on the traveler's number, the experience's id or the experience's price |
| BookingMapper.TravelerNameSplits | app/src/main/java/pe/edu/upc/tripmatch/data/model/BookingMapper.kt:7 | the traveler name splits back into first and last name when the first name has no space |
| InquiryMapper.ToDomain | app/src/main/java/pe/edu/upc/tripmatch/data/model/InquiryMapper.kt:7-19 | a blank traveler name becomes "Unknown" and a blank title "Título desconocido"; `answeredAt` is null; the other fields are copied |
| InquiryMapper.ToDomainNeverBlank | app/src/main/java/pe/edu/upc/tripmatch/data/model/InquiryMapper.kt:10-12 | a mapped inquiry always has a non-blank traveler name and title |
| InquiryMapper.ToDomainIdempotent | app/src/main/java/pe/edu/upc/tripmatch/data/model/InquiryMapper.kt:7-19 | mapping the mapped fields again changes nothing |
| ExperienceMapper.ToDomain | app/src/main/java/pe/edu/upc/tripmatch/data/model/ExperienceMapper.kt:7-21 | scalar fields are copied, category and agency names are taken from the nested records, images, includes and schedule are projected element-wise, and the result is not a favourite |
| ExperienceMapper.ToEntity | app/src/main/java/pe/edu/upc/tripmatch/data/model/ExperienceMapper.kt:23-32 | the entity copies id, title, description, location, duration, price, category name and agency name |
| ExperienceMapper.ToEntityOfToDomain | app/src/main/java/pe/edu/upc/tripmatch/data/model/ExperienceMapper.kt:7-32 | the favourite row of a fetched experience holds the DTO's id, title, description, location, duration, price, category name and agency name |
| ExperienceMapper.ToEntityIgnores | app/src/main/java/pe/edu/upc/tripmatch/data/model/ExperienceMapper.kt:23-32 | the entity does not depend on the favourite flag, frequencies, category id or the three lists |
| ExperienceMapper.ToDomainInjectiveOnLists | app/src/main/java/pe/edu/upc/tripmatch/data/model/ExperienceMapper.kt:18-20 | two DTOs that map to the same domain experience have element-wise equal schedule, include and image lists |
| BookingJoin.ExperienceIds | app/src/main/java/pe/edu/upc/tripmatch/data/repository/AgencyRepository.kt:65 | the id set holds exactly the ids of the agency's experiences |
| BookingJoin.JoinBookings | app/src/main/java/pe/edu/upc/tripmatch/data/repository/AgencyRepository.kt:65-66 | the joined bookings are, in source order and with their multiplicity, exactly those whose experience id is in the agency's set |
| BookingJoin.FindExperience | app/src/main/java/pe/edu/upc/tripmatch/data/repository/AgencyRepository.kt:102 | `find` returns the first experience with the id, and finds one exactly when the id is in the set |
| BookingJoin.TravelerOf | app/src/main/java/pe/edu/upc/tripmatch/data/repository/AgencyRepository.kt:97-101 | a successful lookup returns the user's details and a failed one the "Viajero Anónimo" placeholder |
| BookingJoin.ExperienceTitle | app/src/main/java/pe/edu/upc/tripmatch/data/repository/AgencyRepository.kt:102-106 | a known id gives the title of an experience with that id, an unknown one "Experiencia Desconocida" |
| BookingJoin.JoinedTitleKnown | app/src/main/java/pe/edu/upc/tripmatch/data/repository/AgencyRepository.kt:102-106 | every joined booking finds its experience, so the unknown-experience title is never produced |
| Failures.IsNotFound | app/src/main/java/pe/edu/upc/tripmatch/data/repository/AgencyRepository.kt:27 | only an HTTP error can be a not-found error; a plain exception never is |
| Failures.NotFoundMessage | app/src/main/java/pe/edu/upc/tripmatch/data/repository/AgencyRepository.kt:27 | a not-found error's message is "HTTP 404 " followed by its status text |
| Failures.UnitCallFailure | app/src/main/java/pe/edu/upc/tripmatch/data/repository/ExperienceRepository.kt:37-42 | a call returning `Response<Unit>` fails exactly on a status outside 200..299 or a thrown exception; a rejected status becomes a plain exception whose message is the repository's prefix and the code; it is never an HTTP error |
| Failures.Message | app/src/main/java/pe/edu/upc/tripmatch/presentation/viewmodel/QueriesViewModel.kt:87 | an HTTP error's message starts with "HTTP "; any other exception's message is its own |
| EditAgencyProfileViewModel.Normalized | app/src/main/java/pe/edu/upc/tripmatch/presentation/viewmodel/EditAgencyProfileViewModel.kt:98-105 | a stored profile field read back is never the empty string, is null exactly when it was null or empty, and is otherwise unchanged |
| AgencyRepository.GetAgencyProfile | app/src/main/java/pe/edu/upc/tripmatch/data/repository/AgencyRepository.kt:29-40 | a 404 gives the "Nueva Agencia" default profile, a success is returned and any other error propagates unchanged |
| AgencyRepository.SoftList | app/src/main/java/pe/edu/upc/tripmatch/data/repository/AgencyRepository.kt:47-58 | a 404 on a list fetch gives the empty list, a success is returned and any other error propagates unchanged |
| AgencyRepository.Stats | app/src/main/java/pe/edu/upc/tripmatch/data/repository/AgencyRepository.kt:67-76 | confirmed bookings count the joined bookings, new queries count the inquiries whose flag is exactly false, experiences count the agency's list, and earnings are the sum of the joined prices |
| AgencyRepository.DoubleToInt | app/src/main/java/pe/edu/upc/tripmatch/data/repository/AgencyRepository.kt:92 | `toInt` truncates toward zero within the 32-bit range and saturates at its bounds outside it |
| AgencyRepository.IsNewInquiry | app/src/main/java/pe/edu/upc/tripmatch/data/repository/AgencyRepository.kt:67 | an inquiry with no answered mark, or marked answered, is not new |
| AgencyRepository.ReviewOf | app/src/main/java/pe/edu/upc/tripmatch/data/repository/AgencyRepository.kt:79-93 | a review's author is the looked-up user's full name or the placeholder's; comment and truncated rating are copied |
| AgencyRepository.RecentReviews | app/src/main/java/pe/edu/upc/tripmatch/data/repository/AgencyRepository.kt:78-94 | the recent reviews are the first min(5, n) reviews, each enriched, in order |
| AgencyRepository.BookingUiOf | app/src/main/java/pe/edu/upc/tripmatch/data/repository/AgencyRepository.kt:97-109 | a booking row names the traveler, the experience title and the date, with status "Confirmada" |
| AgencyRepository.RecentBookings | app/src/main/java/pe/edu/upc/tripmatch/data/repository/AgencyRepository.kt:96-110 | the recent bookings are the first min(5, n) joined bookings, each enriched, in order |
| AgencyRepository.Assemble | app/src/main/java/pe/edu/upc/tripmatch/data/repository/AgencyRepository.kt:65-117 | the dashboard carries the profile's name, the statistics of the join, and the recent bookings and reviews |
| AgencyRepository.GetDashboardData | app/src/main/java/pe/edu/upc/tripmatch/data/repository/AgencyRepository.kt:119-126 | the outer catch turns a 404 into the empty dashboard and rethrows any other error |
| AgencyRepository.DashboardFailsOnHardErrors | app/src/main/java/pe/edu/upc/tripmatch/data/repository/AgencyRepository.kt:47-64 | the dashboard fails exactly when some fetch fails with a non-404 error, and then with one of those errors, never a 404 |
| AgencyRepository.DashboardBody | app/src/main/java/pe/edu/upc/tripmatch/data/repository/AgencyRepository.kt:44-118 | the body of `getDashboardData` fails exactly when some fetch failed with an error other than 404, and never with a 404 |
| AgencyRepository.DashboardAssembledWithoutHardErrors | app/src/main/java/pe/edu/upc/tripmatch/data/repository/AgencyRepository.kt:60-126 | without hard failures the dashboard is assembled from the softened fetches, and the outer 404 branch is never taken |
| AgencyRepository.ReviewsNotFoundIsEmpty | app/src/main/java/pe/edu/upc/tripmatch/data/repository/AgencyRepository.kt:47-49 | a 404 on the reviews gives the same dashboard as no reviews at all |
| AgencyRepository.DashboardStats | app/src/main/java/pe/edu/upc/tripmatch/data/repository/AgencyRepository.kt:65-76 | on an assembled dashboard, confirmed bookings count the joined bookings, new queries count the inquiries not yet answered, experiences count the agency's list, and the earnings are non-negative when every price is |
| AgencyRepository.RecentBookingsKnown | app/src/main/java/pe/edu/upc/tripmatch/data/repository/AgencyRepository.kt:102-108 | every joined booking's experience is found, and its title is the dashboard title |
| AgencyRepository.FailedLookupKeepsItem | app/src/main/java/pe/edu/upc/tripmatch/data/repository/AgencyRepository.kt:79-105 | a failed user lookup still yields a row, authored by "Viajero Anónimo" |
| AgencyRepository.RecentArePrefixes | app/src/main/java/pe/edu/upc/tripmatch/data/repository/AgencyRepository.kt:78-96 | the recent lists have at most five items and depend only on the first five of their sources |
| AgencyRepository.BookingOf | app/src/main/java/pe/edu/upc/tripmatch/data/repository/AgencyRepository.kt:141-156 | a listed booking carries the traveler's full name and avatar, the experience title, and the copied date, people and price |
| AgencyRepository.GetBookingsForAgency | app/src/main/java/pe/edu/upc/tripmatch/data/repository/AgencyRepository.kt:128-163 | the call fails exactly when a fetch fails, with that error; otherwise it gives one booking per joined booking, in order |
| AgencyRepository.AgencyBookingKnown | app/src/main/java/pe/edu/upc/tripmatch/data/repository/AgencyRepository.kt:147-152 | each listed booking is named after an experience of the agency |
| BookingRepository.SummaryOf | app/src/main/java/pe/edu/upc/tripmatch/data/repository/BookingRepository.kt:36-41 | a known id gives an experience with that id and an unknown one the "Experiencia Desconocida" summary |
| BookingRepository.GetBookingsByAgency | app/src/main/java/pe/edu/upc/tripmatch/data/repository/BookingRepository.kt:17-48 | any fetch failure propagates; otherwise the result has one booking per joined booking, in order, with no cap |
| BookingRepository.FailedTravelerLookup | app/src/main/java/pe/edu/upc/tripmatch/data/repository/BookingRepository.kt:31-35 | a failed traveler lookup gives "Viajero Anónimo" with no image, and the booking is kept |
| BookingRepository.SameAsAgencyRepository | app/src/main/java/pe/edu/upc/tripmatch/data/repository/BookingRepository.kt:17-48 | on equal inputs the result equals that of the agency repository's booking list |
| BookingsViewModel.TotalIncome | app/src/main/java/pe/edu/upc/tripmatch/presentation/viewmodel/BookingsViewModel.kt:18-19 | the income is non-negative when every booking's total is |
| BookingsViewModel.FilteredBookings | app/src/main/java/pe/edu/upc/tripmatch/presentation/viewmodel/BookingsViewModel.kt:21-29 | a blank query shows every booking; otherwise exactly the bookings whose traveler or experience contains the query ignoring case; always a subsequence |
| BookingsViewModel.TotalIncomeSplitsBySearch | app/src/main/java/pe/edu/upc/tripmatch/presentation/viewmodel/BookingsViewModel.kt:18-29 | the income ignores the search query, and splits into the shown and hidden bookings' totals |
| BookingsViewModel.BookingsViewModel.constructor | app/src/main/java/pe/edu/upc/tripmatch/presentation/viewmodel/BookingsViewModel.kt:12-17 | the view model starts from the default state |
| BookingsViewModel.BookingsViewModel.LoadBookings | app/src/main/java/pe/edu/upc/tripmatch/presentation/viewmodel/BookingsViewModel.kt:44-62 | no user gives the authentication error; success replaces the bookings and keeps the error; failure sets the load error and keeps the bookings; all stop loading |
| BookingsViewModel.BookingsViewModel.OnSearchQueryChanged | app/src/main/java/pe/edu/upc/tripmatch/presentation/viewmodel/BookingsViewModel.kt:64-66 | only the search query changes |
| AgencyDashboardViewModel.InitialStateIsEmpty | app/src/main/java/pe/edu/upc/tripmatch/presentation/viewmodel/AgencyDashboardViewModel.kt:13-27 | the screen starts loading, with zero statistics, "S/ 0.00" earnings and empty lists |
| AgencyDashboardViewModel.AgencyDashboardViewModel.constructor | app/src/main/java/pe/edu/upc/tripmatch/presentation/viewmodel/AgencyDashboardViewModel.kt:13-20 | the view model starts from the initial state |
| AgencyDashboardViewModel.AgencyDashboardViewModel.StartLoading | app/src/main/java/pe/edu/upc/tripmatch/presentation/viewmodel/AgencyDashboardViewModel.kt:56 | starting a load sets loading and clears the error |
| AgencyDashboardViewModel.AgencyDashboardViewModel.LoadDashboardData | app/src/main/java/pe/edu/upc/tripmatch/presentation/viewmodel/AgencyDashboardViewModel.kt:54-81 | no user gives the authentication error; success copies name, statistics and lists; failure sets the dashboard error and keeps the data; all stop loading |
| QueriesViewModel.AgencyIdOf | app/src/main/java/pe/edu/upc/tripmatch/presentation/viewmodel/QueriesViewModel.kt:56 | the agency id is the current user's id, absent without a user |
| QueriesViewModel.AgencyInquiries | app/src/main/java/pe/edu/upc/tripmatch/data/repository/InquiryRepository.kt:18-27 | a failed fetch propagates its error; a success maps every inquiry, in order |
| QueriesViewModel.LoadedInquiriesNamed | app/src/main/java/pe/edu/upc/tripmatch/presentation/viewmodel/QueriesViewModel.kt:70-81 | every loaded inquiry has a traveler name and a title, neither blank |
| QueriesViewModel.LoadErrorText | app/src/main/java/pe/edu/upc/tripmatch/presentation/viewmodel/QueriesViewModel.kt:86-87 | the load error is the fixed prefix followed by the failure's message; an HTTP failure shows "HTTP", its code and its status |
| QueriesViewModel.SendErrorText | app/src/main/java/pe/edu/upc/tripmatch/presentation/viewmodel/QueriesViewModel.kt:185-207 | an HTTP failure reports its code and body (or status); any other failure reports its message |
| QueriesViewModel.SendFailure | app/src/main/java/pe/edu/upc/tripmatch/data/repository/InquiryRepository.kt:12-17 | a send fails exactly when the status is outside 200..299 or the call threw; a rejected status becomes a plain exception naming the code; it is never an HTTP error |
| QueriesViewModel.RejectedSendText | app/src/main/java/pe/edu/upc/tripmatch/presentation/viewmodel/QueriesViewModel.kt:199-207 | a rejected send always shows as an unexpected error that names the status code |
| QueriesViewModel.InitialResponseText | app/src/main/java/pe/edu/upc/tripmatch/presentation/viewmodel/QueriesViewModel.kt:101 | an answered query opens with its answer, any other query with an empty text |
| QueriesViewModel.QueriesViewModel.constructor | app/src/main/java/pe/edu/upc/tripmatch/presentation/viewmodel/QueriesViewModel.kt:20-29 | the view model starts from the default state |
| QueriesViewModel.QueriesViewModel.LoadAgencyInquiries | app/src/main/java/pe/edu/upc/tripmatch/presentation/viewmodel/QueriesViewModel.kt:46-52 | a load already in progress changes nothing; otherwise loading starts and the error is cleared |
| QueriesViewModel.QueriesViewModel.FinishLoadingInquiries | app/src/main/java/pe/edu/upc/tripmatch/presentation/viewmodel/QueriesViewModel.kt:54-92 | a null or blank agency id sets the session error; success replaces the inquiries; failure sets an error starting "Error al cargar consultas: "; all stop loading |
| QueriesViewModel.QueriesViewModel.OpenResponseDialog | app/src/main/java/pe/edu/upc/tripmatch/presentation/viewmodel/QueriesViewModel.kt:96-104 | the dialog opens on the query with its initial response text |
| QueriesViewModel.QueriesViewModel.DismissResponseDialog | app/src/main/java/pe/edu/upc/tripmatch/presentation/viewmodel/QueriesViewModel.kt:106-115 | dialog, selection, text and sending flag are reset, nothing else changes |
| QueriesViewModel.QueriesViewModel.UpdateResponseText | app/src/main/java/pe/edu/upc/tripmatch/presentation/viewmodel/QueriesViewModel.kt:117-119 | only the response text changes |
| QueriesViewModel.QueriesViewModel.SendResponse | app/src/main/java/pe/edu/upc/tripmatch/presentation/viewmodel/QueriesViewModel.kt:121-210 | no selection changes nothing; a blank agency id sets the session error without sending; a 2xx reply and a successful refresh close the dialog, replace the inquiries and report success; a rejected status, a thrown send or a failed refresh stops sending and keeps the dialog open with the error text |
| QueriesViewModel.QueriesViewModel.ClearMessages | app/src/main/java/pe/edu/upc/tripmatch/presentation/viewmodel/QueriesViewModel.kt:213-215 | only the success message and the error are cleared |
| QueriesScreen.VisibleQueries | app/src/main/java/pe/edu/upc/tripmatch/presentation/view/QueriesScreen.kt:41-52 | the visible list keeps, in order, exactly the queries matching both the state filter and the search |
| QueriesScreen.SearchResults | app/src/main/java/pe/edu/upc/tripmatch/presentation/view/QueriesScreen.kt:47-49 | the search keeps exactly the queries whose traveler name or title contains the text ignoring case |
| QueriesScreen.StateMatch | app/src/main/java/pe/edu/upc/tripmatch/presentation/view/QueriesScreen.kt:42-46 | any chip other than the two named ones keeps every query; "Sin responder" keeps exactly the unanswered ones |
| QueriesScreen.FieldContains | app/src/main/java/pe/edu/upc/tripmatch/presentation/view/QueriesScreen.kt:48-49 | a missing field never matches |
| QueriesScreen.FieldStartingWith | app/src/main/java/pe/edu/upc/tripmatch/presentation/view/QueriesScreen.kt:48-49 | a field starting with the text contains it |
| QueriesScreen.SearchMatch | app/src/main/java/pe/edu/upc/tripmatch/presentation/view/QueriesScreen.kt:47-49 | an empty search matches every query, and a query with neither field matches only the empty search |
| QueriesScreen.ExactNameMatches | app/src/main/java/pe/edu/upc/tripmatch/presentation/view/QueriesScreen.kt:47-49 | a search equal to the traveler or the title matches the query |
| QueriesScreen.StateFilters | app/src/main/java/pe/edu/upc/tripmatch/presentation/view/QueriesScreen.kt:42-46 | "Sin responder" keeps exactly the unanswered queries, "Respondidas" the answered ones, any other value all of them |
| QueriesScreen.EmptySearchShowsAll | app/src/main/java/pe/edu/upc/tripmatch/presentation/view/QueriesScreen.kt:47 | an empty search with no state filter shows every query |
| QueriesScreen.StatesPartitionSearch | app/src/main/java/pe/edu/upc/tripmatch/presentation/view/QueriesScreen.kt:41-52 | the unanswered and answered lists together are exactly the search results |
| QueriesScreen.OpenedDialog | app/src/main/java/pe/edu/upc/tripmatch/presentation/view/QueriesScreen.kt:224-277 | a freshly opened dialog is read-only exactly for an answered query, and confirm starts disabled for an unanswered one |
| QueriesScreen.IsReadOnly | app/src/main/java/pe/edu/upc/tripmatch/presentation/view/QueriesScreen.kt:224 | only an answered query with an answer can be read-only, and then the answer is the current text |
| QueriesScreen.ConfirmEnabled | app/src/main/java/pe/edu/upc/tripmatch/presentation/view/QueriesScreen.kt:277 | Confirm is disabled while sending or for an empty answer, and enabled only when the answer has a non-whitespace character |
| QueriesScreen.FormatDisplayDate | app/src/main/java/pe/edu/upc/tripmatch/presentation/view/QueriesScreen.kt:297-310 | a null or blank date shows "Fecha desconocida", a parsed one its formatted text, an unparsable one the longest prefix of whole characters that fits in ten UTF-16 units |
| QueriesScreen.UnparsedDateIsPrefix | app/src/main/java/pe/edu/upc/tripmatch/presentation/view/QueriesScreen.kt:305-309 | an unparsable date shows a prefix of itself of at most ten UTF-16 units, never the unknown-date text, and exactly its first ten characters when it has none above U+FFFF |
| CreateExperienceViewModel.ToggledSchedules | app/src/main/java/pe/edu/upc/tripmatch/presentation/viewmodel/CreateExperienceViewModel.kt:58-67 | toggling removes a present time or adds an absent one, leaves every other time's membership alone, and sorts the result |
| CreateExperienceViewModel.ToggleFlips | app/src/main/java/pe/edu/upc/tripmatch/presentation/viewmodel/CreateExperienceViewModel.kt:60-64 | the toggled time is present afterwards exactly when it was absent before, and no time is duplicated |
| CreateExperienceViewModel.ToggleOnSorted | app/src/main/java/pe/edu/upc/tripmatch/presentation/viewmodel/CreateExperienceViewModel.kt:58-67 | on an ascending list, toggling is removal of a present time and ordered insertion of an absent one |
| CreateExperienceViewModel.ToggleTwice | app/src/main/java/pe/edu/upc/tripmatch/presentation/viewmodel/CreateExperienceViewModel.kt:58-67 | on an ascending list without duplicates, toggling the same time twice changes nothing |
| CreateExperienceViewModel.CommandOf | app/src/main/java/pe/edu/upc/tripmatch/presentation/viewmodel/CreateExperienceViewModel.kt:107-119 | the command copies the text fields, parses duration (default 1) and price (default 0), maps the lists element-wise and names the agency |
| CreateExperienceViewModel.CommandListsRoundTrip | app/src/main/java/pe/edu/upc/tripmatch/presentation/viewmodel/CreateExperienceViewModel.kt:114-116 | the command's schedules, images and includes give back the form's lists |
| CreateExperienceViewModel.CommandDuration | app/src/main/java/pe/edu/upc/tripmatch/presentation/viewmodel/CreateExperienceViewModel.kt:111 | a typed number in range is the command's duration and an unparsable one becomes 1 |
| CreateExperienceViewModel.CommandPrice | app/src/main/java/pe/edu/upc/tripmatch/presentation/viewmodel/CreateExperienceViewModel.kt:112 | a price typed as digits is the command's price |
| CreateExperienceViewModel.ReadyToCreate | app/src/main/java/pe/edu/upc/tripmatch/presentation/viewmodel/CreateExperienceViewModel.kt:101-104 | a form that passes validation has a category, a schedule, an image, a non-empty title and description, and a price with a digit |
| CreateExperienceViewModel.SuccessText | app/src/main/java/pe/edu/upc/tripmatch/presentation/viewmodel/CreateExperienceViewModel.kt:128 | the success banner starts with the fixed prefix and then quotes the title |
| CreateExperienceViewModel.FailureText | app/src/main/java/pe/edu/upc/tripmatch/presentation/viewmodel/CreateExperienceViewModel.kt:137 | the failure banner is the fixed prefix followed by the failure's message |
| CreateExperienceViewModel.CreateFailure | app/src/main/java/pe/edu/upc/tripmatch/data/repository/ExperienceRepository.kt:37-42 | creation fails exactly on a status outside 200..299 or a thrown call; a rejected status becomes a plain exception "Fallo al crear la experiencia. Código: " and the code; it is never an HTTP error |
| CreateExperienceViewModel.RejectedCreateText | app/src/main/java/pe/edu/upc/tripmatch/presentation/viewmodel/CreateExperienceViewModel.kt:133-139 | a rejected creation shows "Error al crear experiencia: Fallo al crear la experiencia. Código: " followed by the status code |
| CreateExperienceViewModel.CreateExperienceViewModel.constructor | app/src/main/java/pe/edu/upc/tripmatch/presentation/viewmodel/CreateExperienceViewModel.kt:15-29 | the form starts empty, and its schedules are sorted and distinct with at most three includes, a shape every operation keeps |
| CreateExperienceViewModel.CreateExperienceViewModel.UpdateField | app/src/main/java/pe/edu/upc/tripmatch/presentation/viewmodel/CreateExperienceViewModel.kt:43-56 | a known field is set and the error cleared; a category that is not a number throws and changes nothing; an unknown field changes nothing |
| CreateExperienceViewModel.CreateExperienceViewModel.ToggleSchedule | app/src/main/java/pe/edu/upc/tripmatch/presentation/viewmodel/CreateExperienceViewModel.kt:58-67 | the schedules become the toggled list, stay sorted, and the time's membership flips |
| CreateExperienceViewModel.CreateExperienceViewModel.AddInclude | app/src/main/java/pe/edu/upc/tripmatch/presentation/viewmodel/CreateExperienceViewModel.kt:69-73 | a non-blank text is appended trimmed while fewer than three includes exist; otherwise nothing changes; the cap of three is kept |
| CreateExperienceViewModel.CreateExperienceViewModel.RemoveInclude | app/src/main/java/pe/edu/upc/tripmatch/presentation/viewmodel/CreateExperienceViewModel.kt:75-79 | an index in range removes exactly that include and keeps the others in order; any other index throws and changes nothing |
| CreateExperienceViewModel.CreateExperienceViewModel.AddImage | app/src/main/java/pe/edu/upc/tripmatch/presentation/viewmodel/CreateExperienceViewModel.kt:81-85 | a non-blank URL is appended trimmed, with no cap; a blank one changes nothing |
| CreateExperienceViewModel.CreateExperienceViewModel.ClearMessages | app/src/main/java/pe/edu/upc/tripmatch/presentation/viewmodel/CreateExperienceViewModel.kt:87-89 | only the two messages are cleared |
| CreateExperienceViewModel.CreateExperienceViewModel.CreateExperience | app/src/main/java/pe/edu/upc/tripmatch/presentation/viewmodel/CreateExperienceViewModel.kt:92-142 | a blank agency id sets the session error and an incomplete form the validation error, without a command; otherwise the command is issued, a 2xx status resets the form with a success message, and a rejected status or a thrown call keeps the form and shows "Error al crear experiencia: " followed by the repository's exception message |
| ManageExperiencesViewModel.KeepOthers | app/src/main/java/pe/edu/upc/tripmatch/presentation/viewmodel/ManageExperiencesViewModel.kt:63 | the filter keeps, in order, exactly the experiences whose id differs from the target's, and everything when there is no target |
| ManageExperiencesViewModel.KeepOthersIdempotent | app/src/main/java/pe/edu/upc/tripmatch/presentation/viewmodel/ManageExperiencesViewModel.kt:63 | deleting the same target twice is deleting it once |
| ManageExperiencesViewModel.KeepOthersCounts | app/src/main/java/pe/edu/upc/tripmatch/presentation/viewmodel/ManageExperiencesViewModel.kt:63 | deletion keeps every experience with another id as often as it occurred, and the target itself is gone |
| ManageExperiencesViewModel.ManageExperiencesViewModel.constructor | app/src/main/java/pe/edu/upc/tripmatch/presentation/viewmodel/ManageExperiencesViewModel.kt:13-19 | the screen starts loading, with no experiences and no dialog, over the shared favourites store |
| ManageExperiencesViewModel.ManageExperiencesViewModel.LoadAgencyExperiences | app/src/main/java/pe/edu/upc/tripmatch/presentation/viewmodel/ManageExperiencesViewModel.kt:33-52 | no agency sets "No se pudo verificar la agencia."; success replaces the list with one experience per fetched record, in order, flagged by the store as `getExperiencesForAgency` (ExperienceRepository.kt:77-84) does, so the list is in step with the store; failure sets "Error al cargar las experiencias."; all stop loading |
| ManageExperiencesViewModel.ManageExperiencesViewModel.OnConfirmDelete | app/src/main/java/pe/edu/upc/tripmatch/presentation/viewmodel/ManageExperiencesViewModel.kt:54-66 | the target's experiences are removed and the dialog closes |
| ManageExperiencesViewModel.ManageExperiencesViewModel.OpenDeleteDialog | app/src/main/java/pe/edu/upc/tripmatch/presentation/viewmodel/ManageExperiencesViewModel.kt:68-70 | the dialog opens on the experience; the list is unchanged |
| ManageExperiencesViewModel.ManageExperiencesViewModel.DismissDeleteDialog | app/src/main/java/pe/edu/upc/tripmatch/presentation/viewmodel/ManageExperiencesViewModel.kt:72-74 | both dialog fields are cleared; the list is unchanged |
| EditAgencyProfileViewModel.WithProfile | app/src/main/java/pe/edu/upc/tripmatch/presentation/viewmodel/EditAgencyProfileViewModel.kt:48-61 | loading copies the agency name and shows every missing optional field as "" |
| EditAgencyProfileViewModel.PayloadOf | app/src/main/java/pe/edu/upc/tripmatch/presentation/viewmodel/EditAgencyProfileViewModel.kt:96-106 | the payload sends every empty field as null and every other field as typed |
| EditAgencyProfileViewModel.LoadThenSave | app/src/main/java/pe/edu/upc/tripmatch/presentation/viewmodel/EditAgencyProfileViewModel.kt:48-106 | saving an unedited loaded profile sends back its fields, a stored "" becoming null |
| EditAgencyProfileViewModel.SaveThenLoad | app/src/main/java/pe/edu/upc/tripmatch/presentation/viewmodel/EditAgencyProfileViewModel.kt:48-106 | loading the payload of a form gives the same form back |
| EditAgencyProfileViewModel.WithField | app/src/main/java/pe/edu/upc/tripmatch/presentation/viewmodel/EditAgencyProfileViewModel.kt:72-87 | each key updates exactly its field, an unknown key nothing |
| EditAgencyProfileViewModel.ClearedFieldSendsNull | app/src/main/java/pe/edu/upc/tripmatch/presentation/viewmodel/EditAgencyProfileViewModel.kt:98 | clearing a field sends null for it and leaves the rest of the payload as it was |
| EditAgencyProfileViewModel.EditAgencyProfileViewModel.constructor | app/src/main/java/pe/edu/upc/tripmatch/presentation/viewmodel/EditAgencyProfileViewModel.kt:13-28 | the screen starts loading with empty fields |
| EditAgencyProfileViewModel.EditAgencyProfileViewModel.LoadInitialData | app/src/main/java/pe/edu/upc/tripmatch/presentation/viewmodel/EditAgencyProfileViewModel.kt:42-68 | without a user the screen stays loading; success shows the profile; failure stops loading with "Failed to load data: " and the message |
| EditAgencyProfileViewModel.EditAgencyProfileViewModel.ResetSaveSuccessFlag | app/src/main/java/pe/edu/upc/tripmatch/presentation/viewmodel/EditAgencyProfileViewModel.kt:69-71 | only the save-success flag is cleared |
| EditAgencyProfileViewModel.EditAgencyProfileViewModel.OnFieldChange | app/src/main/java/pe/edu/upc/tripmatch/presentation/viewmodel/EditAgencyProfileViewModel.kt:72-87 | the state becomes the one with the key's field updated |
| EditAgencyProfileViewModel.EditAgencyProfileViewModel.SaveChanges | app/src/main/java/pe/edu/upc/tripmatch/presentation/viewmodel/EditAgencyProfileViewModel.kt:89-117 | no user sets "Authentication error." and sends nothing; otherwise the payload of the form is sent; success sets the save flag and failure "Error saving: " and the message; every outcome stops saving |
| AuthRepository.WithAuthData | app/src/main/java/pe/edu/upc/tripmatch/data/repository/AuthRepository.kt:43-51 | saving writes exactly the four session keys with the user's token, id, role and e-mail and keeps every other key |
| AuthRepository.CurrentUserIn | app/src/main/java/pe/edu/upc/tripmatch/data/repository/AuthRepository.kt:53-64 | a user is restored exactly when the token is non-empty and id, role and e-mail are stored; that user has the stored values and no names |
| AuthRepository.RestoreAfterSave | app/src/main/java/pe/edu/upc/tripmatch/data/repository/AuthRepository.kt:43-60 | after saving a user with a non-empty token, that user is restored, without names |
| AuthRepository.EmptyTokenRestoresNobody | app/src/main/java/pe/edu/upc/tripmatch/data/repository/AuthRepository.kt:59 | after saving an empty token, nobody is restored |
| AuthRepository.SaveOverwrites | app/src/main/java/pe/edu/upc/tripmatch/data/repository/AuthRepository.kt:43-51 | a second save replaces the first one entirely |
| AuthRepository.UserOf | app/src/main/java/pe/edu/upc/tripmatch/data/repository/AuthRepository.kt:27-32 | the signed-in user takes id, e-mail, role and token from the response and has no names |
| AuthRepository.SignInOutcome | app/src/main/java/pe/edu/upc/tripmatch/data/repository/AuthRepository.kt:23-36 | a missing service fails with its message, a failed call with its error, and a success gives the response's user |
| AuthRepository.AuthRepository.constructor | app/src/main/java/pe/edu/upc/tripmatch/data/repository/AuthRepository.kt:10-14 | the repository holds the given service and store |
| AuthRepository.AuthRepository.CurrentUser | app/src/main/java/pe/edu/upc/tripmatch/data/repository/AuthRepository.kt:53-64 | the current user is the one restored from the store |
| AuthRepository.AuthRepository.SaveAuthData | app/src/main/java/pe/edu/upc/tripmatch/data/repository/AuthRepository.kt:43-51 | the store gets the user's session, which a non-empty token then restores |
| AuthRepository.AuthRepository.SignIn | app/src/main/java/pe/edu/upc/tripmatch/data/repository/AuthRepository.kt:23-36 | a success stores the session; any failure leaves the store untouched |
| AuthRepository.AuthRepository.SignUp | app/src/main/java/pe/edu/upc/tripmatch/data/repository/AuthRepository.kt:38-41 | a missing service fails with its message; otherwise the call's outcome is returned and the store is untouched |
| AuthRepository.AuthRepository.Logout | app/src/main/java/pe/edu/upc/tripmatch/data/repository/AuthRepository.kt:66-68 | the store is emptied and nobody is restored afterwards |
| AuthViewModel.MapIsAgency | app/src/main/java/pe/edu/upc/tripmatch/presentation/viewmodel/AuthViewModel.kt:186-189 | a missing role, or one shorter than "agency", is not an agency |
| AuthViewModel.AgencyPrefixIsAgency | app/src/main/java/pe/edu/upc/tripmatch/presentation/viewmodel/AuthViewModel.kt:186-189 | a role starting with "agency" is an agency role |
| AuthViewModel.DesiredRole | app/src/main/java/pe/edu/upc/tripmatch/presentation/viewmodel/AuthViewModel.kt:146 | an agency signs up as "agency" and anyone else as "tourist" |
| AuthViewModel.DesiredRoleMapsBack | app/src/main/java/pe/edu/upc/tripmatch/presentation/viewmodel/AuthViewModel.kt:186-189 | the role chosen at sign-up maps back to the same agency flag |
| AuthViewModel.DisplayName | app/src/main/java/pe/edu/upc/tripmatch/presentation/viewmodel/AuthViewModel.kt:52 | the agency name when present, otherwise the trimmed "first last" with a missing part shown as "null" |
| AuthViewModel.DisplayNameOfNamedUser | app/src/main/java/pe/edu/upc/tripmatch/presentation/viewmodel/AuthViewModel.kt:93 | a user with both names and no agency is shown as "first last" |
| AuthViewModel.StoredUserShownAsNullNull | app/src/main/java/pe/edu/upc/tripmatch/presentation/viewmodel/AuthViewModel.kt:52 | a restored user is shown as "null null" |
| AuthViewModel.SignedIn | app/src/main/java/pe/edu/upc/tripmatch/presentation/viewmodel/AuthViewModel.kt:91-107 | sign-in sets the user, its role, the agency flag from the role and the display name, and keeps the rest of the form |
| AuthViewModel.SignUpError | app/src/main/java/pe/edu/upc/tripmatch/presentation/viewmodel/AuthViewModel.kt:126-139 | the checks run in order (missing field, password shorter than six UTF-16 units, mismatch), the first failing one wins, and there is no error exactly when all pass |
| AuthViewModel.PasswordLengthInUnits | app/src/main/java/pe/edu/upc/tripmatch/presentation/viewmodel/AuthViewModel.kt:131 | the length check counts UTF-16 units: three characters above U+FFFF pass it, three ASCII letters do not |
| AuthViewModel.SignUpCommandOf | app/src/main/java/pe/edu/upc/tripmatch/presentation/viewmodel/AuthViewModel.kt:143-157 | the command carries the trimmed number and e-mail, the password, the chosen role, and agency name and placeholder RUC only for agencies |
| AuthViewModel.SignUpNameSplit | app/src/main/java/pe/edu/upc/tripmatch/presentation/viewmodel/AuthViewModel.kt:143-145 | the name splits at the first space, and a name without a space gets the last name "Apellido" |
| AuthViewModel.SignUpNameUnique | app/src/main/java/pe/edu/upc/tripmatch/presentation/viewmodel/AuthViewModel.kt:143-145 | a name "first last" whose first part has no space gives exactly those two names |
| AuthViewModel.SignedUp | app/src/main/java/pe/edu/upc/tripmatch/presentation/viewmodel/AuthViewModel.kt:159-167 | a successful sign-up clears the form and reports "Cuenta creada con éxito. Inicie sesión." |
| AuthViewModel.AuthViewModel.constructor | app/src/main/java/pe/edu/upc/tripmatch/presentation/viewmodel/AuthViewModel.kt:34-43 | the view model starts from the default state with no event |
| AuthViewModel.AuthViewModel.RestoreSession | app/src/main/java/pe/edu/upc/tripmatch/presentation/viewmodel/AuthViewModel.kt:45-65 | a saved user is shown with its role, agency flag, display name and e-mail; without one nothing changes |
| AuthViewModel.AuthViewModel.SetEmail | app/src/main/java/pe/edu/upc/tripmatch/presentation/viewmodel/AuthViewModel.kt:68 | the e-mail is set and both messages cleared |
| AuthViewModel.AuthViewModel.SetPassword | app/src/main/java/pe/edu/upc/tripmatch/presentation/viewmodel/AuthViewModel.kt:69 | the password is set and both messages cleared |
| AuthViewModel.AuthViewModel.SetName | app/src/main/java/pe/edu/upc/tripmatch/presentation/viewmodel/AuthViewModel.kt:70 | the name is set and both messages cleared |
| AuthViewModel.AuthViewModel.SetNumber | app/src/main/java/pe/edu/upc/tripmatch/presentation/viewmodel/AuthViewModel.kt:71 | the number is set and both messages cleared |
| AuthViewModel.AuthViewModel.SetConfirmPassword | app/src/main/java/pe/edu/upc/tripmatch/presentation/viewmodel/AuthViewModel.kt:72 | the confirmation is set and both messages cleared |
| AuthViewModel.AuthViewModel.SetIsAgency | app/src/main/java/pe/edu/upc/tripmatch/presentation/viewmodel/AuthViewModel.kt:73 | the agency flag is set and both messages cleared |
| AuthViewModel.AuthViewModel.OnSignIn | app/src/main/java/pe/edu/upc/tripmatch/presentation/viewmodel/AuthViewModel.kt:76-113 | a sign-in under way changes nothing; missing credentials give "Completa email y contraseña." without loading; otherwise the trimmed command is sent, success stores the user and raises the event, failure reports its message, or the invalid-credentials text without one |
| AuthViewModel.AuthViewModel.SubmitSignIn | app/src/main/java/pe/edu/upc/tripmatch/presentation/viewmodel/AuthViewModel.kt:87-112 | with the form filled in, a successful sign-in shows the user, clears email and password, saves the session and raises the success event; a failure shows its message, or "Credenciales inválidas. Intente de nuevo." when it has none, and saves nothing |
| AuthViewModel.AuthViewModel.OnSignUp | app/src/main/java/pe/edu/upc/tripmatch/presentation/viewmodel/AuthViewModel.kt:115-173 | a sign-up under way changes nothing; a validation error is reported without a command; otherwise the command is sent, success resets the form and raises the event, failure reports its message, or "Error al registrar la cuenta." without one |
| AuthViewModel.AuthViewModel.Logout | app/src/main/java/pe/edu/upc/tripmatch/presentation/viewmodel/AuthViewModel.kt:175-179 | the session store is emptied and the state reset to its defaults |
| AuthViewModel.AuthViewModel.ClearSuccessMessage | app/src/main/java/pe/edu/upc/tripmatch/presentation/viewmodel/AuthViewModel.kt:182 | only the success message is cleared |
| AuthViewModel.AuthViewModel.ClearEvent | app/src/main/java/pe/edu/upc/tripmatch/presentation/viewmodel/AuthViewModel.kt:183 | only the event is cleared |
| Favorites.Toggled | app/src/main/java/pe/edu/upc/tripmatch/presentation/viewmodel/TouristDashboardViewModel.kt:84-90 | toggling flips the id's membership and leaves every other id alone |
| Favorites.ToggledTwice | app/src/main/java/pe/edu/upc/tripmatch/presentation/viewmodel/TouristDashboardViewModel.kt:84-90 | toggling the same id twice restores the store |
| Favorites.WithFavoriteFlag | app/src/main/java/pe/edu/upc/tripmatch/presentation/viewmodel/TouristDashboardViewModel.kt:92-100 | only elements with the id get the new flag; length, order and every other element are kept |
| Favorites.MarkFavorites | app/src/main/java/pe/edu/upc/tripmatch/presentation/viewmodel/TouristDashboardViewModel.kt:106-114 | one experience per DTO, in order, flagged by the store's membership |
| Favorites.MarkFavoritesInStep | app/src/main/java/pe/edu/upc/tripmatch/presentation/viewmodel/TouristDashboardViewModel.kt:106-114 | after loading, every experience's flag agrees with the store |
| Favorites.ToggleKeepsInStep | app/src/main/java/pe/edu/upc/tripmatch/presentation/viewmodel/TouristDashboardViewModel.kt:84-100 | a toggle keeps every flag in agreement with the toggled store |
| Favorites.ToggledRows | app/src/main/java/pe/edu/upc/tripmatch/presentation/viewmodel/ExperienceListViewModel.kt:47-55 | a toggle deletes a stored row or inserts the experience's row; the stored ids flip for that id and every other row stays |
| Favorites.ListedFavoritesInStep | app/src/main/java/pe/edu/upc/tripmatch/data/repository/ExperienceRepository.kt:52-72 | a favourites list read from the table has every element flagged and every flag in step with the stored ids |
| Favorites.FavoriteStore.constructor | app/src/main/java/pe/edu/upc/tripmatch/data/repository/ExperienceRepository.kt:44-50 | the table holds the given rows |
| Favorites.FavoriteStore.IsFavorite | app/src/main/java/pe/edu/upc/tripmatch/data/repository/ExperienceRepository.kt:74-76 | an id is a favourite exactly when the table has a row for it |
| Favorites.FavoriteStore.AddFavorite | app/src/main/java/pe/edu/upc/tripmatch/data/repository/ExperienceRepository.kt:44-46 | the experience's row is stored under its id, replacing any row with that id |
| Favorites.FavoriteStore.RemoveFavorite | app/src/main/java/pe/edu/upc/tripmatch/data/repository/ExperienceRepository.kt:48-50 | the row with the experience's id is deleted |
| ExperienceListViewModel.ExperienceListViewModel.constructor | app/src/main/java/pe/edu/upc/tripmatch/presentation/viewmodel/ExperienceListViewModel.kt:14-22 | both lists start empty |
| ExperienceListViewModel.ExperienceListViewModel.LoadExperiences | app/src/main/java/pe/edu/upc/tripmatch/presentation/viewmodel/ExperienceListViewModel.kt:24-33 | success replaces the experiences with one per fetched record, in order, flagged by the store as `getExperiences` (ExperienceRepository.kt:20-27) does, so the list is in step with the store; failure keeps them |
| ExperienceListViewModel.ExperienceListViewModel.LoadFavorites | app/src/main/java/pe/edu/upc/tripmatch/presentation/viewmodel/ExperienceListViewModel.kt:35-43 | success replaces the favourites with the table's rows, each flagged and in step with the stored ids; failure keeps them |
| ExperienceListViewModel.ExperienceListViewModel.ToggleFavorite | app/src/main/java/pe/edu/upc/tripmatch/presentation/viewmodel/ExperienceListViewModel.kt:45-67 | the store's membership flips, only elements with the id change, and only their flag; flags stay in agreement with the store |
| ExperienceListViewModel.ExperienceListViewModel.LoadExperiencesFromApi | app/src/main/java/pe/edu/upc/tripmatch/presentation/viewmodel/ExperienceListViewModel.kt:69-78 | one experience per DTO, in order, flagged by the store's membership |
| TouristDashboardViewModel.UserNameFor | app/src/main/java/pe/edu/upc/tripmatch/presentation/viewmodel/TouristDashboardViewModel.kt:38-43 | the greeting is the first word of the user's first name, or "Turista" without a user or first name |
| TouristDashboardViewModel.UserNameIsFirstWord | app/src/main/java/pe/edu/upc/tripmatch/presentation/viewmodel/TouristDashboardViewModel.kt:39-40 | a first name starting with a space-free word is greeted by that word |
| TouristDashboardViewModel.RestoredUserIsTurista | app/src/main/java/pe/edu/upc/tripmatch/presentation/viewmodel/TouristDashboardViewModel.kt:39-40 | a user restored from the session store is greeted as "Turista" |
| TouristDashboardViewModel.TouristDashboardViewModel.constructor | app/src/main/java/pe/edu/upc/tripmatch/presentation/viewmodel/TouristDashboardViewModel.kt:19-29 | empty lists and the "Turista" greeting |
| TouristDashboardViewModel.TouristDashboardViewModel.LoadUserName | app/src/main/java/pe/edu/upc/tripmatch/presentation/viewmodel/TouristDashboardViewModel.kt:36-46 | the greeting becomes the current user's name rule, nothing else changes |
| TouristDashboardViewModel.TouristDashboardViewModel.LoadCategories | app/src/main/java/pe/edu/upc/tripmatch/presentation/viewmodel/TouristDashboardViewModel.kt:48-60 | success replaces the categories and failure gives ["Error al cargar"] |
| TouristDashboardViewModel.TouristDashboardViewModel.LoadExperiences | app/src/main/java/pe/edu/upc/tripmatch/presentation/viewmodel/TouristDashboardViewModel.kt:61-70 | success replaces the experiences with one per fetched record, in order, flagged by the store as `getExperiences` (ExperienceRepository.kt:20-27) does, so the list is in step with the store; failure keeps them |
| TouristDashboardViewModel.TouristDashboardViewModel.LoadFavorites | app/src/main/java/pe/edu/upc/tripmatch/presentation/viewmodel/TouristDashboardViewModel.kt:72-80 | success replaces the favourites with the table's rows, each flagged and in step with the stored ids; failure keeps them |
| TouristDashboardViewModel.TouristDashboardViewModel.ToggleFavorite | app/src/main/java/pe/edu/upc/tripmatch/presentation/viewmodel/TouristDashboardViewModel.kt:82-104 | the store's membership flips, only elements with the id change their flag, the favourites are reloaded, and flags stay in agreement with the store |
| TouristDashboardViewModel.TouristDashboardViewModel.LoadExperiencesFromApi | app/src/main/java/pe/edu/upc/tripmatch/presentation/viewmodel/TouristDashboardViewModel.kt:106-115 | one experience per DTO, in order, flagged by the store's membership |

## Left out

- Coroutines, `async`/`await` and `viewModelScope.launch`: every fetch is an already completed outcome passed as a parameter. When several fetches fail, the error taken is the first in await order.
- StateFlow collection: `TouristDashboardViewModel.loadUserName` collects the auth state repeatedly. Here it is one call per emission, which takes the current user.
- Init blocks that start loads are explicit calls: `RestoreSession` and `LoadUserName`.
- The network services, the auth interceptor and the service locator: their answers are parameters.
- The order in which `getAllFavorites` lists the rows: a reloaded favourites list may hold them in any order.
- `ExperienceRepository.getExperiences` and `getExperiencesForAgency` map each fetched record through `toDomain` and flag it by `isFavorite`. The model states this in the `LoadExperiences` and `LoadAgencyExperiences` methods that call them: the fetched records are the parameter, and the flags come from the favourites store.
- `ExperienceRepository.getCategories` maps each category to its name, and `isFavorite` is a Room lookup. Their outcomes are parameters, and `isFavorite` is `FavoriteStore.IsFavorite`.
- `ExperienceRepository.deleteExperience` and `updateExperience` are called by no view model; they follow the same status check as `createExperience` (`Failures.UnitCallFailure`).
- `InquiryRepository.getAgencyInquiries` is modelled only through its mapping (`QueriesViewModel.AgencyInquiries`).
- `AgencyRepository.updateProfile` forwards to the service and has no logic of its own.
- Locale currency formatting: the earnings value holds the amount. No property is stated about formatted strings.
- Floating point: money and ratings are real numbers with no rounding.
- AgencyRepository.DoubleToInt: does not model NaN, which `toInt` maps to 0, because ratings are real numbers here.
- The clock and date parsing: the answer timestamp and the result of `Instant.parse` are parameters.
- Logging and `println`.
- The one-second delay before refreshing the inquiries.
- Navigation callbacks (`onSuccess`).
- The in-place mutation of `experience.isFavorite`, and its aliasing with the list element: experiences are values, and the toggle rebuilds the list.
- Numbers.ParseDecimal: exponents, hexadecimal forms, `NaN` and `Infinity` are not modelled and read as null here; the value is exact rather than rounded to a `Double`.
- Numbers.ParseInt: Unicode digits other than ASCII are not modelled.
- Text.FoldCase: case folding covers ASCII and Latin-1 letters, not all of Unicode.
- QueriesScreen.FormatDisplayDate: where `take(10)` would split a surrogate pair, Kotlin keeps a lone high surrogate as the tenth unit; a Dafny string cannot hold one, so the model stops before that character.
- Text.Utf16Take: the same lone-surrogate case is not modelled, for the same reason.
- ExperienceListViewModel.ExperienceListViewModel.LoadFavorites: what `getFavorites` returns is a parameter that must list the table's rows; the fields the table lacks are not tied to anything.
- The content of the sign-up response is ignored, as the caller ignores it.
- Compose screens: only the filter, dialog predicates and date formatting of the queries screen are modelled.
