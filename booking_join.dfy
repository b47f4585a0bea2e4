/**
 * The client-side join both booking repositories perform: the backend sends
 * every booking, and the app keeps those whose experience belongs to the agency.
 */
module BookingJoin {
  import opened Wrappers
  import opened Seqs
  import opened Dtos

  /** `agencyExperiences.map { it.id }.toSet()` */
  function ExperienceIds(exps: seq<ExperienceSummaryDto>): (ids: set<int>)
    ensures forall e :: e in exps ==> e.id in ids
    ensures forall id :: id in ids ==> exists e :: e in exps && e.id == id
  {
    set e | e in exps :: e.id
  }

  /** `filter { agencyExperienceIds.contains(it.experienceId) }` */
  function JoinBookings(all: seq<BookingDto>, exps: seq<ExperienceSummaryDto>): (r: seq<BookingDto>)
    ensures forall b :: b in r <==> b in all && b.experienceId in ExperienceIds(exps)
    ensures forall b :: multiset(r)[b] == if b.experienceId in ExperienceIds(exps) then multiset(all)[b] else 0
    ensures IsSubsequence(r, all)
  {
    var ids := ExperienceIds(exps);
    Filter(all, (b: BookingDto) => b.experienceId in ids)
  }

  /** The position of the first experience with that id. */
  function FindIndex(exps: seq<ExperienceSummaryDto>, id: int): (k: Option<nat>)
    ensures k.Some? ==> k.value < |exps| && exps[k.value].id == id && forall j :: 0 <= j < k.value ==> exps[j].id != id
    ensures k.None? ==> forall j :: 0 <= j < |exps| ==> exps[j].id != id
  {
    if exps == [] then None
    else if exps[0].id == id then Some(0)
    else
      var rest := FindIndex(exps[1..], id);
      if rest.Some? then Some(rest.value + 1) else None
  }

  /** `find { it.id == id }`: the first experience with that id, if the agency has one. */
  function FindExperience(exps: seq<ExperienceSummaryDto>, id: int): (r: Option<ExperienceSummaryDto>)
    ensures r.Some? <==> id in ExperienceIds(exps)
    ensures r.Some? ==> exists k :: 0 <= k < |exps| && exps[k] == r.value && r.value.id == id && forall j :: 0 <= j < k ==> exps[j].id != id
  {
    var k := FindIndex(exps, id);
    if k.Some? then Some(exps[k.value]) else None
  }

  /** The lookup fallback when the user details cannot be fetched. */
  const AnonymousTraveler: UserDetailsDto := UserDetailsDto("Viajero", "Anónimo", None, None)

  /**
   * The user-details lookup with its catch-all fallback: `users` holds the
   * lookups that succeed; any other id throws and gets the placeholder.
   */
  function TravelerOf(users: map<string, UserDetailsDto>, id: string): (u: UserDetailsDto)
    ensures id in users ==> u == users[id]
    ensures id !in users ==> u == AnonymousTraveler
  {
    if id in users then users[id] else AnonymousTraveler
  }

  /** The title shown when a booking's experience is not among the agency's. */
  const UnknownExperience: string := "Experiencia Desconocida"

  /** `experienceDetails?.title ?: "Experiencia Desconocida"` */
  function ExperienceTitle(exps: seq<ExperienceSummaryDto>, id: int): (t: string)
    ensures id in ExperienceIds(exps) ==> exists e :: e in exps && e.id == id && t == e.title
    ensures id !in ExperienceIds(exps) ==> t == UnknownExperience
  {
    var found := FindExperience(exps, id);
    if found.Some? then found.value.title else UnknownExperience
  }

  /** Every joined booking's experience is one of the agency's, so its title is found. */
  lemma JoinedTitleKnown(all: seq<BookingDto>, exps: seq<ExperienceSummaryDto>, b: BookingDto)
    requires b in JoinBookings(all, exps)
    ensures FindExperience(exps, b.experienceId).Some?
    ensures exists e :: e in exps && e.id == b.experienceId && ExperienceTitle(exps, b.experienceId) == e.title
  {
  }
}
