/** Mapping experiences from the backend to the domain and from the domain to the favourites table. */
module ExperienceMapper {
  import opened Dtos
  import opened Domain

  function Urls(images: seq<ExperienceImage>): (r: seq<string>)
    ensures |r| == |images| && forall i :: 0 <= i < |r| ==> r[i] == images[i].url
  {
    seq(|images|, i requires 0 <= i < |images| => images[i].url)
  }

  function Descriptions(includes: seq<Include>): (r: seq<string>)
    ensures |r| == |includes| && forall i :: 0 <= i < |r| ==> r[i] == includes[i].description
  {
    seq(|includes|, i requires 0 <= i < |includes| => includes[i].description)
  }

  function Times(schedule: seq<Schedule>): (r: seq<string>)
    ensures |r| == |schedule| && forall i :: 0 <= i < |r| ==> r[i] == schedule[i].time
  {
    seq(|schedule|, i requires 0 <= i < |schedule| => schedule[i].time)
  }

  /** `ExperienceDto.toDomain()`: a new experience is never a favourite. */
  function ToDomain(d: ExperienceDto): (e: Experience)
    ensures e.id == d.id && e.title == d.title && e.description == d.description && e.location == d.location
    ensures e.duration == d.duration && e.price == d.price && e.frequencies == d.frequencies && e.categoryId == d.categoryId
    ensures e.categoryName == d.category.name && e.agencyName == d.agency.agencyName
    ensures e.experienceImages == Urls(d.experienceImages) && e.includes == Descriptions(d.includes) && e.schedule == Times(d.schedule)
    ensures !e.isFavorite
  {
    Experience(d.id, d.title, d.description, d.location, d.duration, d.price, d.frequencies, d.categoryId,
               d.category.name, d.agency.agencyName, Urls(d.experienceImages), Descriptions(d.includes), Times(d.schedule), false)
  }

  /** `Experience.toEntity()`: the eight columns of the favourites table. */
  function ToEntity(e: Experience): (f: FavoriteExperienceEntity)
    ensures f.id == e.id && f.title == e.title && f.description == e.description && f.location == e.location
    ensures f.duration == e.duration && f.price == e.price && f.categoryName == e.categoryName && f.agencyName == e.agencyName
  {
    FavoriteExperienceEntity(e.id, e.title, e.description, e.location, e.duration, e.price, e.categoryName, e.agencyName)
  }

  /** Storing a fetched experience as a favourite keeps its identity and the columns the table has. */
  lemma ToEntityOfToDomain(d: ExperienceDto)
    ensures ToEntity(ToDomain(d))
         == FavoriteExperienceEntity(d.id, d.title, d.description, d.location, d.duration, d.price, d.category.name, d.agency.agencyName)
  {
  }

  /** The stored row does not depend on the favourite flag, the lists, the frequencies or the category id. */
  lemma ToEntityIgnores(e: Experience, fav: bool, freq: string, cat: int, imgs: seq<string>, incs: seq<string>, sched: seq<string>)
    ensures ToEntity(e.(isFavorite := fav, frequencies := freq, categoryId := cat, experienceImages := imgs, includes := incs, schedule := sched))
         == ToEntity(e)
  {
  }

  /**
   * Two fetched experiences that map to the same domain record have the same
   * schedules, includes and images: the mapping loses no element of a list.
   */
  lemma ToDomainInjectiveOnLists(a: ExperienceDto, b: ExperienceDto)
    requires ToDomain(a) == ToDomain(b)
    ensures |a.schedule| == |b.schedule| && forall i :: 0 <= i < |a.schedule| ==> a.schedule[i] == b.schedule[i]
    ensures |a.includes| == |b.includes| && forall i :: 0 <= i < |a.includes| ==> a.includes[i] == b.includes[i]
    ensures |a.experienceImages| == |b.experienceImages| && forall i :: 0 <= i < |a.experienceImages| ==> a.experienceImages[i] == b.experienceImages[i]
  {
    assert forall i :: 0 <= i < |a.schedule| ==> Times(a.schedule)[i] == Times(b.schedule)[i];
    assert forall i :: 0 <= i < |a.includes| ==> Descriptions(a.includes)[i] == Descriptions(b.includes)[i];
    assert forall i :: 0 <= i < |a.experienceImages| ==> Urls(a.experienceImages)[i] == Urls(b.experienceImages)[i];
  }
}
