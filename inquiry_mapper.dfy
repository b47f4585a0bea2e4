/** Building a domain `Query` from an inquiry. */
module InquiryMapper {
  import opened Wrappers
  import opened Text
  import opened Dtos
  import opened Domain

  const UnknownTraveler: string := "Unknown"
  const UnknownTitle: string := "Título desconocido"

  /**
   * `InquiryDto.toDomain()`: blank names and titles get a placeholder, the
   * answer date is never filled in, everything else is copied.
   */
  function ToDomain(d: InquiryDto): (q: Query)
    ensures q.travelerName == Some(if IsBlank(d.travelerName) then UnknownTraveler else d.travelerName)
    ensures q.experienceTitle == Some(if IsBlank(d.experienceTitle) then UnknownTitle else d.experienceTitle)
    ensures q.answeredAt.None?
    ensures q.id == d.id && q.travelerAvatarUrl == d.travelerAvatarUrl && q.question == d.question
    ensures q.askedAt == d.askedAt && q.isAnswered == d.isAnswered && q.answer == d.answer
  {
    Query(d.id, Some(IfBlank(d.travelerName, UnknownTraveler)), d.travelerAvatarUrl,
          Some(IfBlank(d.experienceTitle, UnknownTitle)), d.question, d.askedAt, d.isAnswered, d.answer, None)
  }

  /** A mapped query always has a traveler name and a title, and neither is blank. */
  lemma ToDomainNeverBlank(d: InquiryDto)
    ensures ToDomain(d).travelerName.Some? && !IsBlank(ToDomain(d).travelerName.value)
    ensures ToDomain(d).experienceTitle.Some? && !IsBlank(ToDomain(d).experienceTitle.value)
  {
    assert !IsWhitespace(UnknownTraveler[0]);
    assert !IsWhitespace(UnknownTitle[0]);
  }

  /** Mapping again an inquiry rebuilt from a mapped query changes nothing. */
  lemma ToDomainIdempotent(d: InquiryDto)
    ensures var q := ToDomain(d);
            ToDomain(d.(travelerName := q.travelerName.value, experienceTitle := q.experienceTitle.value)) == q
  {
    ToDomainNeverBlank(d);
  }
}
