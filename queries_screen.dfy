/** The inquiries screen's list filter, the answer dialog's conditions and the date fallback. */
module QueriesScreen {
  import opened Wrappers
  import opened Text
  import opened Seqs
  import opened Domain
  import QueriesViewModel

  const Unanswered: string := "Sin responder"
  const Answered: string := "Respondidas"

  /** The state chip: unanswered, answered, or any other value for every query. */
  function StateMatch(filterState: string, q: Query): (r: bool)
    ensures filterState != Unanswered && filterState != Answered ==> r
    ensures filterState == Unanswered ==> r != q.isAnswered
  {
    if filterState == Unanswered then !q.isAnswered
    else if filterState == Answered then q.isAnswered
    else true
  }

  /** `field?.contains(text, ignoreCase = true) == true`: a missing field never matches. */
  function FieldContains(field: Option<string>, text: string): (r: bool)
    ensures field.None? ==> !r
  {
    field.Some? && ContainsIgnoreCase(field.value, text)
  }

  /** A field that starts with the text contains it. */
  lemma FieldStartingWith(field: Option<string>, text: string)
    requires field.Some? && text <= field.value
    ensures FieldContains(field, text)
  {
    ContainsAtStart(field.value, text);
  }

  /** The search box: empty matches everything; otherwise the traveler or the experience must contain the text. */
  function SearchMatch(searchText: string, q: Query): (r: bool)
    ensures |searchText| == 0 ==> r
    ensures q.travelerName.None? && q.experienceTitle.None? ==> (r <==> |searchText| == 0)
  {
    |searchText| == 0 || FieldContains(q.travelerName, searchText) || FieldContains(q.experienceTitle, searchText)
  }

  /** A query whose traveler or experience is exactly the search text matches it. */
  lemma ExactNameMatches(searchText: string, q: Query)
    requires q.travelerName == Some(searchText) || q.experienceTitle == Some(searchText)
    ensures SearchMatch(searchText, q)
  {
    if q.travelerName == Some(searchText) {
      FieldStartingWith(q.travelerName, searchText);
    } else {
      FieldStartingWith(q.experienceTitle, searchText);
    }
  }

  /** `filteredQueries` */
  function VisibleQueries(inquiries: seq<Query>, filterState: string, searchText: string): (r: seq<Query>)
    ensures forall q :: q in r <==> q in inquiries && StateMatch(filterState, q) && SearchMatch(searchText, q)
    ensures IsSubsequence(r, inquiries)
  {
    Filter(inquiries, (q: Query) => StateMatch(filterState, q) && SearchMatch(searchText, q))
  }

  /** The queries matching a search, whatever their state. */
  function SearchResults(inquiries: seq<Query>, searchText: string): (r: seq<Query>)
    ensures forall q :: q in r <==> q in inquiries && SearchMatch(searchText, q)
  {
    Filter(inquiries, (q: Query) => SearchMatch(searchText, q))
  }

  /** "Sin responder" keeps exactly the unanswered matches, "Respondidas" the answered ones, any other chip all of them. */
  lemma StateFilters(inquiries: seq<Query>, searchText: string, other: string)
    requires other != Unanswered && other != Answered
    ensures forall q :: q in VisibleQueries(inquiries, Unanswered, searchText) <==> q in inquiries && !q.isAnswered && SearchMatch(searchText, q)
    ensures forall q :: q in VisibleQueries(inquiries, Answered, searchText) <==> q in inquiries && q.isAnswered && SearchMatch(searchText, q)
    ensures VisibleQueries(inquiries, other, searchText) == SearchResults(inquiries, searchText)
  {
    FilterSame(inquiries, (q: Query) => StateMatch(other, q) && SearchMatch(searchText, q), (q: Query) => SearchMatch(searchText, q));
  }

  /** An empty search with a chip that keeps everything shows the whole list. */
  lemma EmptySearchShowsAll(inquiries: seq<Query>, other: string)
    requires other != Unanswered && other != Answered
    ensures VisibleQueries(inquiries, other, "") == inquiries
  {
    FilterAll(inquiries, (q: Query) => StateMatch(other, q) && SearchMatch("", q));
  }

  /**
   * For one search text, the unanswered and the answered lists split the
   * search results between them: together they hold each result once.
   */
  lemma StatesPartitionSearch(inquiries: seq<Query>, searchText: string)
    ensures multiset(VisibleQueries(inquiries, Unanswered, searchText)) + multiset(VisibleQueries(inquiries, Answered, searchText))
         == multiset(SearchResults(inquiries, searchText))
    ensures |VisibleQueries(inquiries, Unanswered, searchText)| + |VisibleQueries(inquiries, Answered, searchText)|
         == |SearchResults(inquiries, searchText)|
  {
    var p := (q: Query) => SearchMatch(searchText, q);
    var answered := (q: Query) => q.isAnswered;
    FilterSplit(inquiries, p, answered);
    FilterSame(inquiries, (q: Query) => StateMatch(Answered, q) && SearchMatch(searchText, q), (q: Query) => p(q) && answered(q));
    FilterSame(inquiries, (q: Query) => StateMatch(Unanswered, q) && SearchMatch(searchText, q), (q: Query) => p(q) && !answered(q));
  }

  /** `query.isAnswered && query.answer == currentAnswer` */
  function IsReadOnly(q: Query, currentAnswer: string): (r: bool)
    ensures !q.isAnswered || q.answer.None? ==> !r
    ensures r ==> q.answer == Some(currentAnswer)
  {
    q.isAnswered && q.answer == Some(currentAnswer)
  }

  /** `currentAnswer.isNotBlank() && !isSending` */
  function ConfirmEnabled(currentAnswer: string, isSending: bool): (r: bool)
    ensures isSending || |currentAnswer| == 0 ==> !r
    ensures r ==> exists i :: 0 <= i < |currentAnswer| && !IsWhitespace(currentAnswer[i])
  {
    !IsBlank(currentAnswer) && !isSending
  }

  /**
   * A dialog just opened is read-only exactly for an answered query with an
   * answer; for an unanswered query Confirm starts disabled.
   */
  lemma OpenedDialog(q: Query, isSending: bool)
    ensures IsReadOnly(q, QueriesViewModel.InitialResponseText(q)) <==> q.isAnswered && q.answer.Some?
    ensures !q.isAnswered ==> !ConfirmEnabled(QueriesViewModel.InitialResponseText(q), isSending)
  {
  }

  const UnknownDate: string := "Fecha desconocida"

  /**
   * `formatDisplayDate`, with `parsed` the text the date formatter gives for
   * the parsed instant, or `None` when the text does not parse.
   */
  function FormatDisplayDate(dateTime: Option<string>, parsed: Option<string>): (r: string)
    ensures IsNullOrBlank(dateTime) ==> r == UnknownDate
    ensures !IsNullOrBlank(dateTime) && parsed.Some? ==> r == parsed.value
    ensures !IsNullOrBlank(dateTime) && parsed.None? ==> r == Utf16Take(dateTime.value, 10)
  {
    if IsNullOrBlank(dateTime) then UnknownDate
    else if parsed.Some? then parsed.value
    else Utf16Take(dateTime.value, 10)
  }

  /**
   * A date that does not parse shows as its first ten UTF-16 units, never as
   * the unknown-date text; for text up to U+FFFF that is its first ten characters.
   */
  lemma UnparsedDateIsPrefix(dateTime: string)
    requires !IsBlank(dateTime)
    ensures var r := FormatDisplayDate(Some(dateTime), None);
            Utf16Length(r) <= 10 && r <= dateTime && r != UnknownDate
            && ((forall i :: 0 <= i < |dateTime| ==> dateTime[i] as int <= 0xFFFF) ==> r == dateTime[..Min(10, |dateTime|)])
  {
    assert |UnknownDate| == 17;
    if forall i :: 0 <= i < |dateTime| ==> dateTime[i] as int <= 0xFFFF {
      Utf16TakeOfBmp(dateTime, 10);
    }
  }
}
