/** The create-experience form: editing, schedule and include lists, validation and the command sent. */
module CreateExperienceViewModel {
  import opened Wrappers
  import opened Numbers
  import opened Failures
  import opened Text
  import opened StringOrder
  import opened Dtos
  import opened Domain
  import ExperienceMapper

  datatype CreateExperienceUiState = CreateExperienceUiState(
    title: string,
    description: string,
    location: string,
    duration: string,
    price: string,
    frequencies: string,
    schedules: seq<string>,
    images: seq<string>,
    includes: seq<string>,
    categoryId: Option<int>,
    isLoading: bool,
    successMessage: Option<string>,
    errorMessage: Option<string>)

  /** `CreateExperienceUiState()` */
  const InitialState: CreateExperienceUiState :=
    CreateExperienceUiState("", "", "", "", "", "", [], [], [], None, false, None, None)

  /** The most includes the form accepts. */
  const MaxIncludes: nat := 3

  const SessionError: string := "Error de sesión: ID de agencia no disponible."
  const MissingFields: string := "Por favor, completa todos los campos requeridos (título, descripción, precio, categoría, horarios e imágenes)."

  /** The `Any` that `updateField` receives: a string, an integer or something else. */
  datatype FieldValue = StringValue(s: string) | IntValue(n: int) | OtherValue

  /** The form's lists are in the shape its operations keep: sorted distinct times and at most three includes. */
  predicate WellFormed(s: CreateExperienceUiState) {
    Sorted(s.schedules) && NoDuplicates(s.schedules) && |s.includes| <= MaxIncludes
  }

  /** `toggleSchedule`'s new list: `time` taken out if present, otherwise added, then sorted. */
  function ToggledSchedules(schedules: seq<string>, time: string): (r: seq<string>)
    ensures Sorted(r)
    ensures time in schedules ==> multiset(r) == multiset(schedules) - multiset{time}
    ensures time !in schedules ==> multiset(r) == multiset(schedules) + multiset{time}
    ensures forall x :: x != time ==> (x in r <==> x in schedules)
  {
    if time in schedules then
      var r := Sort(RemoveFirst(schedules, time));
      forall x | x != time
        ensures x in r <==> x in schedules
      {
        assert x in r <==> x in multiset(r);
        assert x in schedules <==> x in multiset(schedules);
      }
      r
    else
      var r := Sort(schedules + [time]);
      assert multiset(schedules + [time]) == multiset(schedules) + multiset{time};
      forall x | x != time
        ensures x in r <==> x in schedules
      {
        assert x in r <==> x in multiset(r);
        assert x in schedules <==> x in multiset(schedules);
      }
      r
  }

  /** On a list without repeats, toggling flips whether `time` is in it and keeps it without repeats. */
  lemma ToggleFlips(schedules: seq<string>, time: string)
    requires NoDuplicates(schedules)
    ensures time in ToggledSchedules(schedules, time) <==> time !in schedules
    ensures NoDuplicates(ToggledSchedules(schedules, time))
  {
    var r := ToggledSchedules(schedules, time);
    if time in schedules {
      assert multiset(schedules)[time] == 1;
      assert multiset(r)[time] == 0;
    } else {
      assert multiset(r)[time] == 1;
    }
    forall x | x in r
      ensures multiset(r)[x] == 1
    {
      if x != time {
        assert x in schedules;
      }
    }
  }

  /** On a sorted list, toggling a time that is there just deletes it, and toggling a new one just inserts it. */
  lemma ToggleOnSorted(schedules: seq<string>, time: string)
    requires Sorted(schedules)
    ensures time in schedules ==> ToggledSchedules(schedules, time) == RemoveFirst(schedules, time)
    ensures time !in schedules ==> ToggledSchedules(schedules, time) == Insert(time, schedules)
  {
    if time in schedules {
      RemoveFirstSorted(schedules, time);
      SortedUnique(ToggledSchedules(schedules, time), RemoveFirst(schedules, time));
    } else {
      InsertSorted(time, schedules);
      SortedUnique(ToggledSchedules(schedules, time), Insert(time, schedules));
    }
  }

  /** On a sorted list without repeats, toggling the same time twice gives the list back. */
  lemma ToggleTwice(schedules: seq<string>, time: string)
    requires Sorted(schedules) && NoDuplicates(schedules)
    ensures ToggledSchedules(ToggledSchedules(schedules, time), time) == schedules
  {
    ToggleTwiceSameStrings(schedules, time);
    SortedUnique(ToggledSchedules(ToggledSchedules(schedules, time), time), schedules);
  }

  /** Toggling the same time twice gives back the same strings, in some order. */
  lemma ToggleTwiceSameStrings(schedules: seq<string>, time: string)
    requires NoDuplicates(schedules)
    ensures multiset(ToggledSchedules(ToggledSchedules(schedules, time), time)) == multiset(schedules)
  {
    var once := ToggledSchedules(schedules, time);
    ToggleFlips(schedules, time);
    var m := multiset(schedules);
    if time in schedules {
      assert multiset(once) == m - multiset{time};
      assert m - multiset{time} + multiset{time} == m;
    } else {
      assert multiset(once) == m + multiset{time};
      assert m + multiset{time} - multiset{time} == m;
    }
  }

  /** Every field `validate` checks before building the command. */
  function ReadyToCreate(s: CreateExperienceUiState): (r: bool)
    ensures r ==> s.categoryId.Some? && |s.schedules| > 0 && |s.images| > 0
    ensures r ==> |s.title| > 0 && |s.description| > 0 && exists c :: c in s.price && IsDigit(c)
  {
    !IsBlank(s.title) && !IsBlank(s.description) && ParseDecimal(s.price).Some?
    && |s.schedules| > 0 && |s.images| > 0 && s.categoryId.Some?
  }

  function ToSchedules(times: seq<string>): (r: seq<Schedule>)
    ensures |r| == |times| && forall i :: 0 <= i < |r| ==> r[i] == Schedule(times[i])
  {
    seq(|times|, i requires 0 <= i < |times| => Schedule(times[i]))
  }

  function ToImages(urls: seq<string>): (r: seq<ExperienceImage>)
    ensures |r| == |urls| && forall i :: 0 <= i < |r| ==> r[i] == ExperienceImage(urls[i])
  {
    seq(|urls|, i requires 0 <= i < |urls| => ExperienceImage(urls[i]))
  }

  function ToIncludes(descriptions: seq<string>): (r: seq<Include>)
    ensures |r| == |descriptions| && forall i :: 0 <= i < |r| ==> r[i] == Include(descriptions[i])
  {
    seq(|descriptions|, i requires 0 <= i < |descriptions| => Include(descriptions[i]))
  }

  /**
   * The command `createExperience` sends: text fields copied, a duration that
   * does not parse as 1, the lists wrapped element by element.
   */
  function CommandOf(s: CreateExperienceUiState, agencyId: string): (c: CreateExperienceCommand)
    requires s.categoryId.Some?
    ensures c.title == s.title && c.description == s.description && c.location == s.location && c.frequencies == s.frequencies
    ensures c.duration == ParseInt(s.duration).GetOr(1)
    ensures c.price == ParseDecimal(s.price).GetOr(0.0)
    ensures c.schedules == ToSchedules(s.schedules) && c.experienceImages == ToImages(s.images) && c.includes == ToIncludes(s.includes)
    ensures c.categoryId == s.categoryId.value && c.agencyUserId == agencyId
  {
    CreateExperienceCommand(s.title, s.description, s.location, ParseInt(s.duration).GetOr(1), ParseDecimal(s.price).GetOr(0.0),
                            s.frequencies, ToSchedules(s.schedules), ToImages(s.images), ToIncludes(s.includes), s.categoryId.value, agencyId)
  }

  /** Reading the command's lists the way experiences are read back gives the form's lists. */
  lemma CommandListsRoundTrip(s: CreateExperienceUiState, agencyId: string)
    requires s.categoryId.Some?
    ensures var c := CommandOf(s, agencyId);
            ExperienceMapper.Times(c.schedules) == s.schedules
            && ExperienceMapper.Urls(c.experienceImages) == s.images
            && ExperienceMapper.Descriptions(c.includes) == s.includes
  {
    var c := CommandOf(s, agencyId);
    assert ExperienceMapper.Times(ToSchedules(s.schedules)) == s.schedules;
    assert ExperienceMapper.Urls(ToImages(s.images)) == s.images;
    assert ExperienceMapper.Descriptions(ToIncludes(s.includes)) == s.includes;
  }

  /** The command carries a duration typed as a number, and 1 for anything that is not one. */
  lemma CommandDuration(s: CreateExperienceUiState, agencyId: string, n: nat)
    requires s.categoryId.Some?
    ensures n <= MaxInt && s.duration == NatToString(n) ==> CommandOf(s, agencyId).duration == n
    ensures ParseInt(s.duration).None? ==> CommandOf(s, agencyId).duration == 1
  {
    if n <= MaxInt {
      ParseIntOfNatToString(n);
    }
  }

  /** A price typed as digits reaches the command as that number. */
  lemma CommandPrice(s: CreateExperienceUiState, agencyId: string)
    requires s.categoryId.Some? && |s.price| > 0 && AllDigits(s.price)
    ensures CommandOf(s, agencyId).price == DigitsValue(s.price) as real
  {
    ParseDecimalOfDigits(s.price);
  }

  const SuccessPrefix: string := "¡Experiencia '"

  /** The success banner: the title, quoted, inside a fixed sentence. */
  function SuccessText(title: string): (t: string)
    ensures SuccessPrefix <= t && |t| > |SuccessPrefix| + |title|
    ensures t[|SuccessPrefix|..|SuccessPrefix| + |title|] == title
  {
    SuccessPrefix + title + "' creada con éxito!"
  }

  const FailurePrefix: string := "Error al crear experiencia: "

  /** The failure banner: the prefix, then the failure's message. */
  function FailureText(e: Error): (t: string)
    ensures FailurePrefix <= t
    ensures t[|FailurePrefix|..] == Render(Message(e))
    ensures e.Other? && e.message.Some? ==> t[|FailurePrefix|..] == e.message.value
  {
    FailurePrefix + Render(Message(e))
  }

  const RejectedCreatePrefix: string := "Fallo al crear la experiencia. Código: "

  /**
   * `createExperience` of the experience repository: a 2xx status succeeds;
   * any other status throws a plain exception naming the code; an exception
   * thrown by the call propagates. It never raises an HTTP error.
   */
  function CreateFailure(reply: UnitReply): (r: Option<Error>)
    ensures r.None? <==> reply.Status? && 200 <= reply.code <= 299
    ensures r.Some? ==> r.value.Other?
    ensures reply.Status? && r.Some? ==> r.value.message == Some(RejectedCreatePrefix + NatToString(reply.code))
    ensures reply.Thrown? ==> r == Some(Other(reply.message))
  {
    UnitCallFailure(reply, RejectedCreatePrefix)
  }

  /** A rejected creation shows the failure prefix, then the repository's message naming the status code. */
  lemma RejectedCreateText(code: nat)
    requires !(200 <= code <= 299)
    ensures CreateFailure(Status(code)).Some?
    ensures FailureText(CreateFailure(Status(code)).value)
         == "Error al crear experiencia: " + RejectedCreatePrefix + NatToString(code)
  {
    var m := RejectedCreatePrefix + NatToString(code);
    assert CreateFailure(Status(code)) == Some(Other(Some(m)));
    assert FailureText(Other(Some(m))) == FailurePrefix + m;
    assert FailurePrefix + m == FailurePrefix + RejectedCreatePrefix + NatToString(code);
  }

  class CreateExperienceViewModel {
    var state: CreateExperienceUiState

    ghost predicate Valid()
      reads this
    {
      WellFormed(state)
    }

    constructor ()
      ensures state == InitialState && Valid()
    {
      state := InitialState;
    }

    /**
     * `updateField`: a known field takes the value and the error is cleared;
     * an unknown one changes nothing. A value of the wrong type makes the
     * cast throw, and the state is kept.
     */
    method UpdateField(field: string, value: FieldValue) returns (thrown: bool)
      modifies this
      ensures field in {"title", "description", "location", "duration", "price", "frequencies"} ==>
        thrown == !value.StringValue?
      ensures field == "categoryId" ==> thrown == !value.IntValue?
      ensures thrown || field !in {"title", "description", "location", "duration", "price", "frequencies", "categoryId"} ==> state == old(state)
      ensures !thrown ==>
        && (field == "title" ==> state == old(state).(title := value.s, errorMessage := None))
        && (field == "description" ==> state == old(state).(description := value.s, errorMessage := None))
        && (field == "location" ==> state == old(state).(location := value.s, errorMessage := None))
        && (field == "duration" ==> state == old(state).(duration := value.s, errorMessage := None))
        && (field == "price" ==> state == old(state).(price := value.s, errorMessage := None))
        && (field == "frequencies" ==> state == old(state).(frequencies := value.s, errorMessage := None))
        && (field == "categoryId" ==> state == old(state).(categoryId := Some(value.n), errorMessage := None))
      ensures old(Valid()) ==> Valid()
    {
      thrown := false;
      if field == "categoryId" {
        if !value.IntValue? { return true; }
        state := state.(categoryId := Some(value.n), errorMessage := None);
      } else if field in {"title", "description", "location", "duration", "price", "frequencies"} {
        if !value.StringValue? { return true; }
        var v := value.s;
        if field == "title" {
          state := state.(title := v, errorMessage := None);
        } else if field == "description" {
          state := state.(description := v, errorMessage := None);
        } else if field == "location" {
          state := state.(location := v, errorMessage := None);
        } else if field == "duration" {
          state := state.(duration := v, errorMessage := None);
        } else if field == "price" {
          state := state.(price := v, errorMessage := None);
        } else {
          state := state.(frequencies := v, errorMessage := None);
        }
      }
    }

    /** `toggleSchedule` */
    method ToggleSchedule(time: string)
      modifies this
      ensures state == old(state).(schedules := ToggledSchedules(old(state).schedules, time))
      ensures Sorted(state.schedules)
      ensures old(Valid()) ==> Valid() && (time in state.schedules <==> time !in old(state).schedules)
    {
      if Valid() {
        ToggleFlips(state.schedules, time);
      }
      state := state.(schedules := ToggledSchedules(state.schedules, time));
    }

    /** `addInclude`: the trimmed text is appended when it is not blank and fewer than three includes exist. */
    method AddInclude(text: string)
      modifies this
      ensures !IsBlank(text) && |old(state).includes| < MaxIncludes ==> state == old(state).(includes := old(state).includes + [Trim(text)])
      ensures IsBlank(text) || |old(state).includes| >= MaxIncludes ==> state == old(state)
      ensures old(Valid()) ==> Valid()
    {
      if !IsBlank(text) && |state.includes| < MaxIncludes {
        state := state.(includes := state.includes + [Trim(text)]);
      }
    }

    /** `removeInclude`: the include at `index` goes, the others keep their order; an index out of range throws. */
    method RemoveInclude(index: int) returns (thrown: bool)
      modifies this
      ensures thrown <==> !(0 <= index < |old(state).includes|)
      ensures thrown ==> state == old(state)
      ensures !thrown ==> state == old(state).(includes := old(state).includes[..index] + old(state).includes[index + 1..])
      ensures old(Valid()) ==> Valid()
    {
      if !(0 <= index < |state.includes|) {
        return true;
      }
      state := state.(includes := state.includes[..index] + state.includes[index + 1..]);
      return false;
    }

    /** `addImage`: the trimmed URL is appended when it is not blank; there is no limit. */
    method AddImage(url: string)
      modifies this
      ensures !IsBlank(url) ==> state == old(state).(images := old(state).images + [Trim(url)])
      ensures IsBlank(url) ==> state == old(state)
      ensures old(Valid()) ==> Valid()
    {
      if !IsBlank(url) {
        state := state.(images := state.images + [Trim(url)]);
      }
    }

    /** `clearMessages` */
    method ClearMessages()
      modifies this
      ensures state == old(state).(successMessage := None, errorMessage := None)
      ensures old(Valid()) ==> Valid()
    {
      state := state.(successMessage := None, errorMessage := None);
    }

    /**
     * `createExperience`, with the current user and how the backend call
     * ended, which the repository turns into a failure or none. A missing agency id or an
     * incomplete form sets an error and sends nothing; otherwise the command
     * is sent, and a success resets the form.
     */
    method CreateExperience(currentUser: Option<User>, reply: UnitReply) returns (command: Option<CreateExperienceCommand>)
      modifies this
      ensures currentUser.None? || IsBlank(currentUser.value.id) ==>
        command.None? && state == old(state).(errorMessage := Some(SessionError))
      ensures currentUser.Some? && !IsBlank(currentUser.value.id) && !ReadyToCreate(old(state)) ==>
        command.None? && state == old(state).(errorMessage := Some(MissingFields))
      ensures currentUser.Some? && !IsBlank(currentUser.value.id) && ReadyToCreate(old(state)) ==>
        && command == Some(CommandOf(old(state), currentUser.value.id))
        && state == if CreateFailure(reply).None? then InitialState.(successMessage := Some(SuccessText(old(state).title)))
                    else old(state).(isLoading := false, errorMessage := Some(FailureText(CreateFailure(reply).value)))
      ensures old(Valid()) ==> Valid()
    {
      if currentUser.None? || IsBlank(currentUser.value.id) {
        state := state.(errorMessage := Some(SessionError));
        return None;
      }
      if !ReadyToCreate(state) {
        state := state.(errorMessage := Some(MissingFields));
        return None;
      }
      var c := CommandOf(state, currentUser.value.id);
      state := state.(isLoading := true, errorMessage := None);
      command := Some(c);
      var created := CreateFailure(reply);
      if created.None? {
        state := InitialState.(successMessage := Some(SuccessText(c.title)), isLoading := false);
      } else {
        state := state.(isLoading := false, errorMessage := Some(FailureText(created.value)));
      }
    }
  }
}
