/** The agency's inquiries screen: loading the inquiries and the answer dialog. */
module QueriesViewModel {
  import opened Wrappers
  import opened Numbers
  import opened Failures
  import opened Text
  import opened Dtos
  import opened Domain
  import InquiryMapper

  datatype QueriesUiState = QueriesUiState(
    inquiries: seq<Query>,
    isLoading: bool,
    error: Option<string>,
    successMessage: Option<string>,
    showResponseDialog: bool,
    selectedQuery: Option<Query>,
    responseText: string,
    isSendingResponse: bool)

  /** `QueriesUiState()` */
  const InitialState: QueriesUiState := QueriesUiState([], false, None, None, false, None, "", false)

  const NoAgencyToLoad: string := "No se encontró el ID de la agencia. Verifica la sesión."
  const NoAgencyToAnswer: string := "No se encontró el ID de la agencia. Vuelve a iniciar sesión."
  const ResponseSent: string := "Respuesta enviada correctamente."

  /** `currentUser?.id` */
  function AgencyIdOf(currentUser: Option<User>): (id: Option<string>)
    ensures id.Some? <==> currentUser.Some?
    ensures id.Some? ==> id.value == currentUser.value.id
  {
    if currentUser.Some? then Some(currentUser.value.id) else None
  }

  /** `getAgencyInquiries`: the fetched inquiries, each mapped to a query; a failure propagates. */
  function AgencyInquiries(fetched: Result<seq<InquiryDto>>): (r: Result<seq<Query>>)
    ensures r.Err? <==> fetched.Err?
    ensures r.Err? ==> r.error == fetched.error
    ensures r.Ok? ==> |r.value| == |fetched.value| && forall i :: 0 <= i < |r.value| ==> r.value[i] == InquiryMapper.ToDomain(fetched.value[i])
  {
    if fetched.Err? then Err(fetched.error)
    else Ok(seq(|fetched.value|, i requires 0 <= i < |fetched.value| => InquiryMapper.ToDomain(fetched.value[i])))
  }

  /** Every loaded inquiry names its traveler and its experience. */
  lemma LoadedInquiriesNamed(fetched: Result<seq<InquiryDto>>)
    requires fetched.Ok?
    ensures forall q :: q in AgencyInquiries(fetched).value ==>
              q.travelerName.Some? && !IsBlank(q.travelerName.value) && q.experienceTitle.Some? && !IsBlank(q.experienceTitle.value)
  {
    var r := AgencyInquiries(fetched).value;
    forall q | q in r
      ensures q.travelerName.Some? && !IsBlank(q.travelerName.value) && q.experienceTitle.Some? && !IsBlank(q.experienceTitle.value)
    {
      var i :| 0 <= i < |r| && r[i] == q;
      InquiryMapper.ToDomainNeverBlank(fetched.value[i]);
    }
  }

  const LoadErrorPrefix: string := "Error al cargar consultas: "

  /**
   * `"Error al cargar consultas: ${e.message}"`: the prefix, then the
   * message, which for an HTTP error names its code.
   */
  function LoadErrorText(e: Error): (t: string)
    ensures LoadErrorPrefix <= t
    ensures t[|LoadErrorPrefix|..] == Render(Message(e))
    ensures e.Http? ==> t[|LoadErrorPrefix|..] == "HTTP " + NatToString(e.code) + " " + e.status
    ensures e.Other? && e.message.Some? ==> t[|LoadErrorPrefix|..] == e.message.value
  {
    LoadErrorPrefix + Render(Message(e))
  }

  const RejectedSendPrefix: string := "Fallo al enviar la respuesta. Código: "

  /**
   * `sendResponse` of the inquiry repository: a 2xx status succeeds; any
   * other status throws a plain exception naming the code; an exception
   * thrown by the call propagates. It never raises an HTTP error.
   */
  function SendFailure(reply: UnitReply): (r: Option<Error>)
    ensures r.None? <==> reply.Status? && 200 <= reply.code <= 299
    ensures r.Some? ==> r.value.Other?
    ensures reply.Status? && r.Some? ==> r.value.message == Some(RejectedSendPrefix + NatToString(reply.code))
    ensures reply.Thrown? ==> r == Some(Other(reply.message))
  {
    UnitCallFailure(reply, RejectedSendPrefix)
  }

  /** A rejected send always shows as an unexpected error naming the status code. */
  lemma RejectedSendText(code: nat)
    requires !(200 <= code <= 299)
    ensures SendFailure(Status(code)).Some?
    ensures SendErrorText(SendFailure(Status(code)).value)
         == "Error inesperado al enviar la respuesta: " + RejectedSendPrefix + NatToString(code)
  {
    assert "Error inesperado al enviar la respuesta: " + (RejectedSendPrefix + NatToString(code))
        == "Error inesperado al enviar la respuesta: " + RejectedSendPrefix + NatToString(code);
  }

  /**
   * The error after a failed send or refresh: an HTTP failure shows its code
   * and its body (or its status text); any other failure its message.
   */
  function SendErrorText(e: Error): (t: string)
    ensures e.Http? ==> t == "Error al enviar la respuesta (" + NatToString(e.code) + "): " + e.body.GetOr(e.status)
    ensures e.Other? ==> t == "Error inesperado al enviar la respuesta: " + Render(e.message)
  {
    match e
    case Http(code, status, body) => "Error al enviar la respuesta (" + NatToString(code) + "): " + body.GetOr(status)
    case Other(message) => "Error inesperado al enviar la respuesta: " + Render(message)
  }

  /** The text the dialog opens with: the answer of an answered query, otherwise nothing. */
  function InitialResponseText(q: Query): (t: string)
    ensures q.isAnswered && q.answer.Some? ==> t == q.answer.value
    ensures !q.isAnswered || q.answer.None? ==> t == ""
  {
    if q.isAnswered then q.answer.GetOr("") else ""
  }

  class QueriesViewModel {
    var state: QueriesUiState

    constructor ()
      ensures state == InitialState
    {
      state := InitialState;
    }

    /**
     * The synchronous part of `loadAgencyInquiries`: nothing while a load is
     * running, otherwise start one.
     */
    method LoadAgencyInquiries() returns (started: bool)
      modifies this
      ensures started == !old(state).isLoading
      ensures started ==> state == old(state).(isLoading := true, error := None)
      ensures !started ==> state == old(state)
    {
      if state.isLoading {
        return false;
      }
      state := state.(isLoading := true, error := None);
      return true;
    }

    /**
     * The rest of `loadAgencyInquiries`, with the current user and what the
     * fetch returned: a missing or blank agency id stops with an error, a
     * success replaces the inquiries, a failure keeps them.
     */
    method FinishLoadingInquiries(currentUser: Option<User>, fetched: Result<seq<InquiryDto>>)
      modifies this
      ensures IsNullOrBlank(AgencyIdOf(currentUser)) ==> state == old(state).(error := Some(NoAgencyToLoad), isLoading := false)
      ensures !IsNullOrBlank(AgencyIdOf(currentUser)) ==>
        var r := AgencyInquiries(fetched);
        state == if r.Ok? then old(state).(inquiries := r.value, isLoading := false)
                 else old(state).(error := Some(LoadErrorText(r.error)), isLoading := false)
    {
      var agencyId := AgencyIdOf(currentUser);
      if IsNullOrBlank(agencyId) {
        state := state.(error := Some(NoAgencyToLoad), isLoading := false);
        return;
      }
      var r := AgencyInquiries(fetched);
      if r.Ok? {
        state := state.(inquiries := r.value, isLoading := false);
      } else {
        state := state.(error := Some(LoadErrorText(r.error)), isLoading := false);
      }
    }

    /** `openResponseDialog`: show the dialog for `q`, with its answer when it has one. */
    method OpenResponseDialog(q: Query)
      modifies this
      ensures state == old(state).(showResponseDialog := true, selectedQuery := Some(q), responseText := InitialResponseText(q))
    {
      state := state.(showResponseDialog := true, selectedQuery := Some(q), responseText := InitialResponseText(q));
    }

    /** `dismissResponseDialog` */
    method DismissResponseDialog()
      modifies this
      ensures state == old(state).(showResponseDialog := false, selectedQuery := None, responseText := "", isSendingResponse := false)
    {
      state := state.(showResponseDialog := false, selectedQuery := None, responseText := "", isSendingResponse := false);
    }

    /** `updateResponseText` */
    method UpdateResponseText(text: string)
      modifies this
      ensures state == old(state).(responseText := text)
    {
      state := state.(responseText := text);
    }

    /**
     * `sendResponse`, with the current user, the time the clock gives, and
     * how the send ended and what the refresh after it returned. Returns the
     * command sent, if any.
     */
    method SendResponse(currentUser: Option<User>, answeredAt: string, reply: UnitReply, refreshed: Result<seq<InquiryDto>>)
      returns (command: Option<CreateResponseCommand>)
      modifies this
      ensures old(state).selectedQuery.None? ==> command.None? && state == old(state)
      ensures old(state).selectedQuery.Some? && IsNullOrBlank(AgencyIdOf(currentUser)) ==>
        command.None? && state == old(state).(error := Some(NoAgencyToAnswer), isSendingResponse := false)
      ensures old(state).selectedQuery.Some? && !IsNullOrBlank(AgencyIdOf(currentUser)) ==>
        && command == Some(CreateResponseCommand(old(state).selectedQuery.value.id, currentUser.value.id, old(state).responseText, answeredAt))
        && var r := AgencyInquiries(refreshed);
           state == if SendFailure(reply).Some? then old(state).(isSendingResponse := false, error := Some(SendErrorText(SendFailure(reply).value)), successMessage := None)
                    else if r.Err? then old(state).(isSendingResponse := false, error := Some(SendErrorText(r.error)), successMessage := None)
                    else old(state).(inquiries := r.value, isSendingResponse := false, showResponseDialog := false, error := None,
                                     successMessage := Some(ResponseSent), selectedQuery := None, responseText := "")
    {
      var query := state.selectedQuery;
      var agencyId := AgencyIdOf(currentUser);
      if query.None? {
        return None;
      }
      if IsNullOrBlank(agencyId) {
        state := state.(error := Some(NoAgencyToAnswer), isSendingResponse := false);
        return None;
      }
      var answer := state.responseText;
      state := state.(isSendingResponse := true, error := None, successMessage := None);
      command := Some(CreateResponseCommand(query.value.id, agencyId.value, answer, answeredAt));
      var failure := SendFailure(reply);
      if failure.Some? {
        state := state.(isSendingResponse := false, error := Some(SendErrorText(failure.value)));
        return;
      }
      var r := AgencyInquiries(refreshed);
      if r.Err? {
        state := state.(isSendingResponse := false, error := Some(SendErrorText(r.error)));
      } else {
        state := state.(inquiries := r.value, isSendingResponse := false, showResponseDialog := false,
                        successMessage := Some(ResponseSent), selectedQuery := None, responseText := "");
      }
    }

    /** `clearMessages`: only the two messages are cleared. */
    method ClearMessages()
      modifies this
      ensures state == old(state).(successMessage := None, error := None)
    {
      state := state.(successMessage := None, error := None);
    }
  }
}
