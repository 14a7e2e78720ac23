/**
 * The interview planning store (`src/store/InterviewPlannerStore.js`): the
 * focal interview, its planning transcript, title updates and two sticky
 * error flags.
 *
 * The interview id is optional because `sendMessage` re-initialises with
 * whatever id the store holds, which is `null` before any initialisation.
 */
module InterviewPlannerStore {
  import opened Common

  class Store {
    var interviewId: Option<string>
    var interviewDetails: Option<Interview>
    var messages: seq<ChatMessage>
    var initError: bool
    var updateError: bool
    ghost var calls: seq<RemoteCall>

    constructor ()
      ensures interviewId == None && interviewDetails == None && messages == []
      ensures !initError && !updateError && calls == []
    {
      interviewId := None;
      interviewDetails := None;
      messages := [];
      initError := false;
      updateError := false;
      calls := [];
    }

    /**
     * `initInterviewDetails(id)`: no identity guard, every call fetches.
     * `details` is the interview fetch, `transcript` the planning-message fetch
     * that follows it only when the first succeeded. Either failure sets
     * `initError`; what was set before the failure stays.
     */
    method InitInterviewDetails(id: Option<string>, details: Result<Interview>,
                                transcript: Result<seq<ChatMessage>>)
      modifies this
      ensures details.Err? ==>
                interviewId == old(interviewId) && interviewDetails == old(interviewDetails) &&
                messages == old(messages) && initError &&
                calls == old(calls) + [GetInterviewByUuid(id)]
      ensures details.Ok? ==>
                interviewId == id && interviewDetails == Some(details.value) &&
                calls == old(calls) + [GetInterviewByUuid(id), GetPlannerMessages(id)]
      ensures details.Ok? && transcript.Ok? ==>
                messages == transcript.value && initError == old(initError)
      ensures details.Ok? && transcript.Err? ==> messages == old(messages) && initError
      ensures updateError == old(updateError)
    {
      calls := calls + [GetInterviewByUuid(id)];
      match details {
        case Err =>
          initError := true;
        case Ok(d) =>
          interviewId, interviewDetails := id, Some(d);
          var ok := FetchMessages(transcript);
          if !ok {
            initError := true;
          }
      }
    }

    method ResetInitError()
      modifies this
      ensures !initError
      ensures interviewId == old(interviewId) && interviewDetails == old(interviewDetails)
      ensures messages == old(messages) && updateError == old(updateError) && calls == old(calls)
    {
      initError := false;
    }

    method ResetUpdateError()
      modifies this
      ensures !updateError
      ensures interviewId == old(interviewId) && interviewDetails == old(interviewDetails)
      ensures messages == old(messages) && initError == old(initError) && calls == old(calls)
    {
      updateError := false;
    }

    /** `resetStore`: clears messages, id and both flags; the details stay. */
    method ResetStore()
      modifies this
      ensures messages == [] && interviewId == None && !initError && !updateError
      ensures interviewDetails == old(interviewDetails) && calls == old(calls)
    {
      messages, interviewId, initError, updateError := [], None, false, false;
    }

    /**
     * `fetchMessages`: the transcript of the held interview id replaces the
     * messages. A failed fetch rejects (`ok` false) and changes nothing.
     */
    method FetchMessages(transcript: Result<seq<ChatMessage>>) returns (ok: bool)
      modifies this
      ensures ok == transcript.Ok?
      ensures messages == if ok then transcript.value else old(messages)
      ensures calls == old(calls) + [GetPlannerMessages(interviewId)]
      ensures interviewId == old(interviewId) && interviewDetails == old(interviewDetails)
      ensures initError == old(initError) && updateError == old(updateError)
    {
      calls := calls + [GetPlannerMessages(interviewId)];
      match transcript {
        case Ok(ms) =>
          messages := ms;
          ok := true;
        case Err =>
          ok := false;
      }
    }

    method AddHumanMessage(text: string)
      modifies this
      ensures messages == old(messages) + [HumanMessage(text)]
      ensures interviewId == old(interviewId) && interviewDetails == old(interviewDetails)
      ensures initError == old(initError) && updateError == old(updateError) && calls == old(calls)
    {
      messages := messages + [HumanMessage(text)];
    }

    /**
     * `sendMessage(text)`: posts the message (`reply` carries the returned
     * `conversation`), appends the reply, then re-runs the initialisation for
     * the held id with the outcomes `details` and `transcript`. A failed post
     * rejects (`ok` false) and changes nothing.
     */
    method SendMessage(text: string, reply: Result<ChatMessage>, details: Result<Interview>,
                       transcript: Result<seq<ChatMessage>>) returns (ok: bool)
      modifies this
      ensures ok == reply.Ok?
      ensures !ok ==>
                messages == old(messages) && interviewId == old(interviewId) &&
                interviewDetails == old(interviewDetails) && initError == old(initError) &&
                calls == old(calls) + [SendPlannerMessage(old(interviewId), text)]
      ensures ok ==>
                calls == old(calls) + [SendPlannerMessage(old(interviewId), text),
                                       GetInterviewByUuid(old(interviewId))] +
                         (if details.Ok? then [GetPlannerMessages(old(interviewId))] else [])
      ensures ok && details.Err? ==>
                messages == old(messages) + [reply.value] && initError &&
                interviewDetails == old(interviewDetails)
      ensures ok && details.Ok? ==> interviewDetails == Some(details.value)
      ensures ok && details.Ok? && transcript.Ok? ==> messages == transcript.value
      ensures ok && details.Ok? && transcript.Err? ==>
                messages == old(messages) + [reply.value] && initError
      ensures ok ==> interviewId == old(interviewId)
      ensures initError == (old(initError) || (ok && (details.Err? || transcript.Err?)))
      ensures updateError == old(updateError)
    {
      calls := calls + [SendPlannerMessage(interviewId, text)];
      if reply.Err? {
        return false;
      }
      messages := messages + [reply.value];
      InitInterviewDetails(interviewId, details, transcript);
      ok := true;
    }

    /**
     * `updateTitle(title)`: on success the server's interview (`response`)
     * replaces the details wholesale; on failure `updateError` is set and the
     * details stay.
     */
    method UpdateTitle(title: string, response: Result<Interview>)
      modifies this
      ensures interviewDetails == if response.Ok? then Some(response.value) else old(interviewDetails)
      ensures updateError == (response.Err? || old(updateError))
      ensures calls == old(calls) + [UpdateInterview(interviewId, title)]
      ensures interviewId == old(interviewId) && messages == old(messages)
      ensures initError == old(initError)
    {
      calls := calls + [UpdateInterview(interviewId, title)];
      match response {
        case Ok(updated) =>
          interviewDetails := Some(updated);
        case Err =>
          updateError := true;
      }
    }
  }

  /**
   * A successful send whose re-initialisation succeeds leaves exactly the
   * server's transcript: the optimistic human message and the appended reply
   * are superseded by it.
   */
  method SendThenTranscriptWins(id: string, text: string, reply: ChatMessage, d: Interview,
                                transcript: seq<ChatMessage>)
  {
    var store := new Store();
    store.InitInterviewDetails(Some(id), Ok(d), Ok([]));
    store.AddHumanMessage(text);
    assert store.messages == [HumanMessage(text)];
    var ok := store.SendMessage(text, Ok(reply), Ok(d), Ok(transcript));
    assert ok && store.messages == transcript;
  }
}
