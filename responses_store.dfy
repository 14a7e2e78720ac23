/**
 * The interview responses store (`src/store/InterviewResponsesStore.js`): one
 * interview, the candidate sessions recorded against it, a tag filter and the
 * transcript of the response being viewed, guarded by the interview's uuid.
 */
module InterviewResponsesStore {
  import opened Common

  datatype Filters = Filters(tag: Option<string>)

  class Store {
    var interview: Option<Interview>
    var interviewResponses: seq<UserInterview>
    var filters: Filters
    var messages: seq<ChatMessage>
    var initError: bool
    ghost var calls: seq<RemoteCall>

    constructor ()
      ensures interview == None && interviewResponses == [] && filters == Filters(None)
      ensures messages == [] && !initError && calls == []
    {
      interview := None;
      interviewResponses := [];
      filters := Filters(None);
      messages := [];
      initError := false;
      calls := [];
    }

    /** The guard of `initResponseDetails`: an interview with this uuid is held. */
    predicate Holds(uuid: string)
      reads this
    {
      interview.Some? && interview.value.uuid == uuid
    }

    /** The state `resetStore` leaves. */
    predicate IsCleared()
      reads this
    {
      interview == None && interviewResponses == [] && filters == Filters(None) &&
      messages == [] && !initError
    }

    /**
     * `initResponseDetails(uuid)`. When that interview is held, nothing
     * happens. Otherwise the store is reset, the interview is fetched
     * (`fetched`) and then its responses (`responses`); either failure sets
     * `initError`, and an interview loaded before a failed responses fetch
     * stays. An interview with an empty uuid fetches no responses.
     */
    method InitResponseDetails(uuid: string, fetched: Result<Interview>,
                               responses: Result<seq<UserInterview>>)
      modifies this
      ensures old(Holds(uuid)) ==>
                interview == old(interview) && interviewResponses == old(interviewResponses) &&
                filters == old(filters) && messages == old(messages) &&
                initError == old(initError) && calls == old(calls)
      ensures !old(Holds(uuid)) ==> filters == Filters(None) && messages == []
      ensures !old(Holds(uuid)) && fetched.Err? ==>
                interview == None && interviewResponses == [] && initError &&
                calls == old(calls) + [RemoteCall.GetInterviewByUuid(Some(uuid))]
      ensures !old(Holds(uuid)) && fetched.Ok? && fetched.value.uuid == "" ==>
                interview == Some(fetched.value) && interviewResponses == [] && !initError &&
                calls == old(calls) + [RemoteCall.GetInterviewByUuid(Some(uuid))]
      ensures !old(Holds(uuid)) && fetched.Ok? && fetched.value.uuid != "" ==>
                interview == Some(fetched.value) &&
                interviewResponses == (if responses.Ok? then responses.value else []) &&
                initError == responses.Err? &&
                calls == old(calls) + [RemoteCall.GetInterviewByUuid(Some(uuid)),
                                       GetAllUserInterviewsByUuid(fetched.value.uuid)]
    {
      if Holds(uuid) {
        return;
      }
      ResetStore();
      calls := calls + [RemoteCall.GetInterviewByUuid(Some(uuid))];
      match fetched {
        case Err =>
          initError := true;
        case Ok(i) =>
          interview := Some(i);
          var ok := FetchResponses(responses);
          if !ok {
            initError := true;
          }
      }
    }

    /**
     * `fetchResponses`: the responses of the held interview replace the list.
     * When the held uuid is empty it returns without fetching. Without a held
     * interview, reading its uuid throws, so it rejects (`ok` false) without
     * fetching; a failed fetch rejects and changes nothing.
     */
    method FetchResponses(responses: Result<seq<UserInterview>>) returns (ok: bool)
      modifies this
      ensures old(interview).None? ==> !ok && calls == old(calls)
      ensures old(interview).Some? && old(interview).value.uuid == "" ==> ok && calls == old(calls)
      ensures old(interview).Some? && old(interview).value.uuid != "" ==>
                ok == responses.Ok? &&
                calls == old(calls) + [GetAllUserInterviewsByUuid(old(interview).value.uuid)]
      ensures interviewResponses ==
                if old(interview).Some? && old(interview).value.uuid != "" && responses.Ok?
                then responses.value else old(interviewResponses)
      ensures interview == old(interview) && filters == old(filters) && messages == old(messages)
      ensures initError == old(initError)
    {
      if interview.None? {
        return false;
      }
      var interviewUuid := interview.value.uuid;
      if interviewUuid == "" {
        return true;
      }
      calls := calls + [GetAllUserInterviewsByUuid(interviewUuid)];
      match responses {
        case Ok(list) =>
          interviewResponses := list;
          ok := true;
        case Err =>
          ok := false;
      }
    }

    method ResetStore()
      modifies this
      ensures IsCleared()
      ensures calls == old(calls)
    {
      interview, interviewResponses, filters, messages, initError := None, [], Filters(None), [], false;
    }

    method SetTagFilter(tag: Option<string>)
      modifies this
      ensures filters == old(filters).(tag := tag)
      ensures interview == old(interview) && interviewResponses == old(interviewResponses)
      ensures messages == old(messages) && initError == old(initError) && calls == old(calls)
    {
      filters := filters.(tag := tag);
    }

    /**
     * `setMessages(userInterviewUuid)`: the fetched transcript (`transcript`)
     * replaces the messages wholesale. A failed fetch rejects and changes nothing.
     */
    method SetMessages(userInterviewUuid: string, transcript: Result<seq<ChatMessage>>) returns (ok: bool)
      modifies this
      ensures ok == transcript.Ok?
      ensures messages == if ok then transcript.value else old(messages)
      ensures calls == old(calls) + [GetUserInterviewMessages(userInterviewUuid)]
      ensures interview == old(interview) && interviewResponses == old(interviewResponses)
      ensures filters == old(filters) && initError == old(initError)
    {
      calls := calls + [GetUserInterviewMessages(userInterviewUuid)];
      match transcript {
        case Ok(ms) =>
          messages := ms;
          ok := true;
        case Err =>
          ok := false;
      }
    }

    method ResetMessages()
      modifies this
      ensures messages == []
      ensures interview == old(interview) && interviewResponses == old(interviewResponses)
      ensures filters == old(filters) && initError == old(initError) && calls == old(calls)
    {
      messages := [];
    }
  }
}
