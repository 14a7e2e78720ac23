/**
 * The candidate session store (`src/store/UserInterviewSessionStore.js`): one
 * user interview with its interview details and transcript, guarded by the
 * user interview's uuid, reset before every fetch for a new uuid.
 */
module UserInterviewSessionStore {
  import opened Common

  class Store {
    var userInterview: Option<UserInterview>
    var interviewDetails: Option<Interview>
    var messages: seq<ChatMessage>
    var initError: bool
    ghost var calls: seq<RemoteCall>

    constructor ()
      ensures userInterview == None && interviewDetails == None && messages == []
      ensures !initError && calls == []
    {
      userInterview := None;
      interviewDetails := None;
      messages := [];
      initError := false;
      calls := [];
    }

    /** The guard of `initUserInterview`: a user interview with this uuid is held. */
    predicate Holds(uuid: string)
      reads this
    {
      userInterview.Some? && userInterview.value.uuid == uuid
    }

    /**
     * `initUserInterview(uuid)`. When the same user interview is held, nothing
     * happens and nothing is returned (`None`, the source's `undefined`).
     * Otherwise the store is reset, then the user interview (`session`), its
     * interview (`details`) and its transcript (`transcript`) are fetched in
     * turn, each only when the previous one succeeded; the result is
     * `Some(true)` when all three did and `Some(false)` at the first failure,
     * with what was set before it kept. `initError` is never set.
     */
    method InitUserInterview(uuid: string, session: Result<UserInterview>,
                             details: Result<Interview>, transcript: Result<seq<ChatMessage>>)
      returns (r: Option<bool>)
      modifies this
      ensures old(Holds(uuid)) ==>
                r == None && userInterview == old(userInterview) &&
                interviewDetails == old(interviewDetails) && messages == old(messages) &&
                initError == old(initError) && calls == old(calls)
      ensures !old(Holds(uuid)) ==> r == Some(session.Ok? && details.Ok? && transcript.Ok?)
      ensures !old(Holds(uuid)) ==> !initError
      ensures !old(Holds(uuid)) && session.Err? ==>
                userInterview == None && messages == [] &&
                interviewDetails == old(interviewDetails) &&
                calls == old(calls) + [GetUserInterviewByUuid(uuid)]
      ensures !old(Holds(uuid)) && session.Ok? ==>
                userInterview == Some(session.value) &&
                interviewDetails == (if details.Ok? then Some(details.value) else old(interviewDetails)) &&
                messages == (if details.Ok? && transcript.Ok? then transcript.value else [])
      ensures !old(Holds(uuid)) && session.Ok? && details.Err? ==>
                calls == old(calls) + [GetUserInterviewByUuid(uuid),
                                       RemoteCall.GetInterviewByUuid(Some(session.value.interviewUuid))]
      ensures !old(Holds(uuid)) && session.Ok? && details.Ok? ==>
                calls == old(calls) + [GetUserInterviewByUuid(uuid),
                                       RemoteCall.GetInterviewByUuid(Some(session.value.interviewUuid)),
                                       GetUserInterviewMessages(session.value.uuid)]
    {
      if Holds(uuid) {
        return None;
      }
      ResetStore();
      calls := calls + [GetUserInterviewByUuid(uuid)];
      if session.Err? {
        return Some(false);
      }
      var u := session.value;
      userInterview := Some(u);
      var ok := FetchInterviewDetails(u.interviewUuid, details);
      if !ok {
        return Some(false);
      }
      ok := FetchMessages(u.uuid, transcript);
      if !ok {
        return Some(false);
      }
      return Some(true);
    }

    /**
     * `fetchInterviewDetails(interviewUuid)`: the fetched interview replaces
     * the details. A failed fetch rejects (`ok` false) and changes nothing.
     */
    method FetchInterviewDetails(interviewUuid: string, details: Result<Interview>) returns (ok: bool)
      modifies this
      ensures ok == details.Ok?
      ensures interviewDetails == if ok then Some(details.value) else old(interviewDetails)
      ensures calls == old(calls) + [RemoteCall.GetInterviewByUuid(Some(interviewUuid))]
      ensures userInterview == old(userInterview) && messages == old(messages)
      ensures initError == old(initError)
    {
      calls := calls + [RemoteCall.GetInterviewByUuid(Some(interviewUuid))];
      match details {
        case Ok(d) =>
          interviewDetails := Some(d);
          ok := true;
        case Err =>
          ok := false;
      }
    }

    /** `resetStore`: clears the user interview, the messages and the flag; the details stay. */
    method ResetStore()
      modifies this
      ensures userInterview == None && messages == [] && !initError
      ensures interviewDetails == old(interviewDetails) && calls == old(calls)
    {
      userInterview, messages, initError := None, [], false;
    }

    /**
     * `fetchMessages(uuid)`: without a held user interview, nothing happens and
     * nothing is fetched; otherwise the transcript of `uuid` (the argument,
     * not the held one) replaces the messages. A failed fetch rejects.
     */
    method FetchMessages(uuid: string, transcript: Result<seq<ChatMessage>>) returns (ok: bool)
      modifies this
      ensures old(userInterview).None? ==> ok && messages == old(messages) && calls == old(calls)
      ensures old(userInterview).Some? ==>
                ok == transcript.Ok? &&
                messages == (if ok then transcript.value else old(messages)) &&
                calls == old(calls) + [GetUserInterviewMessages(uuid)]
      ensures userInterview == old(userInterview) && interviewDetails == old(interviewDetails)
      ensures initError == old(initError)
    {
      if userInterview.None? {
        return true;
      }
      calls := calls + [GetUserInterviewMessages(uuid)];
      match transcript {
        case Ok(ms) =>
          messages := ms;
          ok := true;
        case Err =>
          ok := false;
      }
    }

    method AddHumanMessage(text: string)
      modifies this
      ensures messages == old(messages) + [HumanMessage(text)]
      ensures userInterview == old(userInterview) && interviewDetails == old(interviewDetails)
      ensures initError == old(initError) && calls == old(calls)
    {
      messages := messages + [HumanMessage(text)];
    }

    /**
     * `sendMessage(text)`: without a held user interview, resolves to `null`
     * (`Ok(None)`) and posts nothing. Otherwise posts to the held user
     * interview; the returned `conversation` (`reply`) is appended and
     * returned. A failed post rejects (`Err`) and changes nothing.
     */
    method SendMessage(text: string, reply: Result<ChatMessage>) returns (r: Result<Option<ChatMessage>>)
      modifies this
      ensures old(userInterview).None? ==>
                r == Ok(None) && messages == old(messages) && calls == old(calls)
      ensures old(userInterview).Some? ==>
                calls == old(calls) + [SendUserInterviewMessage(old(userInterview).value.uuid, text)]
      ensures old(userInterview).Some? && reply.Ok? ==>
                r == Ok(Some(reply.value)) && messages == old(messages) + [reply.value]
      ensures old(userInterview).Some? && reply.Err? ==> r == Err && messages == old(messages)
      ensures userInterview == old(userInterview) && interviewDetails == old(interviewDetails)
      ensures initError == old(initError)
    {
      if userInterview.None? {
        return Ok(None);
      }
      calls := calls + [SendUserInterviewMessage(userInterview.value.uuid, text)];
      match reply {
        case Ok(conversation) =>
          messages := messages + [conversation];
          r := Ok(Some(conversation));
        case Err =>
          r := Err;
      }
    }
  }

  /**
   * Initialising twice for the same uuid fetches once; switching to another
   * uuid clears the first one's transcript before its fetches.
   */
  method InitSameThenOther(a: string, b: string, u: UserInterview, d: Interview,
                           ms: seq<ChatMessage>, other: Result<UserInterview>)
    requires u.uuid == a && a != b
  {
    var store := new Store();
    var first := store.InitUserInterview(a, Ok(u), Ok(d), Ok(ms));
    assert first == Some(true) && store.messages == ms;
    var again := store.InitUserInterview(a, Ok(u), Ok(d), Ok(ms));
    assert again == None && |store.calls| == 3;
    var switched := store.InitUserInterview(b, other, Err, Err);
    assert switched == Some(false) && store.messages == [];
  }
}
