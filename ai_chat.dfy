/**
 * The chat panel (`src/components/AIChat.jsx`): which store a `type` binds,
 * whether the input is shown, the send-button rule, and `handleSendMessage`
 * with its key binding.
 *
 * `handleSendMessage` is asynchronous: everything up to its `await` is
 * `BeginPlanningSend` / `BeginInterviewSend`, the store's `sendMessage` is the
 * awaited call, and `EndSend` is what follows it. The `Handle…` methods run
 * the three back to back; running the parts separately models another event
 * arriving while a send is pending.
 */
module AIChat {
  import opened Common
  import Text
  import InterviewPlannerStore
  import UserInterviewSessionStore

  datatype StoreKind = PlannerStore | SessionStore | ResponsesStore

  const PlanningType: string := "planning"
  const InterviewType: string := "interview"
  const ResponseType: string := "response"

  /** The store a `type` binds: planning and interview by name, every other value the responses store. */
  function StoreFor(kind: Option<string>): (k: StoreKind)
    ensures k == PlannerStore <==> kind == Some(PlanningType)
    ensures k == SessionStore <==> kind == Some(InterviewType)
    ensures k == ResponsesStore <==> kind != Some(PlanningType) && kind != Some(InterviewType)
  {
    if kind == Some(PlanningType) then PlannerStore
    else if kind == Some(InterviewType) then SessionStore
    else ResponsesStore
  }

  /** Only the `"response"` type hides the input and the send button. */
  predicate ReadOnly(kind: Option<string>) {
    kind == Some(ResponseType)
  }

  /** A read-only chat shows the responses store; an editable one may too (any unrecognised type). */
  lemma ReadOnlyBindsResponses(kind: Option<string>)
    ensures ReadOnly(kind) ==> StoreFor(kind) == ResponsesStore
    ensures StoreFor(None) == ResponsesStore && !ReadOnly(None)
  {
  }

  /** Enter without Shift sends; Shift+Enter and every other key do not. */
  predicate KeyTriggersSend(key: string, shiftKey: bool) {
    key == "Enter" && !shiftKey
  }

  /** What a completed planning send leaves in the planner store. */
  twostate predicate PlannerAfterSend(store: InterviewPlannerStore.Store, text: string,
                                      reply: Result<ChatMessage>, details: Result<Interview>,
                                      transcript: Result<seq<ChatMessage>>)
    reads store
  {
    var id := old(store.interviewId);
    var optimistic := old(store.messages) + [HumanMessage(text)];
    store.interviewId == id &&
    store.calls == old(store.calls) + [SendPlannerMessage(id, text)] +
                   (if reply.Err? then []
                    else [GetInterviewByUuid(id)] + (if details.Ok? then [GetPlannerMessages(id)] else [])) &&
    store.messages == (if reply.Err? then optimistic
                       else if details.Ok? && transcript.Ok? then transcript.value
                       else optimistic + [reply.value]) &&
    store.interviewDetails == (if reply.Ok? && details.Ok? then Some(details.value)
                               else old(store.interviewDetails)) &&
    store.initError == (old(store.initError) || (reply.Ok? && (details.Err? || transcript.Err?))) &&
    store.updateError == old(store.updateError)
  }

  twostate predicate PlannerUnchanged(store: InterviewPlannerStore.Store)
    reads store
  {
    store.interviewId == old(store.interviewId) && store.interviewDetails == old(store.interviewDetails) &&
    store.messages == old(store.messages) && store.initError == old(store.initError) &&
    store.updateError == old(store.updateError) && store.calls == old(store.calls)
  }

  /** What a completed interview send leaves in the session store. */
  twostate predicate SessionAfterSend(store: UserInterviewSessionStore.Store, text: string,
                                      reply: Result<ChatMessage>)
    reads store
  {
    var optimistic := old(store.messages) + [HumanMessage(text)];
    var held := old(store.userInterview);
    store.userInterview == held && store.interviewDetails == old(store.interviewDetails) &&
    store.initError == old(store.initError) &&
    store.calls == old(store.calls) + (if held.Some? then [SendUserInterviewMessage(held.value.uuid, text)] else []) &&
    store.messages == (if held.Some? && reply.Ok? then optimistic + [reply.value] else optimistic)
  }

  twostate predicate SessionUnchanged(store: UserInterviewSessionStore.Store)
    reads store
  {
    store.userInterview == old(store.userInterview) && store.interviewDetails == old(store.interviewDetails) &&
    store.messages == old(store.messages) && store.initError == old(store.initError) &&
    store.calls == old(store.calls)
  }

  /** One mounted chat panel: its `type` and its local input and loading state. */
  class ChatPanel {
    const kind: Option<string>
    var userInput: string
    var isLoading: bool

    constructor (kind: Option<string>)
      ensures this.kind == kind && userInput == [] && !isLoading
    {
      this.kind := kind;
      userInput := [];
      isLoading := false;
    }

    /** The send button is enabled exactly when the input has a non-space character and no send is pending. */
    predicate SendButtonEnabled(): (b: bool)
      reads this
      ensures b <==> !Text.IsBlank(userInput) && !isLoading
    {
      Text.Trim(userInput) != [] && !isLoading
    }

    /** Typing into the textarea. */
    method SetUserInput(s: string)
      modifies this
      ensures userInput == s && isLoading == old(isLoading)
    {
      userInput := s;
    }

    /**
     * `handleSendMessage` up to its `await`, on the planner store. Blank input
     * does nothing. Otherwise the trimmed text is added as a human message,
     * the panel starts loading and the input is cleared; `isLoading` is not
     * consulted.
     */
    method BeginPlanningSend(store: InterviewPlannerStore.Store) returns (text: Option<string>)
      requires StoreFor(kind) == PlannerStore
      modifies this, store
      ensures Text.IsBlank(old(userInput)) ==>
                text == None && userInput == old(userInput) && isLoading == old(isLoading) &&
                PlannerUnchanged(store)
      ensures !Text.IsBlank(old(userInput)) ==>
                text == Some(Text.Trim(old(userInput))) && userInput == [] && isLoading &&
                store.messages == old(store.messages) + [HumanMessage(text.value)] &&
                store.interviewId == old(store.interviewId) &&
                store.interviewDetails == old(store.interviewDetails) &&
                store.initError == old(store.initError) && store.updateError == old(store.updateError) &&
                store.calls == old(store.calls)
    {
      var trimmed := Text.Trim(userInput);
      if trimmed == [] {
        return None;
      }
      store.AddHumanMessage(trimmed);
      isLoading := true;
      userInput := [];
      text := Some(trimmed);
    }

    /** `handleSendMessage` up to its `await`, on the session store. */
    method BeginInterviewSend(store: UserInterviewSessionStore.Store) returns (text: Option<string>)
      requires StoreFor(kind) == SessionStore
      modifies this, store
      ensures Text.IsBlank(old(userInput)) ==>
                text == None && userInput == old(userInput) && isLoading == old(isLoading) &&
                SessionUnchanged(store)
      ensures !Text.IsBlank(old(userInput)) ==>
                text == Some(Text.Trim(old(userInput))) && userInput == [] && isLoading &&
                store.messages == old(store.messages) + [HumanMessage(text.value)] &&
                store.userInterview == old(store.userInterview) &&
                store.interviewDetails == old(store.interviewDetails) &&
                store.initError == old(store.initError) && store.calls == old(store.calls)
    {
      var trimmed := Text.Trim(userInput);
      if trimmed == [] {
        return None;
      }
      store.AddHumanMessage(trimmed);
      isLoading := true;
      userInput := [];
      text := Some(trimmed);
    }

    /** After the awaited send settles, whether it resolved or was caught. */
    method EndSend()
      modifies this
      ensures !isLoading && userInput == old(userInput)
    {
      isLoading := false;
    }

    /**
     * `handleSendMessage` on the planner store, start to finish: blank input
     * changes nothing; otherwise the human message is added, the input
     * cleared, the store's `sendMessage` run with a failure swallowed, and
     * loading ends.
     */
    method HandlePlanningSend(store: InterviewPlannerStore.Store, reply: Result<ChatMessage>,
                              details: Result<Interview>, transcript: Result<seq<ChatMessage>>)
      requires StoreFor(kind) == PlannerStore
      modifies this, store
      ensures Text.IsBlank(old(userInput)) ==>
                userInput == old(userInput) && isLoading == old(isLoading) && PlannerUnchanged(store)
      ensures !Text.IsBlank(old(userInput)) ==>
                userInput == [] && !isLoading &&
                PlannerAfterSend(store, Text.Trim(old(userInput)), reply, details, transcript)
    {
      var text := BeginPlanningSend(store);
      if text.Some? {
        var _ := store.SendMessage(text.value, reply, details, transcript);
        EndSend();
      }
    }

    /** `handleSendMessage` on the session store, start to finish. */
    method HandleInterviewSend(store: UserInterviewSessionStore.Store, reply: Result<ChatMessage>)
      requires StoreFor(kind) == SessionStore
      modifies this, store
      ensures Text.IsBlank(old(userInput)) ==>
                userInput == old(userInput) && isLoading == old(isLoading) && SessionUnchanged(store)
      ensures !Text.IsBlank(old(userInput)) ==>
                userInput == [] && !isLoading &&
                SessionAfterSend(store, Text.Trim(old(userInput)), reply)
    {
      var text := BeginInterviewSend(store);
      if text.Some? {
        var _ := store.SendMessage(text.value, reply);
        EndSend();
      }
    }

    /**
     * `handleSendMessage` on the responses store, whose `addHumanMessage` is
     * undefined: non-blank input throws a `TypeError` (`threw`) before any
     * state changes; blank input returns.
     */
    method HandleResponsesSend() returns (threw: bool)
      requires StoreFor(kind) == ResponsesStore && !ReadOnly(kind)
      ensures threw <==> !Text.IsBlank(userInput)
    {
      threw := Text.Trim(userInput) != [];
    }

    /** `handleKeyDown` on a planning chat. */
    method HandlePlanningKeyDown(key: string, shiftKey: bool, store: InterviewPlannerStore.Store,
                                 reply: Result<ChatMessage>, details: Result<Interview>,
                                 transcript: Result<seq<ChatMessage>>)
      requires StoreFor(kind) == PlannerStore
      modifies this, store
      ensures !KeyTriggersSend(key, shiftKey) || Text.IsBlank(old(userInput)) ==>
                userInput == old(userInput) && isLoading == old(isLoading) && PlannerUnchanged(store)
      ensures KeyTriggersSend(key, shiftKey) && !Text.IsBlank(old(userInput)) ==>
                userInput == [] && !isLoading &&
                PlannerAfterSend(store, Text.Trim(old(userInput)), reply, details, transcript)
    {
      if KeyTriggersSend(key, shiftKey) {
        HandlePlanningSend(store, reply, details, transcript);
      }
    }

    /** `handleKeyDown` on an interview chat. */
    method HandleInterviewKeyDown(key: string, shiftKey: bool, store: UserInterviewSessionStore.Store,
                                  reply: Result<ChatMessage>)
      requires StoreFor(kind) == SessionStore
      modifies this, store
      ensures !KeyTriggersSend(key, shiftKey) || Text.IsBlank(old(userInput)) ==>
                userInput == old(userInput) && isLoading == old(isLoading) && SessionUnchanged(store)
      ensures KeyTriggersSend(key, shiftKey) && !Text.IsBlank(old(userInput)) ==>
                userInput == [] && !isLoading &&
                SessionAfterSend(store, Text.Trim(old(userInput)), reply)
    {
      if KeyTriggersSend(key, shiftKey) {
        HandleInterviewSend(store, reply);
      }
    }
  }

  /**
   * While a send is pending the button is disabled, yet Enter still sends the
   * next message, and that second send's completion clears the loading
   * indicator while the first is still outstanding.
   */
  method EnterWhilePendingSendsAgain(store: InterviewPlannerStore.Store, reply: ChatMessage,
                                     details: Interview, transcript: seq<ChatMessage>)
    modifies store
  {
    var panel := new ChatPanel(Some(PlanningType));
    panel.SetUserInput("first");
    Text.TrimUnspaced("first");
    var first := panel.BeginPlanningSend(store);
    assert first == Some("first") && panel.isLoading;
    panel.SetUserInput("second");
    assert !panel.SendButtonEnabled();
    Text.TrimUnspaced("second");
    var before := store.calls;
    panel.HandlePlanningKeyDown("Enter", false, store, Ok(reply), Ok(details), Ok(transcript));
    assert store.calls[|before|] == SendPlannerMessage(store.interviewId, "second");
    assert !panel.isLoading;
  }
}
