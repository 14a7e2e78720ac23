/**
 * The interview chat store (`src/store/interviewChatStore.js`): an
 * append-only message list of one chat session and plain field setters.
 * `Date.now()` is the `timestamp` argument of the add actions.
 */
module InterviewChatStore {

  /** A chat entry `{ isUser, content, timestamp }`. */
  datatype TimedMessage = TimedMessage(isUser: bool, content: string, timestamp: int)

  datatype Metadata = Metadata(title: string, objective: string)

  const DummyUuid: string := "123e4567-e89b-12d3-a456-426614174000"

  class Store {
    var uuid: string
    var messages: seq<TimedMessage>
    var currentQuestionIndex: int
    var questions: seq<string>
    var metadata: Metadata

    constructor ()
      ensures uuid == DummyUuid && messages == [] && currentQuestionIndex == 0
      ensures questions == [] && metadata == Metadata("", "")
    {
      uuid := DummyUuid;
      messages := [];
      currentQuestionIndex := 0;
      questions := [];
      metadata := Metadata("", "");
    }

    method AddUserMessage(content: string, timestamp: int)
      modifies this
      ensures messages == old(messages) + [TimedMessage(true, content, timestamp)]
      ensures uuid == old(uuid) && currentQuestionIndex == old(currentQuestionIndex)
      ensures questions == old(questions) && metadata == old(metadata)
    {
      messages := messages + [TimedMessage(true, content, timestamp)];
    }

    method AddAIMessage(content: string, timestamp: int)
      modifies this
      ensures messages == old(messages) + [TimedMessage(false, content, timestamp)]
      ensures uuid == old(uuid) && currentQuestionIndex == old(currentQuestionIndex)
      ensures questions == old(questions) && metadata == old(metadata)
    {
      messages := messages + [TimedMessage(false, content, timestamp)];
    }

    method SetMessages(ms: seq<TimedMessage>)
      modifies this
      ensures messages == ms
      ensures uuid == old(uuid) && currentQuestionIndex == old(currentQuestionIndex)
      ensures questions == old(questions) && metadata == old(metadata)
    {
      messages := ms;
    }

    method ClearMessages()
      modifies this
      ensures messages == []
      ensures uuid == old(uuid) && currentQuestionIndex == old(currentQuestionIndex)
      ensures questions == old(questions) && metadata == old(metadata)
    {
      messages := [];
    }

    method SetUUID(newUuid: string)
      modifies this
      ensures uuid == newUuid
      ensures messages == old(messages) && currentQuestionIndex == old(currentQuestionIndex)
      ensures questions == old(questions) && metadata == old(metadata)
    {
      uuid := newUuid;
    }

    method SetCurrentQuestionIndex(index: int)
      modifies this
      ensures currentQuestionIndex == index
      ensures uuid == old(uuid) && messages == old(messages)
      ensures questions == old(questions) && metadata == old(metadata)
    {
      currentQuestionIndex := index;
    }

    method SetQuestions(qs: seq<string>)
      modifies this
      ensures questions == qs
      ensures uuid == old(uuid) && messages == old(messages)
      ensures currentQuestionIndex == old(currentQuestionIndex) && metadata == old(metadata)
    {
      questions := qs;
    }

    method SetMetadata(m: Metadata)
      modifies this
      ensures metadata == m
      ensures uuid == old(uuid) && messages == old(messages)
      ensures currentQuestionIndex == old(currentQuestionIndex) && questions == old(questions)
    {
      metadata := m;
    }
  }

  /**
   * The add actions only ever extend the list: after any run of them the old
   * list is a prefix, and each new entry carries the author flag it was added with.
   */
  method AppendOnly(store: Store, user: string, ai: string, t1: int, t2: int)
    modifies store
  {
    var before := store.messages;
    store.AddUserMessage(user, t1);
    store.AddAIMessage(ai, t2);
    assert store.messages[..|before|] == before;
    assert |store.messages| == |before| + 2;
    assert store.messages[|before|].isUser && !store.messages[|before| + 1].isUser;
  }
}
