/**
 * The dashboard/draft store (`src/store/interviewStore.js`): list filters, the
 * interview draft being edited with its question list, and a local message log.
 */
module InterviewStore {
  import opened Common

  /** The list filters: free-text search and an optional status. */
  datatype Filters = Filters(search: string, status: Option<string>)

  /** The interview being drafted. */
  datatype Draft = Draft(title: string, objective: string, questions: seq<string>, isAIMode: bool)

  /**
   * An entry of the local message log. The log starts with a bare greeting
   * string; the add actions append `{ isUser, content }` records.
   */
  datatype LogEntry = Greeting(text: string) | Entry(isUser: bool, content: string)

  const InitialDraft: Draft := Draft("Sample Title", "Sample objective", ["Sample question"], true)
  const WelcomeText: string := "Hi, what type of Interview would you like to create?"

  /** `questions.filter((_, i) => i !== index)`: every element whose position is not `index`. */
  function WithoutIndex(questions: seq<string>, index: int): (r: seq<string>)
    ensures 0 <= index < |questions| ==> r == questions[..index] + questions[index + 1..]
    ensures !(0 <= index < |questions|) ==> r == questions
  {
    if questions == [] then []
    else
      var rest := WithoutIndex(questions[1..], index - 1);
      if index == 0 then
        assert rest == questions[1..];
        rest
      else
        assert 0 < index < |questions| ==> questions[1..][..index - 1] == questions[1..index];
        [questions[0]] + rest
  }

  /**
   * The question list `removeQuestion(index)` stores: the list without position
   * `index`, or `['']` when that leaves nothing.
   */
  function RemovedQuestion(questions: seq<string>, index: int): (r: seq<string>)
    ensures |r| >= 1
    ensures 0 <= index < |questions| && |questions| > 1 ==>
              r == questions[..index] + questions[index + 1..]
    ensures !(0 <= index < |questions|) && questions != [] ==> r == questions
    ensures |WithoutIndex(questions, index)| == 0 ==> r == [""]
  {
    var kept := WithoutIndex(questions, index);
    if |kept| > 0 then kept else [""]
  }

  /**
   * The question list `updateQuestion(index, text)` stores: a copy with
   * position `index` assigned. An assignment one past the end appends; a
   * negative index sets a non-element property, so the elements are unchanged.
   */
  function UpdatedQuestion(questions: seq<string>, index: int, text: string): (r: seq<string>)
    requires index <= |questions|
    ensures 0 <= index < |questions| ==>
              |r| == |questions| && r[index] == text &&
              forall j :: 0 <= j < |r| && j != index ==> r[j] == questions[j]
    ensures index == |questions| ==> r == questions + [text]
    ensures index < 0 ==> r == questions
  {
    if index < 0 then questions
    else if index == |questions| then questions + [text]
    else questions[index := text]
  }

  class Store {
    var filters: Filters
    var draft: Draft
    var messages: seq<LogEntry>

    constructor ()
      ensures filters == Filters("", None)
      ensures draft == InitialDraft
      ensures messages == [Greeting(WelcomeText)]
    {
      filters := Filters("", None);
      draft := InitialDraft;
      messages := [Greeting(WelcomeText)];
    }

    method SetSearch(search: string)
      modifies this
      ensures filters == old(filters).(search := search)
      ensures draft == old(draft) && messages == old(messages)
    {
      filters := filters.(search := search);
    }

    method SetStatusFilter(status: Option<string>)
      modifies this
      ensures filters == old(filters).(status := status)
      ensures draft == old(draft) && messages == old(messages)
    {
      filters := filters.(status := status);
    }

    method SetTitle(title: string)
      modifies this
      ensures draft == old(draft).(title := title)
      ensures filters == old(filters) && messages == old(messages)
    {
      draft := draft.(title := title);
    }

    method SetObjective(objective: string)
      modifies this
      ensures draft == old(draft).(objective := objective)
      ensures filters == old(filters) && messages == old(messages)
    {
      draft := draft.(objective := objective);
    }

    /** Replaces the whole question list; the only action that can empty it. */
    method SetQuestions(questions: seq<string>)
      modifies this
      ensures draft == old(draft).(questions := questions)
      ensures filters == old(filters) && messages == old(messages)
    {
      draft := draft.(questions := questions);
    }

    /** `addQuestion(question = '')`; the source's default is the caller passing "". */
    method AddQuestion(question: string)
      modifies this
      ensures draft.questions == old(draft.questions) + [question]
      ensures |draft.questions| == |old(draft.questions)| + 1
      ensures draft.questions[..|old(draft.questions)|] == old(draft.questions)
      ensures draft == old(draft).(questions := draft.questions)
      ensures filters == old(filters) && messages == old(messages)
    {
      draft := draft.(questions := draft.questions + [question]);
    }

    method RemoveQuestion(index: int)
      modifies this
      ensures draft.questions == RemovedQuestion(old(draft.questions), index)
      ensures |draft.questions| >= 1
      ensures draft == old(draft).(questions := draft.questions)
      ensures filters == old(filters) && messages == old(messages)
    {
      draft := draft.(questions := RemovedQuestion(draft.questions, index));
    }

    method UpdateQuestion(index: int, text: string)
      requires index <= |draft.questions|
      modifies this
      ensures draft.questions == UpdatedQuestion(old(draft.questions), index, text)
      ensures draft == old(draft).(questions := draft.questions)
      ensures filters == old(filters) && messages == old(messages)
    {
      draft := draft.(questions := UpdatedQuestion(draft.questions, index, text));
    }

    method SetAIMode(isAIMode: bool)
      modifies this
      ensures draft == old(draft).(isAIMode := isAIMode)
      ensures filters == old(filters) && messages == old(messages)
    {
      draft := draft.(isAIMode := isAIMode);
    }

    method ResetDraft()
      modifies this
      ensures draft == InitialDraft
      ensures filters == old(filters) && messages == old(messages)
    {
      draft := InitialDraft;
    }

    method AddUserMessage(content: string)
      modifies this
      ensures messages == old(messages) + [Entry(true, content)]
      ensures filters == old(filters) && draft == old(draft)
    {
      messages := messages + [Entry(true, content)];
    }

    method AddAIMessage(content: string)
      modifies this
      ensures messages == old(messages) + [Entry(false, content)]
      ensures filters == old(filters) && draft == old(draft)
    {
      messages := messages + [Entry(false, content)];
    }

    method ClearMessages()
      modifies this
      ensures messages == []
      ensures filters == old(filters) && draft == old(draft)
    {
      messages := [];
    }
  }

  /**
   * Removing position `index` drops exactly that element: one fewer element
   * when something remains, and every later element moves up by one.
   */
  lemma {:induction false} RemoveDropsExactlyOne(questions: seq<string>, index: int)
    requires 0 <= index < |questions| && |questions| > 1
    ensures |RemovedQuestion(questions, index)| == |questions| - 1
    ensures forall j :: 0 <= j < index ==> RemovedQuestion(questions, index)[j] == questions[j]
    ensures forall j :: index <= j < |questions| - 1 ==>
              RemovedQuestion(questions, index)[j] == questions[j + 1]
  {
    var r := RemovedQuestion(questions, index);
    assert r == questions[..index] + questions[index + 1..];
  }

  /** Removing the only question leaves a single blank question. */
  lemma RemoveLastQuestion(q: string)
    ensures RemovedQuestion([q], 0) == [""]
  {
    assert WithoutIndex([q], 0) == [];
  }
}
