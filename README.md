# JEDI frontend state layer in Dafny

This project models the client-side state layer of the JEDI interview
frontend: six of the repository's seven Zustand stores, plus the pieces of
logic three components keep for themselves.

The stores:

- The dashboard/draft store: list filters, the interview draft with its
  never-empty question list, and a local message log.
- The interview collection store:
  - an initialise-once guard;
  - local lookup, or fetch-and-append;
  - append on create;
  - replace-by-id.
- The planning store:
  - the focal interview and its planning transcript;
  - title update: the details are replaced on success and a flag is set on failure;
  - two sticky error flags.
- The candidate-session store and the responses store. Each has an identity
  guard and clears its state before fetching for a new identifier.
- The append-only chat log store.

The component logic:

- The interview table's sort toggle and its search-then-sort view.
- The responses page's tag list, tag filter and tag toggle.
- The chat panel:
  - which store a chat `type` binds, and whether the input is shown;
  - the send-button rule;
  - the send handler and its Enter-key binding.

Each store is a `class`: its fields are the store state and its actions are
methods. The `ensures` of each method give the whole new state. Pure
derivations are functions (filter, find, replace-at-index, dedup, the
comparator and the sort), with lemmas relating them.

Remote services are never performed. Each awaited service call is a
`Result` parameter, `Ok(value)` or `Err`, and an `async` action is one method
that receives all of its awaited outcomes. A later outcome is consulted only
when the earlier ones succeeded. Every store with remote calls also keeps a
ghost log `calls` of the requests it issues, so "nothing is fetched" is part
of the contracts. JavaScript `null`/`undefined` is `None`.

Modules, one per source file, plus shared helpers:

| module | file | models |
|---|---|---|
| `Common` | common.dfy | the shared records, `Result`/`Option`, the remote call log entries |
| `Seqs` | seqs.dfy | `filter`, `findIndex`/`find`, subsequence |
| `Text` | text.dfy | `trim`, `toLowerCase`, `includes`, the string order standing in for `localeCompare` |
| `InterviewStore` | interview_store.dfy | `src/store/interviewStore.js` |
| `IntStore` | int_store.dfy | `src/store/IntStore.js` |
| `InterviewPlannerStore` | planner_store.dfy | `src/store/InterviewPlannerStore.js` |
| `UserInterviewSessionStore` | session_store.dfy | `src/store/UserInterviewSessionStore.js` |
| `InterviewResponsesStore` | responses_store.dfy | `src/store/InterviewResponsesStore.js` |
| `InterviewChatStore` | chat_store.dfy | `src/store/interviewChatStore.js` |
| `InterviewTable` | interview_table.dfy | `src/components/InterviewTable.jsx` |
| `InterviewResponsesPage` | interview_responses.dfy | `src/pages/InterviewResponses.jsx` |
| `AIChat` | ai_chat.dfy | `src/components/AIChat.jsx` |

Behaviours of the code worth noting:

- The Enter key sends even while a send is pending. Only the button checks
  `isLoading`.
- A failed chat send adds no fallback message.
- There is no create-specific error flag.
- There is no default tag selection.
- In the planning store, a successful send whose re-initialisation succeeds
  replaces the messages with the server transcript. That transcript supersedes
  both the optimistic human message and the appended reply.
- `initUserInterview` returns nothing (`None`) when the same user interview is
  already held.

## Model

| member | source | states |
|---|---|---|
| InterviewStore.Store.constructor | src/store/interviewStore.js:4-29 | empty search, no status filter, the sample draft, the greeting as the only log entry |
| InterviewStore.Store.SetSearch | src/store/interviewStore.js:19-22 | only `filters.search` changes; status, draft and log unchanged |
| InterviewStore.Store.SetStatusFilter | src/store/interviewStore.js:23-26 | only `filters.status` changes |
| InterviewStore.Store.SetTitle | src/store/interviewStore.js:30-33 | only the draft title changes |
| InterviewStore.Store.SetObjective | src/store/interviewStore.js:34-37 | only the draft objective changes |
| InterviewStore.Store.SetQuestions | src/store/interviewStore.js:38-41 | the question list is replaced; nothing else changes |
| InterviewStore.Store.AddQuestion | src/store/interviewStore.js:42-46 | the question is appended: one longer, old questions an unchanged prefix |
| InterviewStore.WithoutIndex | src/store/interviewStore.js:49 | filtering by position drops exactly position `index` when it is in range, otherwise nothing |
| InterviewStore.RemovedQuestion | src/store/interviewStore.js:47-56 | never empty: the list without `index`, or `[""]` when nothing would remain |
| InterviewStore.RemoveDropsExactlyOne | src/store/interviewStore.js:49-53 | removal from a list of two or more drops one element: earlier ones stay, later ones shift up by one |
| InterviewStore.RemoveLastQuestion | src/store/interviewStore.js:53 | removing the only question leaves a single blank question |
| InterviewStore.Store.RemoveQuestion | src/store/interviewStore.js:47-56 | stores `RemovedQuestion`, so the draft keeps at least one question; other draft fields unchanged |
| InterviewStore.UpdatedQuestion | src/store/interviewStore.js:57-62 | in range: same length, position `index` set, every other position unchanged; one past the end appends; negative leaves the elements |
| InterviewStore.Store.UpdateQuestion | src/store/interviewStore.js:57-62 | stores `UpdatedQuestion`; only the questions change |
| InterviewStore.Store.SetAIMode | src/store/interviewStore.js:63-66 | only the AI-mode flag changes |
| InterviewStore.Store.ResetDraft | src/store/interviewStore.js:67 | the draft is the initial draft whatever it was before |
| InterviewStore.Store.AddUserMessage | src/store/interviewStore.js:71-74 | one `isUser` true entry appended after the old log |
| InterviewStore.Store.AddAIMessage | src/store/interviewStore.js:75-78 | one `isUser` false entry appended after the old log |
| InterviewStore.Store.ClearMessages | src/store/interviewStore.js:79 | the log is empty; filters and draft unchanged |
| IntStore.Store.constructor | src/store/IntStore.js:11-19 | empty list, not initialised, no error, loading, empty filters |
| IntStore.FindByUuid | src/store/IntStore.js:23-24 | the first interview with that uuid, or none exactly when no interview has it |
| IntStore.Store.GetInterviewByUuid | src/store/IntStore.js:23-24 | a local lookup: a held interview with that uuid, or none exactly when none is held |
| IntStore.Store.InitInterviews | src/store/IntStore.js:26-39 | when already initialised: no fetch, no change. Otherwise one fetch. Success replaces the list and sets initialised. Failure sets the error and keeps the list. Loading is false after either |
| IntStore.Store.FetchInterviews | src/store/IntStore.js:41-44 | one fetch; the list is replaced by the fetched one, unchanged on failure |
| IntStore.Store.SetSearch | src/store/IntStore.js:46-49 | only `filters.search` changes |
| IntStore.Store.SetStatusFilter | src/store/IntStore.js:51-54 | only `filters.status` changes |
| IntStore.Store.FetchInterviewByUuid | src/store/IntStore.js:56-63 | a local match is returned with no fetch and no change; otherwise one fetch, its interview appended and returned |
| IntStore.AppendedIsFound | src/store/IntStore.js:56-63 | after a missed lookup appends the fetched interview, the same uuid is found locally |
| IntStore.InitTwice | src/store/IntStore.js:26-39 | a successful initialisation followed by another leaves the first result and one fetch |
| IntStore.Store.AddInterview | src/store/IntStore.js:65-69 | the created interview is appended after the unchanged list and returned; a failure changes nothing. The logged request carries no name, because the service sends none |
| IntStore.ReplacedById | src/store/IntStore.js:71-82 | same length; the first interview with the id is replaced and every other position kept; unchanged when no id matches |
| IntStore.Store.UpdateInterview | src/store/IntStore.js:71-82 | stores `ReplacedById` with no service call and returns the argument |
| InterviewPlannerStore.Store.constructor | src/store/InterviewPlannerStore.js:13-18 | no id, no details, no messages, both flags clear |
| InterviewPlannerStore.Store.InitInterviewDetails | src/store/InterviewPlannerStore.js:27-36 | no guard; every call fetches. Details failure: error set, nothing else changes. Success: id and details set, then the transcript is fetched. Transcript success replaces the messages; its failure sets the error and keeps id and details |
| InterviewPlannerStore.Store.ResetInitError | src/store/InterviewPlannerStore.js:38 | only `initError` is cleared |
| InterviewPlannerStore.Store.ResetUpdateError | src/store/InterviewPlannerStore.js:39 | only `updateError` is cleared |
| InterviewPlannerStore.Store.ResetStore | src/store/InterviewPlannerStore.js:41 | messages, id and both flags cleared; the details stay |
| InterviewPlannerStore.Store.FetchMessages | src/store/InterviewPlannerStore.js:43-47 | the transcript of the held id replaces the messages; unchanged on failure |
| InterviewPlannerStore.Store.AddHumanMessage | src/store/InterviewPlannerStore.js:49-53 | one human message appended after the old messages |
| InterviewPlannerStore.Store.SendMessage | src/store/InterviewPlannerStore.js:55-65 | a failed post changes nothing. Success appends the reply, then re-initialises for the same id. The resulting messages, details, error flag and call log are given for every outcome |
| InterviewPlannerStore.SendThenTranscriptWins | src/store/InterviewPlannerStore.js:55-65 | after a send whose re-initialisation succeeds, the messages are exactly the server transcript |
| InterviewPlannerStore.Store.UpdateTitle | src/store/InterviewPlannerStore.js:67-75 | success replaces the details by the server's interview wholesale; failure sets `updateError` and keeps them |
| UserInterviewSessionStore.Store.constructor | src/store/UserInterviewSessionStore.js:12-16 | nothing held, no messages, no error |
| UserInterviewSessionStore.Store.InitUserInterview | src/store/UserInterviewSessionStore.js:23-37 | same uuid held: returns nothing, changes and fetches nothing. Otherwise: reset, then session, details and transcript fetched in turn. Returns true only when all succeed; fields set before a failure stay; the error flag is never set |
| UserInterviewSessionStore.Store.FetchInterviewDetails | src/store/UserInterviewSessionStore.js:39-42 | the fetched interview replaces the details; unchanged on failure |
| UserInterviewSessionStore.Store.ResetStore | src/store/UserInterviewSessionStore.js:44 | user interview, messages and flag cleared; the details stay |
| UserInterviewSessionStore.Store.FetchMessages | src/store/UserInterviewSessionStore.js:46-55 | nothing held: no fetch, no change. Otherwise the argument's transcript replaces the messages |
| UserInterviewSessionStore.Store.AddHumanMessage | src/store/UserInterviewSessionStore.js:57-61 | one human message appended |
| UserInterviewSessionStore.Store.SendMessage | src/store/UserInterviewSessionStore.js:63-77 | nothing held: returns null, posts nothing. Otherwise posts to the held uuid; the reply is appended and returned; a failure rejects and changes nothing |
| UserInterviewSessionStore.InitSameThenOther | src/store/UserInterviewSessionStore.js:23-37 | re-initialising the same uuid fetches nothing more; switching uuid clears the old transcript |
| InterviewResponsesStore.Store.constructor | src/store/InterviewResponsesStore.js:14-18 | no interview, no responses, no tag, no messages, no error |
| InterviewResponsesStore.Store.InitResponseDetails | src/store/InterviewResponsesStore.js:21-33 | same uuid held: nothing changes. Otherwise reset, then fetch the interview and then its responses. Either failure sets the error; an interview loaded before a failed responses fetch stays |
| InterviewResponsesStore.Store.FetchResponses | src/store/InterviewResponsesStore.js:35-42 | an empty held uuid resolves with no fetch. No interview rejects with no fetch. Otherwise the fetched list replaces the responses |
| InterviewResponsesStore.Store.ResetStore | src/store/InterviewResponsesStore.js:44 | every field back to its initial value |
| InterviewResponsesStore.Store.SetTagFilter | src/store/InterviewResponsesStore.js:46-49 | only `filters.tag` changes |
| InterviewResponsesStore.Store.SetMessages | src/store/InterviewResponsesStore.js:51-57 | the fetched transcript replaces the messages wholesale |
| InterviewResponsesStore.Store.ResetMessages | src/store/InterviewResponsesStore.js:59 | the messages are empty; nothing else changes |
| InterviewChatStore.Store.constructor | src/store/interviewChatStore.js:8-46 | the dummy uuid, no messages, question index 0, no questions, empty metadata |
| InterviewChatStore.Store.AddUserMessage | src/store/interviewChatStore.js:14-17 | one `isUser` true entry with the given timestamp appended; no other field changes |
| InterviewChatStore.Store.AddAIMessage | src/store/interviewChatStore.js:20-23 | one `isUser` false entry appended; no other field changes |
| InterviewChatStore.AppendOnly | src/store/interviewChatStore.js:14-23 | after adds, the old list is a prefix and each new entry has its author flag |
| InterviewChatStore.Store.SetMessages | src/store/interviewChatStore.js:26 | the messages are exactly the argument |
| InterviewChatStore.Store.ClearMessages | src/store/interviewChatStore.js:29 | the messages are empty |
| InterviewChatStore.Store.SetUUID | src/store/interviewChatStore.js:32 | only the uuid changes |
| InterviewChatStore.Store.SetCurrentQuestionIndex | src/store/interviewChatStore.js:36 | only the question index changes |
| InterviewChatStore.Store.SetQuestions | src/store/interviewChatStore.js:40 | only the questions change |
| InterviewChatStore.Store.SetMetadata | src/store/interviewChatStore.js:47 | only the metadata changes |
| InterviewTable.TableState.constructor | src/components/InterviewTable.jsx:20-23 | the sort starts as `created_date` descending |
| InterviewTable.TableState.RequestSort | src/components/InterviewTable.jsx:39-45 | the key is set; descending exactly when it was already the ascending key |
| InterviewTable.RequestSortToggles | src/components/InterviewTable.jsx:39-45 | repeated clicks on one header alternate ascending and descending |
| InterviewTable.GetSortedInterviews | src/components/InterviewTable.jsx:48-85 | no data gives nothing. Otherwise: a permutation of the filtered list, kept exactly when the search matches, at most as long as the input, everything when the search is empty, sorted by the comparator, and the filtered order itself for an unknown key |
| InterviewTable.SortedViewFacts | src/components/InterviewTable.jsx:52-84 | the same facts, about the sort of the filtered list |
| InterviewTable.SortedTextColumns | src/components/InterviewTable.jsx:63-73 | by title or status: non-decreasing ascending, non-increasing descending |
| InterviewTable.SortedDateColumn | src/components/InterviewTable.jsx:75-81 | by date: timestamps ordered, a missing date counting as 0 |
| InterviewTable.CompareAntisymmetric | src/components/InterviewTable.jsx:62-84 | swapping the two interviews negates the comparator |
| InterviewTable.CompareTransitive | src/components/InterviewTable.jsx:62-84 | "does not come after" is transitive, so the comparator is consistent |
| InterviewTable.InsertPermutes | src/components/InterviewTable.jsx:62 | an insertion adds exactly the inserted interview |
| InterviewTable.InsertBounded | src/components/InterviewTable.jsx:62 | insertion keeps an upper bound shared by the list and the new element |
| InterviewTable.InsertSorts | src/components/InterviewTable.jsx:62 | inserting into a sorted list leaves it sorted |
| InterviewTable.SortPermutes | src/components/InterviewTable.jsx:62 | the sort is a permutation of its input |
| InterviewTable.SortSorts | src/components/InterviewTable.jsx:62 | the sort's output is in comparator order |
| InterviewTable.SortKeepsOrderWhenAllTied | src/components/InterviewTable.jsx:83 | with an unrecognised key everything ties and the stable sort is the identity |
| InterviewTable.EmptySearchKeepsAll | src/components/InterviewTable.jsx:53 | an empty search keeps every interview in order |
| InterviewResponsesPage.FlatTags | src/pages/InterviewResponses.jsx:37 | a tag occurs exactly when some response carries it |
| InterviewResponsesPage.Distinct | src/pages/InterviewResponses.jsx:37 | no duplicates, exactly the same elements |
| InterviewResponsesPage.FirstIndex | src/pages/InterviewResponses.jsx:37 | the position of the first occurrence |
| InterviewResponsesPage.FirstIndexAppend | src/pages/InterviewResponses.jsx:37 | appending does not move an earlier first occurrence |
| InterviewResponsesPage.DistinctKeepsFirstOccurrenceOrder | src/pages/InterviewResponses.jsx:37 | the set keeps insertion order: elements listed by first occurrence |
| InterviewResponsesPage.AllTagsComplete | src/pages/InterviewResponses.jsx:37 | every tag of every response, nothing else, each once, in first-occurrence order |
| InterviewResponsesPage.DistinctOfDistinct | src/pages/InterviewResponses.jsx:37 | a duplicate-free list is its own dedup |
| InterviewResponsesPage.MockAllTags | src/pages/InterviewResponses.jsx:10-37 | the mock data's tags are the six badge labels in order |
| InterviewResponsesPage.FilteredResponses | src/pages/InterviewResponses.jsx:44-46 | no selection: every response. Otherwise a response is shown exactly when one of its tags is selected, in the original relative order |
| InterviewResponsesPage.Toggled | src/pages/InterviewResponses.jsx:48-54 | a tag is in the result exactly when it was in before and is not the toggled tag, or it is the toggled tag and was absent |
| InterviewResponsesPage.ToggleTwiceRestoresUnselected | src/pages/InterviewResponses.jsx:48-54 | toggling an unselected tag twice restores the list exactly |
| InterviewResponsesPage.ToggleTwiceSameTags | src/pages/InterviewResponses.jsx:48-54 | toggling any tag twice restores which tags are selected |
| InterviewResponsesPage.ToggleTwiceCanReorder | src/pages/InterviewResponses.jsx:48-54 | a selected tag toggled twice comes back at the end |
| InterviewResponsesPage.ToggledKeepsDistinct | src/pages/InterviewResponses.jsx:48-54 | a toggle never duplicates a tag |
| InterviewResponsesPage.ResponsesPage.constructor | src/pages/InterviewResponses.jsx:41-42 | no tag and no response selected |
| InterviewResponsesPage.ResponsesPage.ToggleTag | src/pages/InterviewResponses.jsx:48-54 | the selection becomes `Toggled`, so it stays duplicate-free; the shown response is kept |
| InterviewResponsesPage.ResponsesPage.SelectResponse | src/pages/InterviewResponses.jsx:89 | the clicked response is shown; the tags stay |
| InterviewResponsesPage.ChatAsWrittenThrowsOnSend | src/pages/InterviewResponses.jsx:123 | as written, the page's chat shows its input, and a non-blank send throws |
| InterviewResponsesPage.ChatIsReadOnly | src/pages/InterviewResponses.jsx:123 | with the `"response"` type the chat is read-only on the responses store |
| AIChat.StoreFor | src/components/AIChat.jsx:15 | the planner store exactly for `"planning"`, the session store exactly for `"interview"`, the responses store for every other type |
| AIChat.ReadOnlyBindsResponses | src/components/AIChat.jsx:13-19 | a read-only chat uses the responses store; an untyped chat uses it too but is editable |
| AIChat.ChatPanel.constructor | src/components/AIChat.jsx:21-22 | empty input, not loading |
| AIChat.ChatPanel.SendButtonEnabled | src/components/AIChat.jsx:118 | enabled exactly when the input has a non-space character and nothing is loading |
| AIChat.ChatPanel.SetUserInput | src/components/AIChat.jsx:108-109 | the input becomes the typed text |
| AIChat.ChatPanel.BeginPlanningSend | src/components/AIChat.jsx:37-46 | blank input changes nothing. Otherwise the trimmed text is added as a human message before any post, loading starts and the input is cleared. `isLoading` is not consulted |
| AIChat.ChatPanel.BeginInterviewSend | src/components/AIChat.jsx:37-46 | as above, on the session store |
| AIChat.ChatPanel.EndSend | src/components/AIChat.jsx:52 | loading ends whatever the send's outcome |
| AIChat.ChatPanel.HandlePlanningSend | src/components/AIChat.jsx:37-53 | blank: nothing changes. Otherwise the human message, then the store's send with any failure swallowed; the planner ends as `PlannerAfterSend`, loading off, input empty |
| AIChat.ChatPanel.HandleInterviewSend | src/components/AIChat.jsx:37-53 | as above on the session store: the human message, then the reply only when a user interview is held and the post succeeds |
| AIChat.ChatPanel.HandleResponsesSend | src/components/AIChat.jsx:37-41 | on the responses store non-blank input throws before any state changes |
| AIChat.ChatPanel.HandlePlanningKeyDown | src/components/AIChat.jsx:30-35 | Enter without Shift runs the send handler, whatever `isLoading` is; any other key changes nothing |
| AIChat.ChatPanel.HandleInterviewKeyDown | src/components/AIChat.jsx:30-35 | as above, on the session store |
| AIChat.EnterWhilePendingSendsAgain | src/components/AIChat.jsx:30-53 | while a send is pending the button is disabled, yet Enter posts the next message and clears the loading flag |
| Seqs.Filter | src/components/InterviewTable.jsx:52-59 | `filter`: only passing elements, each input element kept exactly when it passes, never longer than the input |
| Seqs.FilterSubMultiset | src/components/InterviewTable.jsx:52-59 | what `filter` keeps is a sub-multiset of its input |
| Seqs.FilterKeepsAll | src/pages/InterviewResponses.jsx:51 | a list whose every element passes is left as it is |
| Seqs.FilterSnocRejected | src/pages/InterviewResponses.jsx:51 | appending an element the predicate rejects does not change the filtered list |
| Seqs.FilterNoDuplicates | src/pages/InterviewResponses.jsx:51 | filtering a list without duplicates gives one without duplicates |
| Seqs.FilterIsSubsequence | src/pages/InterviewResponses.jsx:45 | filtering keeps relative order |
| Seqs.FindIndex | src/store/IntStore.js:73 | `findIndex`: the first match, or -1 exactly when nothing matches |
| Seqs.Find | src/store/IntStore.js:23-24 | `find`: some first match exactly when one exists |
| Text.Trim | src/components/AIChat.jsx:38-40 | `trim`: empty exactly for blank input, no white space at either end, and exactly the input with a blank prefix and a blank suffix removed |
| Text.TrimIdempotent | src/components/AIChat.jsx:38-40 | trimming twice is trimming once |
| Text.ToLower | src/components/InterviewTable.jsx:54-57 | `toLowerCase`: same length, no capital left, only capitals changed, each capital to the letter 32 code points above it |
| Text.Includes | src/components/InterviewTable.jsx:56-57 | `includes`: true exactly when the needle occurs somewhere |
| Text.StrCompare | src/components/InterviewTable.jsx:65-72 | the text order: -1, 0 or 1, and 0 exactly for equal strings |
| Text.StrCompareAntisymmetric | src/components/InterviewTable.jsx:65-72 | swapping the arguments negates the comparison |
| Text.StrCompareTransitive | src/components/InterviewTable.jsx:65-72 | "not after" is transitive |

The definitions below have no contract of their own. They are the vocabulary
of the contracts above, and the rows named with each one state its meaning:

- `InterviewTable.MatchesSearch` and `InterviewTable.SearchFilter`
  (src/components/InterviewTable.jsx:52-59): the search predicate. Covered by
  `InterviewTable.GetSortedInterviews`, `InterviewTable.SortedViewFacts` and
  `InterviewTable.EmptySearchKeepsAll`.
- `InterviewTable.Compare` (src/components/InterviewTable.jsx:62-84): the
  comparator. Covered by `InterviewTable.SortedTextColumns`,
  `InterviewTable.SortedDateColumn`, `InterviewTable.CompareAntisymmetric` and
  `InterviewTable.CompareTransitive`.
- `InterviewTable.DateValue` (src/components/InterviewTable.jsx:76-77): the
  date key, with a missing date counting as 0. Covered by
  `InterviewTable.SortedDateColumn`.
- `InterviewTable.Insert` and `InterviewTable.SortBy`
  (src/components/InterviewTable.jsx:62-84): a stable insertion sort standing
  in for `Array.prototype.sort`. Covered by `InterviewTable.InsertPermutes`,
  `InterviewTable.InsertBounded`, `InterviewTable.InsertSorts`,
  `InterviewTable.SortPermutes`, `InterviewTable.SortSorts` and
  `InterviewTable.SortKeepsOrderWhenAllTied`.
- `InterviewResponsesPage.AllTags` (src/pages/InterviewResponses.jsx:37):
  covered by `InterviewResponsesPage.AllTagsComplete` and
  `InterviewResponsesPage.MockAllTags`.
- `InterviewResponsesPage.HasSelectedTag` (src/pages/InterviewResponses.jsx:45):
  covered by `InterviewResponsesPage.FilteredResponses`.
- `AIChat.ReadOnly` (src/components/AIChat.jsx:13): covered by
  `AIChat.ReadOnlyBindsResponses` and `InterviewResponsesPage.ChatIsReadOnly`.
- `AIChat.KeyTriggersSend` (src/components/AIChat.jsx:31): covered by
  `AIChat.ChatPanel.HandlePlanningKeyDown` and
  `AIChat.ChatPanel.HandleInterviewKeyDown`.
- `UserInterviewSessionStore.Store.Holds`
  (src/store/UserInterviewSessionStore.js:24): the "same user interview
  already held" guard. Covered by
  `UserInterviewSessionStore.Store.InitUserInterview` and
  `UserInterviewSessionStore.InitSameThenOther`.
- `InterviewResponsesStore.Store.Holds` (src/store/InterviewResponsesStore.js:22):
  the "same interview already held" guard. Covered by
  `InterviewResponsesStore.Store.InitResponseDetails`.
- `IntStore.HasUuid` (src/store/IntStore.js:24) and `IntStore.HasId`
  (src/store/IntStore.js:73): the `find`/`findIndex` predicates. Covered by
  `IntStore.FindByUuid` and `IntStore.ReplacedById`.

## Left out

- Remote services (`src/service/InterviewService.js`, `src/service/apiService.js`): URLs, HTTP and axios are not part of this model. Each call is a `Result` parameter and an entry in the ghost call log.
- `readOnly` and `messages` props: `AIChat` reads neither, so passing them has no effect.
- Missing service exports: `InterviewService.js` does not export `getAllUserInterviewsByUuid` or `updateInterview`, which the responses and planning stores import. The model treats both as remote operations with an outcome, not as the import failure the bundle would report.
- Getters (`getInterviews`, `getInterviewDetails`, `getMessages`, `getInitError`, `getUpdateError`, `getUserInterview`): each only reads a field, and the model reads the field directly.
- Async interleaving: each store action is one atomic step that receives its awaited outcomes. The chat panel splits `handleSendMessage` at its `await` only so that an event can arrive while a send is pending. Store writes that land late are not modelled.
- InterviewStore.Store.UpdateQuestion: an index more than one past the end, which makes a JavaScript array with holes, is excluded by its precondition.
- Server `null`s: a fetch that resolves with `null` or a malformed record, which makes later field reads throw, is not modelled. `Ok` carries a well-formed record.
- `localeCompare`: replaced by a lexicographic order on code points (Dafny characters), with antisymmetry and transitivity proved. JavaScript strings compare UTF-16 code units, so the two orders can differ for characters outside the Basic Multilingual Plane. Locale collation is not modelled.
- `new Date(...)` parsing: a creation date is an integer timestamp, and a missing one is `None`, counting as 0.
- `toLowerCase`: maps only the ASCII capitals. Other Unicode case mappings are not modelled.
- `trim` uses the ECMAScript white-space and line-terminator code points.
- `Date.now()` in the chat store: a `timestamp` parameter.
- Rendering, markdown, scrolling, styling, toasts, routing and page wiring: the model has no UI. This includes `Dashboard.jsx`, `InterviewPlanning.jsx`, `InterviewSession.jsx`, `InterviewChat.jsx`, `QuestionInput.jsx`, `SentimentTag.jsx`, `Sidebar.jsx`, `App.jsx` and `main.jsx`.
- `event.preventDefault()`: the key handler's suppression of the newline in the textarea is not modelled.
- The mock responses' `messages` arrays: the chat never displays them.
- `src/store/UserInterviewStore.js` is not part of this model. It is a one-line pass-through to the service.
- Absent features: pagination, a dominant-sentiment default tag, a fallback apology message on send failure, and a create-specific error flag. The code has none of them.

## Findings

| source | as written | input that shows it | evidently intended | confidence | as-written member | corrected member |
|---|---|---|---|---|---|---|
| src/pages/InterviewResponses.jsx:123 | `<AIChat messages=… readOnly={true} />`: no `type`, so the chat is editable and bound to the responses store, which has no `addHumanMessage` | type "hi" and press Enter: the `addHumanMessage` call throws a `TypeError` | `type="response"`: a read-only transcript with no input | not executed; medium, since the page is not routed in `App.jsx` | InterviewResponsesPage.ChatAsWrittenThrowsOnSend | InterviewResponsesPage.ChatIsReadOnly |
