/**
 * The interview responses page (`src/pages/InterviewResponses.jsx`): a fixed
 * list of mock responses, the distinct tags across them, the selected-tag
 * filter and the tag toggle.
 */
module InterviewResponsesPage {
  import opened Common
  import Seqs
  import Text
  import AIChat

  /** A mock response `{ id, user, summary, tags }`. */
  datatype MockResponse = MockResponse(id: int, user: string, summary: string, tags: seq<string>)

  const MockResponses: seq<MockResponse> := [
    MockResponse(1, "john.doe@example.com",
      "Overall positive feedback about the product. User highlighted the ease of use and suggested improvements in documentation.",
      ["Positive", "Documentation", "UX"]),
    MockResponse(2, "jane.smith@example.com",
      "Mixed feedback focusing on performance issues but praising customer support.",
      ["Performance", "Support", "Mixed"])
  ]

  /** `flatMap(r => r.tags)`: every response's tags, in response order. */
  function FlatTags(rs: seq<MockResponse>): (r: seq<string>)
    ensures forall x :: x in r <==> exists i :: 0 <= i < |rs| && x in rs[i].tags
  {
    if rs == [] then []
    else
      var rest := FlatTags(rs[1..]);
      assert forall i :: 1 <= i < |rs| ==> rs[i] == rs[1..][i - 1];
      assert forall x :: (exists i :: 1 <= i < |rs| && x in rs[i].tags) ==> x in rest by {
        forall x | exists i :: 1 <= i < |rs| && x in rs[i].tags ensures x in rest {
          var i :| 1 <= i < |rs| && x in rs[i].tags;
          assert x in rs[1..][i - 1].tags;
        }
      }
      rs[0].tags + rest
  }

  /** `Array.from(new Set(s))`: the distinct elements in order of first occurrence. */
  function Distinct(s: seq<string>): (r: seq<string>)
    ensures Seqs.NoDuplicates(r)
    ensures forall x :: x in r <==> x in s
    ensures |r| <= |s|
    decreases |s|
  {
    if s == [] then []
    else
      var r := Distinct(s[..|s| - 1]);
      assert forall x :: x in s <==> x in s[..|s| - 1] || x == s[|s| - 1] by {
        assert s == s[..|s| - 1] + [s[|s| - 1]];
      }
      if s[|s| - 1] in r then r else r + [s[|s| - 1]]
  }

  /** The index of the first occurrence of `x` in `s`. */
  function FirstIndex(x: string, s: seq<string>): (k: nat)
    requires x in s
    ensures k < |s| && s[k] == x
    ensures forall j :: 0 <= j < k ==> s[j] != x
  {
    if s[0] == x then 0 else 1 + FirstIndex(x, s[1..])
  }

  /** Appending does not move an earlier first occurrence. */
  lemma FirstIndexAppend(x: string, p: seq<string>, y: string)
    requires x in p
    ensures FirstIndex(x, p + [y]) == FirstIndex(x, p)
  {
    var s := p + [y];
    assert s[FirstIndex(x, p)] == x;
    assert forall j :: 0 <= j < |p| ==> s[j] == p[j];
  }

  /** `Distinct` lists the elements in the order they first occur in `s`. */
  lemma {:induction false} DistinctKeepsFirstOccurrenceOrder(s: seq<string>)
    ensures forall i, j :: 0 <= i < j < |Distinct(s)| ==>
              FirstIndex(Distinct(s)[i], s) < FirstIndex(Distinct(s)[j], s)
    decreases |s|
  {
    if s != [] {
      var p := s[..|s| - 1];
      var y := s[|s| - 1];
      assert s == p + [y];
      DistinctKeepsFirstOccurrenceOrder(p);
      var dp := Distinct(p);
      var d := Distinct(s);
      forall i | 0 <= i < |dp| ensures FirstIndex(dp[i], s) == FirstIndex(dp[i], p) {
        FirstIndexAppend(dp[i], p, y);
      }
      if y !in dp {
        assert y !in p;
        assert FirstIndex(y, s) == |p|;
        forall i, j | 0 <= i < j < |d| ensures FirstIndex(d[i], s) < FirstIndex(d[j], s) {
          assert d[i] == dp[i];
          if j < |dp| {
            assert d[j] == dp[j];
          }
        }
      }
    }
  }

  /** `allTags`: the distinct tags of the responses. */
  function AllTags(rs: seq<MockResponse>): seq<string> {
    Distinct(FlatTags(rs))
  }

  /**
   * `allTags` lists every tag of every response, nothing else, each once, in
   * the order tags first appear across the responses.
   */
  lemma AllTagsComplete(rs: seq<MockResponse>)
    ensures forall i, x :: 0 <= i < |rs| && x in rs[i].tags ==> x in AllTags(rs)
    ensures forall x :: x in AllTags(rs) ==> exists i :: 0 <= i < |rs| && x in rs[i].tags
    ensures Seqs.NoDuplicates(AllTags(rs))
    ensures forall i, j :: 0 <= i < j < |AllTags(rs)| ==>
              FirstIndex(AllTags(rs)[i], FlatTags(rs)) < FirstIndex(AllTags(rs)[j], FlatTags(rs))
  {
    DistinctKeepsFirstOccurrenceOrder(FlatTags(rs));
  }

  /** The tag badges of the mock data. */
  lemma MockAllTags()
    ensures AllTags(MockResponses) ==
              ["Positive", "Documentation", "UX", "Performance", "Support", "Mixed"]
  {
    var flat := ["Positive", "Documentation", "UX", "Performance", "Support", "Mixed"];
    assert MockResponses[1..][1..] == [];
    assert FlatTags(MockResponses) == flat;
    assert Seqs.NoDuplicates(flat);
    DistinctOfDistinct(flat);
  }

  /** A sequence without duplicates is its own `Distinct`. */
  lemma {:induction false} DistinctOfDistinct(s: seq<string>)
    requires Seqs.NoDuplicates(s)
    ensures Distinct(s) == s
    decreases |s|
  {
    if s != [] {
      var p := s[..|s| - 1];
      assert Seqs.NoDuplicates(p);
      DistinctOfDistinct(p);
      assert s == p + [s[|s| - 1]];
      assert s[|s| - 1] !in p;
    }
  }

  /** `r.tags.some(t => selectedTags.includes(t))`. */
  predicate HasSelectedTag(r: MockResponse, selected: seq<string>) {
    exists k :: 0 <= k < |r.tags| && r.tags[k] in selected
  }

  /**
   * `filteredResponses`: with no tag selected, every response; otherwise
   * exactly the responses carrying at least one selected tag, in their order.
   */
  function FilteredResponses(rs: seq<MockResponse>, selected: seq<string>): (r: seq<MockResponse>)
    ensures |selected| == 0 ==> r == rs
    ensures |selected| > 0 ==>
              forall k :: 0 <= k < |rs| ==> (rs[k] in r <==> HasSelectedTag(rs[k], selected))
    ensures |selected| > 0 ==> forall k :: 0 <= k < |r| ==> HasSelectedTag(r[k], selected)
    ensures Seqs.IsSubsequence(r, rs)
  {
    if |selected| > 0 then
      var p := (x: MockResponse) => HasSelectedTag(x, selected);
      Seqs.FilterIsSubsequence(p, rs);
      Seqs.Filter(p, rs)
    else
      Seqs.SubsequenceReflexive(rs);
      rs
  }

  /** `toggleTag`'s update: drops every copy of a selected tag, or appends an unselected one. */
  function Toggled(prev: seq<string>, tag: string): (r: seq<string>)
    ensures forall x :: x in r <==> if x == tag then tag !in prev else x in prev
  {
    if tag in prev then
      var p := (t: string) => t != tag;
      var r := Seqs.Filter(p, prev);
      Seqs.FilterSubMultiset(p, prev);
      assert forall x :: x in r ==> x in prev by {
        forall x | x in r ensures x in prev {
          assert x in multiset(r);
        }
      }
      r
    else prev + [tag]
  }

  /** Toggling a tag that was not selected twice restores the selection exactly. */
  lemma ToggleTwiceRestoresUnselected(prev: seq<string>, tag: string)
    requires tag !in prev
    ensures Toggled(Toggled(prev, tag), tag) == prev
  {
    var p := (t: string) => t != tag;
    Seqs.FilterSnocRejected(p, prev, tag);
    Seqs.FilterKeepsAll(p, prev);
  }

  /** Toggling twice always restores which tags are selected. */
  lemma ToggleTwiceSameTags(prev: seq<string>, tag: string)
    ensures forall x :: x in Toggled(Toggled(prev, tag), tag) <==> x in prev
  {
  }

  /** ...but not always their order: a selected tag comes back at the end. */
  lemma ToggleTwiceCanReorder()
    ensures Toggled(Toggled(["a", "b"], "a"), "a") == ["b", "a"]
  {
    var p := (t: string) => t != "a";
    assert Seqs.Filter(p, ["b"]) == ["b"];
    assert ["a", "b"][1..] == ["b"];
    assert Toggled(["a", "b"], "a") == ["b"];
  }

  /** A toggle never introduces a duplicate into the selection. */
  lemma ToggledKeepsDistinct(prev: seq<string>, tag: string)
    requires Seqs.NoDuplicates(prev)
    ensures Seqs.NoDuplicates(Toggled(prev, tag))
  {
    if tag in prev {
      Seqs.FilterNoDuplicates((t: string) => t != tag, prev);
    }
  }

  /** The page's own state: the selected tags and the response being shown. */
  class ResponsesPage {
    var selectedTags: seq<string>
    var selectedResponse: Option<MockResponse>

    constructor ()
      ensures selectedTags == [] && selectedResponse == None
    {
      selectedTags := [];
      selectedResponse := None;
    }

    /** The selection holds each tag at most once. */
    predicate Valid()
      reads this
    {
      Seqs.NoDuplicates(selectedTags)
    }

    method ToggleTag(tag: string)
      modifies this
      ensures selectedTags == Toggled(old(selectedTags), tag)
      ensures old(Valid()) ==> Valid()
      ensures selectedResponse == old(selectedResponse)
    {
      if old(Valid()) {
        ToggledKeepsDistinct(selectedTags, tag);
      }
      selectedTags := Toggled(selectedTags, tag);
    }

    method SelectResponse(r: MockResponse)
      modifies this
      ensures selectedResponse == Some(r) && selectedTags == old(selectedTags)
    {
      selectedResponse := Some(r);
    }
  }

  /** The `type` the page passes to its chat as written: none (it passes `readOnly` instead). */
  const ChatTypeAsWritten: Option<string> := None

  /** The `type` that gives the read-only transcript the page's `readOnly={true}` asks for. */
  const ChatType: Option<string> := Some(AIChat.ResponseType)

  /**
   * As written, the chat is editable and bound to the responses store, so
   * typing a message and sending it throws instead of sending.
   */
  method ChatAsWrittenThrowsOnSend()
  {
    var panel := new AIChat.ChatPanel(ChatTypeAsWritten);
    assert !AIChat.ReadOnly(panel.kind);
    panel.SetUserInput("hi");
    assert !Text.IsSpace("hi"[0]);
    var threw := panel.HandleResponsesSend();
    assert threw;
  }

  /** With the `"response"` type the chat shows the responses store's transcript and no input. */
  lemma ChatIsReadOnly()
    ensures AIChat.ReadOnly(ChatType)
    ensures AIChat.StoreFor(ChatType) == AIChat.ResponsesStore
  {
  }
}
