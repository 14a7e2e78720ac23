/**
 * The interview collection store (`src/store/IntStore.js`): the canonical list
 * of interviews with an initialise-once guard, local lookup, fetch-and-append,
 * append on create, replace-by-id and the list filters.
 *
 * Each awaited service call is a `Result` parameter; `calls` logs the calls
 * the store issues, so a guarded action that issues none is visible.
 */
module IntStore {
  import opened Common
  import Seqs

  datatype Filters = Filters(search: string, status: Option<string>)

  /** The predicate `interview => interview.uuid === uuid`. */
  function HasUuid(uuid: string): Interview -> bool {
    (i: Interview) => i.uuid == uuid
  }

  /** The predicate `interview => interview.id === id`. */
  function HasId(id: int): Interview -> bool {
    (i: Interview) => i.id == id
  }

  /**
   * `interviews.find(i => i.uuid === uuid)`: the first interview with that
   * uuid, or none when no interview has it.
   */
  function FindByUuid(interviews: seq<Interview>, uuid: string): (r: Option<Interview>)
    ensures r.None? <==> forall j :: 0 <= j < |interviews| ==> interviews[j].uuid != uuid
    ensures r.Some? ==> exists k :: 0 <= k < |interviews| && interviews[k] == r.value &&
                                    r.value.uuid == uuid &&
                                    forall j :: 0 <= j < k ==> interviews[j].uuid != uuid
  {
    Seqs.Find(HasUuid(uuid), interviews)
  }

  /**
   * The list `updateInterview` stores: a copy with the first interview whose
   * `id` matches replaced, or the list itself when none matches.
   */
  function ReplacedById(interviews: seq<Interview>, id: int, updated: Interview): (r: seq<Interview>)
    ensures |r| == |interviews|
    ensures (forall j :: 0 <= j < |interviews| ==> interviews[j].id != id) ==> r == interviews
    ensures forall k :: 0 <= k < |interviews| && interviews[k].id == id &&
                        (forall j :: 0 <= j < k ==> interviews[j].id != id) ==>
              r[k] == updated && forall j :: 0 <= j < |r| && j != k ==> r[j] == interviews[j]
  {
    var index := Seqs.FindIndex(HasId(id), interviews);
    if index != -1 then interviews[index := updated] else interviews
  }

  class Store {
    var interviews: seq<Interview>
    var isInitialized: bool
    var initError: bool
    var isLoading: bool
    var filters: Filters
    ghost var calls: seq<RemoteCall>

    constructor ()
      ensures interviews == [] && !isInitialized && !initError && isLoading
      ensures filters == Filters("", None) && calls == []
    {
      interviews := [];
      isInitialized := false;
      initError := false;
      isLoading := true;
      filters := Filters("", None);
      calls := [];
    }

    /** `getInterviewByUuid`: a local lookup that changes nothing. */
    function GetInterviewByUuid(uuid: string): (r: Option<Interview>)
      reads this
      ensures r.None? <==> forall j :: 0 <= j < |interviews| ==> interviews[j].uuid != uuid
      ensures r.Some? ==> r.value in interviews && r.value.uuid == uuid
    {
      FindByUuid(interviews, uuid)
    }

    /**
     * `initInterviews`: when not yet initialised, fetch the whole list
     * (`fetched` is that fetch's outcome); then clear `isLoading` either way.
     */
    method InitInterviews(fetched: Result<seq<Interview>>)
      modifies this
      ensures old(isInitialized) ==>
                interviews == old(interviews) && isInitialized && initError == old(initError) &&
                isLoading == old(isLoading) && calls == old(calls)
      ensures !old(isInitialized) ==> calls == old(calls) + [GetAllInterviews] && !isLoading
      ensures !old(isInitialized) && fetched.Ok? ==>
                interviews == fetched.value && isInitialized && initError == old(initError)
      ensures !old(isInitialized) && fetched.Err? ==>
                interviews == old(interviews) && !isInitialized && initError
      ensures filters == old(filters)
    {
      if !isInitialized {
        var ok := FetchInterviews(fetched);
        if ok {
          isInitialized := true;
        } else {
          initError := true;
        }
        isLoading := false;
      }
    }

    /**
     * `fetchInterviews`: replaces the list by the fetched one. A failed fetch
     * rejects (`ok` false) and changes nothing.
     */
    method FetchInterviews(fetched: Result<seq<Interview>>) returns (ok: bool)
      modifies this
      ensures ok == fetched.Ok?
      ensures interviews == if ok then fetched.value else old(interviews)
      ensures calls == old(calls) + [GetAllInterviews]
      ensures isInitialized == old(isInitialized) && initError == old(initError)
      ensures isLoading == old(isLoading) && filters == old(filters)
    {
      calls := calls + [GetAllInterviews];
      match fetched {
        case Ok(list) =>
          interviews := list;
          ok := true;
        case Err =>
          ok := false;
      }
    }

    method SetSearch(search: string)
      modifies this
      ensures filters == old(filters).(search := search)
      ensures interviews == old(interviews) && isInitialized == old(isInitialized)
      ensures initError == old(initError) && isLoading == old(isLoading) && calls == old(calls)
    {
      filters := filters.(search := search);
    }

    method SetStatusFilter(status: Option<string>)
      modifies this
      ensures filters == old(filters).(status := status)
      ensures interviews == old(interviews) && isInitialized == old(isInitialized)
      ensures initError == old(initError) && isLoading == old(isLoading) && calls == old(calls)
    {
      filters := filters.(status := status);
    }

    /**
     * `fetchInterviewByUuid`: the local match when there is one, without a
     * fetch; otherwise fetch it (`remote`), append it and return it. A failed
     * fetch rejects (`Err`) and changes nothing.
     */
    method FetchInterviewByUuid(uuid: string, remote: Result<Interview>) returns (r: Result<Interview>)
      modifies this
      ensures FindByUuid(old(interviews), uuid).Some? ==>
                r == Ok(FindByUuid(old(interviews), uuid).value) &&
                interviews == old(interviews) && calls == old(calls)
      ensures FindByUuid(old(interviews), uuid).None? ==>
                calls == old(calls) + [RemoteCall.GetInterviewByUuid(Some(uuid))] && r == remote &&
                interviews == if remote.Ok? then old(interviews) + [remote.value] else old(interviews)
      ensures isInitialized == old(isInitialized) && initError == old(initError)
      ensures isLoading == old(isLoading) && filters == old(filters)
    {
      var local := FindByUuid(interviews, uuid);
      if local.Some? {
        return Ok(local.value);
      }
      calls := calls + [RemoteCall.GetInterviewByUuid(Some(uuid))];
      match remote {
        case Ok(fetched) =>
          interviews := interviews + [fetched];
          r := Ok(fetched);
        case Err =>
          r := Err;
      }
    }

    /**
     * `addInterview({ name })`: the server creates the interview (`created`);
     * it is appended and returned. The request sent carries no name. A failed creation rejects and changes nothing.
     */
    method AddInterview(name: string, created: Result<Interview>) returns (r: Result<Interview>)
      modifies this
      ensures r == created
      ensures calls == old(calls) + [RemoteCall.AddInterview]
      ensures interviews == if created.Ok? then old(interviews) + [created.value] else old(interviews)
      ensures isInitialized == old(isInitialized) && initError == old(initError)
      ensures isLoading == old(isLoading) && filters == old(filters)
    {
      calls := calls + [RemoteCall.AddInterview];
      r := created;
      if created.Ok? {
        interviews := interviews + [created.value];
      }
    }

    /**
     * `updateInterview({ id, interview })`: a local replacement of the first
     * interview with that `id` (no service call); returns the argument.
     */
    method UpdateInterview(id: int, updated: Interview) returns (r: Interview)
      modifies this
      ensures r == updated
      ensures interviews == ReplacedById(old(interviews), id, updated)
      ensures isInitialized == old(isInitialized) && initError == old(initError)
      ensures isLoading == old(isLoading) && filters == old(filters) && calls == old(calls)
    {
      interviews := ReplacedById(interviews, id, updated);
      r := updated;
    }
  }

  /** A successful initialisation followed by any other is the first one's state, with one fetch. */
  method InitTwice(first: Result<seq<Interview>>, second: Result<seq<Interview>>)
    requires first.Ok?
  {
    var store := new Store();
    store.InitInterviews(first);
    store.InitInterviews(second);
    assert store.interviews == first.value && store.isInitialized;
    assert store.calls == [GetAllInterviews];
  }

  /** Appending on a missed lookup makes the next lookup of the same uuid local. */
  lemma {:induction false} AppendedIsFound(interviews: seq<Interview>, fetched: Interview)
    requires FindByUuid(interviews, fetched.uuid).None?
    ensures FindByUuid(interviews + [fetched], fetched.uuid) == Some(fetched)
  {
    var s := interviews + [fetched];
    assert forall j :: 0 <= j < |interviews| ==> s[j] == interviews[j];
    assert s[|interviews|] == fetched;
  }
}
