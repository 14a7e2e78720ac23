/**
 * The interview table's derived view (`src/components/InterviewTable.jsx`):
 * the sort configuration toggled by `requestSort`, and `getSortedInterviews`,
 * a search filter followed by a sort with the column comparator.
 *
 * `localeCompare` is `Text.StrCompare`; a creation date is a timestamp, and a
 * missing one counts as 0, as `new Date(created_date || 0)` does.
 * `Array.prototype.sort` is stable, so its result for a consistent comparator
 * is the one the stable insertion sort `SortBy` computes.
 */
module InterviewTable {
  import opened Common
  import Text
  import Seqs

  datatype Direction = Asc | Desc

  /** `{ key, direction }`; the key is a column name. */
  datatype SortConfig = SortConfig(key: string, direction: Direction)

  const TitleKey: string := "title"
  const StatusKey: string := "status"
  const CreatedDateKey: string := "created_date"

  /** The table's sort state; it starts as newest first. */
  class TableState {
    var sortConfig: SortConfig

    constructor ()
      ensures sortConfig == SortConfig(CreatedDateKey, Desc)
    {
      sortConfig := SortConfig(CreatedDateKey, Desc);
    }

    /**
     * `requestSort(key)`: sorts by `key`, descending exactly when `key` is
     * already the ascending sort key, ascending in every other case.
     */
    method RequestSort(key: string)
      modifies this
      ensures sortConfig.key == key
      ensures sortConfig.direction == Desc <==>
                old(sortConfig).key == key && old(sortConfig).direction == Asc
    {
      var direction := Asc;
      if sortConfig.key == key && sortConfig.direction == Asc {
        direction := Desc;
      }
      sortConfig := SortConfig(key, direction);
    }
  }

  /** Clicking one column header repeatedly alternates ascending and descending. */
  method RequestSortToggles(key: string)
    requires key != CreatedDateKey
  {
    var table := new TableState();
    table.RequestSort(key);
    assert table.sortConfig == SortConfig(key, Asc);
    table.RequestSort(key);
    assert table.sortConfig == SortConfig(key, Desc);
    table.RequestSort(key);
    assert table.sortConfig == SortConfig(key, Asc);
    table.RequestSort(CreatedDateKey);
    assert table.sortConfig == SortConfig(CreatedDateKey, Asc);
  }

  /** The timestamp the date column sorts by. */
  function DateValue(i: Interview): int {
    match i.createdDate
    case None => 0
    case Some(t) => t
  }

  /**
   * The search filter: an empty search keeps everything; otherwise the
   * lower-cased term must occur in the lower-cased title or objective.
   */
  predicate MatchesSearch(search: string, i: Interview) {
    search == [] ||
    var term := Text.ToLower(search);
    Text.Includes(Text.ToLower(i.title), term) || Text.Includes(Text.ToLower(i.objective), term)
  }

  function SearchFilter(search: string): Interview -> bool {
    (i: Interview) => MatchesSearch(search, i)
  }

  /** The sort comparator: negative when `a` goes first, 0 when tied. */
  function Compare(cfg: SortConfig, a: Interview, b: Interview): int {
    if cfg.key == TitleKey then
      (if cfg.direction == Asc then Text.StrCompare(a.title, b.title) else Text.StrCompare(b.title, a.title))
    else if cfg.key == StatusKey then
      (if cfg.direction == Asc then Text.StrCompare(a.status, b.status) else Text.StrCompare(b.status, a.status))
    else if cfg.key == CreatedDateKey then
      (if cfg.direction == Asc then DateValue(a) - DateValue(b) else DateValue(b) - DateValue(a))
    else 0
  }

  /** `s` is in comparator order. */
  predicate Sorted(cfg: SortConfig, s: seq<Interview>) {
    forall i, j :: 0 <= i < j < |s| ==> Compare(cfg, s[i], s[j]) <= 0
  }

  /** Inserts `x` after every element of sorted `t` that does not come after it. */
  function Insert(cfg: SortConfig, x: Interview, t: seq<Interview>): seq<Interview>
    decreases |t|
  {
    if t == [] || Compare(cfg, t[|t| - 1], x) <= 0 then t + [x]
    else Insert(cfg, x, t[..|t| - 1]) + [t[|t| - 1]]
  }

  /** Stable insertion sort by the comparator. */
  function SortBy(cfg: SortConfig, s: seq<Interview>): seq<Interview>
    decreases |s|
  {
    if s == [] then []
    else Insert(cfg, s[|s| - 1], SortBy(cfg, s[..|s| - 1]))
  }

  /**
   * `getSortedInterviews`: with no data, nothing; otherwise the interviews
   * passing the search filter, sorted by the comparator.
   */
  function GetSortedInterviews(data: Option<seq<Interview>>, search: string, cfg: SortConfig)
    : (r: seq<Interview>)
    ensures data.None? ==> r == []
    ensures data.Some? ==> multiset(r) == multiset(Seqs.Filter(SearchFilter(search), data.value))
    ensures data.Some? ==> |r| <= |data.value|
    ensures data.Some? ==> forall k :: 0 <= k < |data.value| ==>
              (data.value[k] in r <==> MatchesSearch(search, data.value[k]))
    ensures forall k :: 0 <= k < |r| ==> MatchesSearch(search, r[k])
    ensures data.Some? && search == [] ==> multiset(r) == multiset(data.value)
    ensures Sorted(cfg, r)
    ensures cfg.key != TitleKey && cfg.key != StatusKey && cfg.key != CreatedDateKey ==>
              r == if data.Some? then Seqs.Filter(SearchFilter(search), data.value) else []
  {
    match data
    case None => []
    case Some(interviews) =>
      SortedViewFacts(search, cfg, interviews);
      SortBy(cfg, Seqs.Filter(SearchFilter(search), interviews))
  }

  /** The facts `GetSortedInterviews` states, about the sort of the filtered list. */
  lemma SortedViewFacts(search: string, cfg: SortConfig, interviews: seq<Interview>)
    ensures var r := SortBy(cfg, Seqs.Filter(SearchFilter(search), interviews));
            && multiset(r) == multiset(Seqs.Filter(SearchFilter(search), interviews))
            && |r| <= |interviews|
            && (forall k :: 0 <= k < |interviews| ==> (interviews[k] in r <==> MatchesSearch(search, interviews[k])))
            && (forall k :: 0 <= k < |r| ==> MatchesSearch(search, r[k]))
            && (search == [] ==> multiset(r) == multiset(interviews))
            && Sorted(cfg, r)
            && (cfg.key != TitleKey && cfg.key != StatusKey && cfg.key != CreatedDateKey ==>
                  r == Seqs.Filter(SearchFilter(search), interviews))
  {
    var filtered := Seqs.Filter(SearchFilter(search), interviews);
    var r := SortBy(cfg, filtered);
    SortPermutes(cfg, filtered);
    SortSorts(cfg, filtered);
    EmptySearchKeepsAll(search, interviews);
    SortKeepsOrderWhenAllTied(cfg, filtered);
    assert |r| == |filtered| by {
      assert |multiset(r)| == |multiset(filtered)|;
    }
    forall k | 0 <= k < |r| ensures MatchesSearch(search, r[k]) {
      assert r[k] in multiset(filtered);
      var m :| 0 <= m < |filtered| && filtered[m] == r[k];
      assert SearchFilter(search)(filtered[m]);
    }
    forall k | 0 <= k < |interviews|
      ensures interviews[k] in r <==> MatchesSearch(search, interviews[k])
    {
      assert interviews[k] in r <==> interviews[k] in multiset(filtered);
      assert SearchFilter(search)(interviews[k]) == MatchesSearch(search, interviews[k]);
    }
  }

  /** An empty search keeps every interview, in order. */
  lemma EmptySearchKeepsAll(search: string, s: seq<Interview>)
    ensures search == [] ==> Seqs.Filter(SearchFilter(search), s) == s
  {
    if search == [] {
      Seqs.FilterKeepsAll(SearchFilter(search), s);
    }
  }

  /** Text columns in ascending order come out non-decreasing, descending non-increasing. */
  lemma SortedTextColumns(cfg: SortConfig, r: seq<Interview>)
    requires Sorted(cfg, r)
    ensures cfg == SortConfig(TitleKey, Asc) ==>
              forall i, j :: 0 <= i < j < |r| ==> Text.StrCompare(r[i].title, r[j].title) <= 0
    ensures cfg == SortConfig(TitleKey, Desc) ==>
              forall i, j :: 0 <= i < j < |r| ==> Text.StrCompare(r[j].title, r[i].title) <= 0
    ensures cfg == SortConfig(StatusKey, Asc) ==>
              forall i, j :: 0 <= i < j < |r| ==> Text.StrCompare(r[i].status, r[j].status) <= 0
    ensures cfg == SortConfig(StatusKey, Desc) ==>
              forall i, j :: 0 <= i < j < |r| ==> Text.StrCompare(r[j].status, r[i].status) <= 0
  {
    assert forall i, j :: 0 <= i < j < |r| ==> Compare(cfg, r[i], r[j]) <= 0;
  }

  /** The date column orders by timestamp, a missing date counting as 0. */
  lemma SortedDateColumn(cfg: SortConfig, r: seq<Interview>)
    requires Sorted(cfg, r)
    ensures cfg == SortConfig(CreatedDateKey, Asc) ==>
              forall i, j :: 0 <= i < j < |r| ==> DateValue(r[i]) <= DateValue(r[j])
    ensures cfg == SortConfig(CreatedDateKey, Desc) ==>
              forall i, j :: 0 <= i < j < |r| ==> DateValue(r[i]) >= DateValue(r[j])
  {
    assert forall i, j :: 0 <= i < j < |r| ==> Compare(cfg, r[i], r[j]) <= 0;
  }

  /** The comparator is antisymmetric. */
  lemma CompareAntisymmetric(cfg: SortConfig, a: Interview, b: Interview)
    ensures Compare(cfg, b, a) == -Compare(cfg, a, b)
  {
    Text.StrCompareAntisymmetric(a.title, b.title);
    Text.StrCompareAntisymmetric(a.status, b.status);
  }

  /** "Does not come after" is transitive. */
  lemma CompareTransitive(cfg: SortConfig, a: Interview, b: Interview, c: Interview)
    requires Compare(cfg, a, b) <= 0 && Compare(cfg, b, c) <= 0
    ensures Compare(cfg, a, c) <= 0
  {
    if cfg.key == TitleKey {
      if cfg.direction == Asc {
        Text.StrCompareTransitive(a.title, b.title, c.title);
      } else {
        Text.StrCompareTransitive(c.title, b.title, a.title);
      }
    } else if cfg.key == StatusKey {
      if cfg.direction == Asc {
        Text.StrCompareTransitive(a.status, b.status, c.status);
      } else {
        Text.StrCompareTransitive(c.status, b.status, a.status);
      }
    }
  }

  lemma {:induction false} InsertPermutes(cfg: SortConfig, x: Interview, t: seq<Interview>)
    ensures multiset(Insert(cfg, x, t)) == multiset(t) + multiset{x}
    decreases |t|
  {
    if !(t == [] || Compare(cfg, t[|t| - 1], x) <= 0) {
      var init := t[..|t| - 1];
      InsertPermutes(cfg, x, init);
      assert t == init + [t[|t| - 1]];
    }
  }

  /** Every element of `Insert(x, t)` does not come after `y` when that holds of `x` and of `t`. */
  lemma InsertBounded(cfg: SortConfig, x: Interview, t: seq<Interview>, y: Interview)
    requires Compare(cfg, x, y) <= 0
    requires forall k :: 0 <= k < |t| ==> Compare(cfg, t[k], y) <= 0
    ensures forall k :: 0 <= k < |Insert(cfg, x, t)| ==> Compare(cfg, Insert(cfg, x, t)[k], y) <= 0
  {
    var r := Insert(cfg, x, t);
    InsertPermutes(cfg, x, t);
    forall k | 0 <= k < |r| ensures Compare(cfg, r[k], y) <= 0 {
      assert r[k] in multiset(r);
      if r[k] != x {
        assert r[k] in multiset(t);
        var m :| 0 <= m < |t| && t[m] == r[k];
      }
    }
  }

  lemma {:induction false} InsertSorts(cfg: SortConfig, x: Interview, t: seq<Interview>)
    requires Sorted(cfg, t)
    ensures Sorted(cfg, Insert(cfg, x, t))
    decreases |t|
  {
    if t == [] || Compare(cfg, t[|t| - 1], x) <= 0 {
      var r := t + [x];
      forall i, j | 0 <= i < j < |r| ensures Compare(cfg, r[i], r[j]) <= 0 {
        if j == |t| {
          if i < |t| - 1 {
            CompareTransitive(cfg, t[i], t[|t| - 1], x);
          }
        }
      }
    } else {
      var init := t[..|t| - 1];
      var y := t[|t| - 1];
      assert Sorted(cfg, init);
      InsertSorts(cfg, x, init);
      CompareAntisymmetric(cfg, y, x);
      InsertBounded(cfg, x, init, y);
      var ins := Insert(cfg, x, init);
      var r := ins + [y];
      forall i, j | 0 <= i < j < |r| ensures Compare(cfg, r[i], r[j]) <= 0 {
        if j < |ins| {
          assert r[i] == ins[i] && r[j] == ins[j];
        } else {
          assert r[i] == ins[i] && r[j] == y;
        }
      }
    }
  }

  lemma {:induction false} SortPermutes(cfg: SortConfig, s: seq<Interview>)
    ensures multiset(SortBy(cfg, s)) == multiset(s)
    decreases |s|
  {
    if s != [] {
      var init := s[..|s| - 1];
      SortPermutes(cfg, init);
      InsertPermutes(cfg, s[|s| - 1], SortBy(cfg, init));
      assert s == init + [s[|s| - 1]];
    }
  }

  lemma {:induction false} SortSorts(cfg: SortConfig, s: seq<Interview>)
    ensures Sorted(cfg, SortBy(cfg, s))
    decreases |s|
  {
    if s != [] {
      SortSorts(cfg, s[..|s| - 1]);
      InsertSorts(cfg, s[|s| - 1], SortBy(cfg, s[..|s| - 1]));
    }
  }

  /** When everything ties (an unrecognised key), the stable sort keeps the input order. */
  lemma {:induction false} SortKeepsOrderWhenAllTied(cfg: SortConfig, s: seq<Interview>)
    ensures cfg.key != TitleKey && cfg.key != StatusKey && cfg.key != CreatedDateKey ==>
              SortBy(cfg, s) == s
    decreases |s|
  {
    if s != [] {
      SortKeepsOrderWhenAllTied(cfg, s[..|s| - 1]);
      assert s == s[..|s| - 1] + [s[|s| - 1]];
    }
  }
}
