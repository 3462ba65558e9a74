/** The steps the two batch fetchers of the MySQL layer share (dao/mysql/user.go
    BatchGetUsersByIDs, dao/mysql/community.go BatchGetCommunitiesByIDs): the size
    limit, first-seen deduplication, one placeholder per unique id, the query, and the
    map from each returned row's id to the row. */
module Batch {
  import opened Wrappers
  import opened MySqlStore

  const MaxBatchSize := 1000

  /** The position of the first occurrence of `x`. */
  function FirstIndex(ids: seq<int>, x: int): (i: nat)
    requires x in ids
    ensures i < |ids| && ids[i] == x && x !in ids[..i]
    decreases |ids|
  {
    var front := ids[..|ids| - 1];
    if x in front then
      var i := FirstIndex(front, x);
      assert ids[..i] == front[..i];
      i
    else
      |ids| - 1
  }

  /** Each id once, in the order of its first occurrence. */
  function FirstSeen(ids: seq<int>): (u: seq<int>)
    ensures ids != [] ==> u != []
    decreases |ids|
  {
    if ids == [] then []
    else
      var u := FirstSeen(ids[..|ids| - 1]);
      if ids[|ids| - 1] in u then u else u + [ids[|ids| - 1]]
  }

  /** FirstSeen keeps exactly the ids of the input, each once, ordered by first occurrence. */
  lemma {:induction false} FirstSeenSpec(ids: seq<int>)
    ensures forall x :: x in FirstSeen(ids) <==> x in ids
    ensures |FirstSeen(ids)| <= |ids|
    ensures forall i, j :: 0 <= i < j < |FirstSeen(ids)| ==> FirstSeen(ids)[i] != FirstSeen(ids)[j]
    ensures forall i, j :: 0 <= i < j < |FirstSeen(ids)| ==>
      FirstIndex(ids, FirstSeen(ids)[i]) < FirstIndex(ids, FirstSeen(ids)[j])
    decreases |ids|
  {
    if ids != [] {
      var front := ids[..|ids| - 1];
      var x := ids[|ids| - 1];
      FirstSeenSpec(front);
      assert ids == front + [x];
      var u := FirstSeen(front);
      forall y | y in front
        ensures FirstIndex(ids, y) == FirstIndex(front, y) < |front|
      {
      }
    }
  }

  /** The deduplication loop: a set of the ids seen so far and the list of new ones. */
  method UniqueIDs(ids: seq<int>) returns (unique: seq<int>)
    ensures unique == FirstSeen(ids)
  {
    unique := [];
    var idSet: set<int> := {};
    for i := 0 to |ids|
      invariant unique == FirstSeen(ids[..i])
      invariant forall x :: x in idSet <==> x in unique
    {
      assert ids[..i + 1][..i] == ids[..i] && ids[..i + 1][i] == ids[i] && ids[..i + 1] != [];
      if ids[i] !in idSet {
        unique := unique + [ids[i]];
        idSet := idSet + {ids[i]};
      }
    }
    assert ids[..|ids|] == ids;
  }

  function Repeat(s: string, k: nat): string {
    if k == 0 then "" else s + Repeat(s, k - 1)
  }

  /** The IN list of the query: "(?" followed by n - 1 copies of ",?" and ")". */
  function InList(n: nat): string
    requires n >= 1
  {
    "(?" + Repeat(",?", n - 1) + ")"
  }

  lemma {:induction false} RepeatMarks(k: nat)
    ensures Marks(Repeat(",?", k)) == k
  {
    if k > 0 {
      RepeatMarks(k - 1);
      MarksConcat(",?", Repeat(",?", k - 1));
      assert Marks(",?") == 1;
    }
  }

  /** The IN list carries exactly one placeholder per id. */
  lemma InListMarks(n: nat)
    requires n >= 1
    ensures Marks(InList(n)) == n
  {
    RepeatMarks(n - 1);
    MarksConcat("(?", Repeat(",?", n - 1));
    MarksConcat("(?" + Repeat(",?", n - 1), ")");
    assert Marks("(?") == 1;
    assert Marks(")") == 0;
  }

  /** The argument slice: the unique ids, in order. */
  method Args(unique: seq<int>) returns (args: array<int>)
    ensures fresh(args)
    ensures args[..] == unique
  {
    args := new int[|unique|];
    for i := 0 to |unique|
      invariant args[..i] == unique[..i]
    {
      args[i] := unique[i];
    }
  }

  /** The map from each returned row's id to the row; a later row with the same id wins. */
  method KeyBy<T>(rows: seq<T>, idOf: T -> int) returns (m: map<int, T>)
    ensures forall k :: 0 <= k < |rows| ==> idOf(rows[k]) in m
    ensures forall id :: id in m ==> idOf(m[id]) == id && m[id] in rows
  {
    m := map[];
    for i := 0 to |rows|
      invariant forall k :: 0 <= k < i ==> idOf(rows[k]) in m
      invariant forall id :: id in m ==> idOf(m[id]) == id && m[id] in rows
    {
      m := m[idOf(rows[i]) := rows[i]];
    }
  }

  /** What a batch fetch finds: every requested id that has a row, with its selected columns. */
  function Found<T>(table: map<int, T>, ids: seq<int>, project: T -> T): (m: map<int, T>)
    ensures forall id :: id in m <==> id in table && id in ids
  {
    map id | id in table && id in ids :: project(table[id])
  }

  /** The rows a SELECT returned for the unique ids, keyed by their ids, are what was asked for. */
  lemma KeyedRowsAreFound<T>(table: map<int, T>, idOf: T -> int, project: T -> T, ids: seq<int>,
                             rows: seq<T>, m: map<int, T>)
    requires Keyed(table, idOf)
    requires forall v :: idOf(project(v)) == idOf(v)
    requires forall k :: 0 <= k < |rows| ==>
      && idOf(rows[k]) in FirstSeen(ids) && idOf(rows[k]) in table
      && rows[k] == project(table[idOf(rows[k])])
    requires forall id :: id in FirstSeen(ids) && id in table ==> project(table[id]) in rows
    requires forall k :: 0 <= k < |rows| ==> idOf(rows[k]) in m
    requires forall id :: id in m ==> idOf(m[id]) == id && m[id] in rows
    ensures m == Found(table, ids, project)
  {
    FirstSeenSpec(ids);
    forall id | id in m
      ensures id in table && id in ids && m[id] == project(table[id])
    {
      var k :| 0 <= k < |rows| && rows[k] == m[id];
    }
    forall id | id in table && id in ids
      ensures id in m
    {
      var k :| 0 <= k < |rows| && rows[k] == project(table[id]);
    }
  }

  /** The whole batch fetch over one table: nothing asked, nothing queried; more than
      1000 ids (counted before deduplication) refused; a failed query reported wrapped
      in `what`; otherwise every requested id that has a row, and no error for the rest. */
  method BatchGetByIDs<T(==,!new)>(online: bool, table: map<int, T>, idOf: T -> int, project: T -> T, ids: seq<int>, what: string)
    returns (r: Result<map<int, T>>)
    requires Keyed(table, idOf)
    requires forall v :: idOf(project(v)) == idOf(v)
    ensures ids == [] ==> r == Ok(map[])
    ensures |ids| > MaxBatchSize ==> r == Err(TooManyIDs(|ids|, MaxBatchSize))
    ensures 0 < |ids| <= MaxBatchSize && !online ==> r == Err(Wrapped(what, Backend))
    ensures 0 < |ids| <= MaxBatchSize && online ==> r == Ok(Found(table, ids, project))
  {
    if |ids| == 0 {
      return Ok(map[]);
    }
    if |ids| > MaxBatchSize {
      return Err(TooManyIDs(|ids|, MaxBatchSize));
    }
    var unique := UniqueIDs(ids);
    FirstSeenSpec(ids);
    var inList := InList(|unique|);
    InListMarks(|unique|);
    var args := Args(unique);
    var rows := SelectIn(online, table, idOf, project, inList, args[..]);
    if rows.Err? {
      return Err(Wrapped(what, rows.error));
    }
    var m := KeyBy(rows.value, idOf);
    KeyedRowsAreFound(table, idOf, project, ids, rows.value, m);
    r := Ok(m);
  }
}
