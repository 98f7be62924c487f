/** reindex-worker's backfill: keyset pagination over (created_at, id) while rows keep being inserted. */
module Reindex {
  import opened Basics
  import opened Ordering
  import opened Sequences

  /** The key columns of a catalog row; the column allows a missing creation time. */
  datatype Row = Row(createdAt: Option<int>, id: Id)

  /** The last row written; a missing time reads the table from the start. */
  datatype Cursor = Cursor(at: Option<int>, id: Id)

  const AtStart := Cursor(None, "")

  /** (created_at, id) > (cursor): never true of a row without a creation time, always true from the start. */
  function Past(c: Cursor): Row -> bool {
    (r: Row) =>
      c.at.None? ||
      (r.createdAt.Some? && (r.createdAt.value > c.at.value || (r.createdAt.value == c.at.value && Less(c.id, r.id))))
  }

  /** ORDER BY created_at, id, with missing times last. */
  predicate Precedes(a: Row, b: Row) {
    if a.createdAt.None? then b.createdAt.None? && Less(a.id, b.id)
    else b.createdAt.None? || a.createdAt.value < b.createdAt.value
         || (a.createdAt.value == b.createdAt.value && Less(a.id, b.id))
  }

  /** A table listed in the scan's order. */
  predicate InOrder(rows: seq<Row>) { forall i, j :: 0 <= i < j < |rows| ==> Precedes(rows[i], rows[j]) }

  predicate Dated(rows: seq<Row>) { forall i :: 0 <= i < |rows| ==> rows[i].createdAt.Some? }

  function First(rows: seq<Row>, limit: nat): seq<Row> { if |rows| <= limit then rows else rows[..limit] }

  function ScanBatch(table: seq<Row>, c: Cursor, limit: nat): seq<Row> { First(Filter(table, Past(c)), limit) }

  function NextCursor(rows: seq<Row>, c: Cursor): Cursor {
    if rows == [] then c else Cursor(rows[|rows| - 1].createdAt, rows[|rows| - 1].id)
  }

  predicate IsComplete(rows: seq<Row>, limit: nat) { |rows| < limit }

  /* ---------- facts about one batch ---------- */

  lemma {:induction false} FilterKeepsOrder(rows: seq<Row>, q: Row -> bool)
    requires InOrder(rows)
    ensures InOrder(Filter(rows, q))
  {
    if rows != [] {
      var n := |rows| - 1;
      FilterKeepsOrder(rows[..n], q);
      var before := Filter(rows[..n], q);
      forall i | 0 <= i < |before| ensures Precedes(before[i], rows[n]) {
        FilterMembers(rows[..n], q, before[i]);
        var k :| 0 <= k < n && rows[..n][k] == before[i];
      }
    }
  }

  lemma {:induction false} StricterFilterIsShorter(rows: seq<Row>, q: Row -> bool, p: Row -> bool, x: Row)
    requires forall r :: r in rows && p(r) ==> q(r)
    ensures |Filter(rows, p)| <= |Filter(rows, q)|
    ensures x in rows && q(x) && !p(x) ==> |Filter(rows, p)| < |Filter(rows, q)|
  {
    if rows != [] {
      var n := |rows| - 1;
      assert rows == rows[..n] + [rows[n]];
      StricterFilterIsShorter(rows[..n], q, p, x);
    }
  }

  /** Moving the cursor to a row keeps what lies past it and drops the row itself. */
  lemma {:induction false} CursorAtRow(c: Cursor, last: Row)
    requires last.createdAt.Some? && Past(c)(last)
    ensures var d := Cursor(last.createdAt, last.id);
            && !Past(d)(last)
            && (forall r :: Past(d)(r) ==> Past(c)(r))
            && (forall r: Row :: r.createdAt.Some? && Precedes(last, r) ==> Past(d)(r))
  {
    var d := Cursor(last.createdAt, last.id);
    LessIsAsymmetric(last.id, last.id);
    forall r | Past(d)(r) ensures Past(c)(r) {
      if c.at.Some? && r.createdAt.value == last.createdAt.value == c.at.value {
        LessIsTransitive(c.id, last.id, r.id);
      }
    }
  }

  /* ---------- the pass ---------- */

  /** The table as seen by the k-th query: it may grow between queries and then stops growing. */
  function Seen(tables: seq<seq<Row>>, k: nat): seq<Row>
    requires tables != []
  {
    if k < |tables| then tables[k] else tables[|tables| - 1]
  }

  predicate Growing(tables: seq<seq<Row>>) {
    && tables != []
    && (forall k :: 0 <= k < |tables| ==> InOrder(tables[k]) && Dated(tables[k]))
    && (forall j, k, r :: 0 <= j <= k < |tables| && r in tables[j] ==> r in tables[k])
  }

  /** What the pass has established when it is about to query from the cursor. */
  ghost predicate Progress(tables: seq<seq<Row>>, visited: seq<Row>, c: Cursor)
    requires tables != []
  {
    && InOrder(visited) && Dated(visited)
    && (forall r :: r in visited ==> r in tables[|tables| - 1])
    && (forall r :: r in tables[0] ==> r in visited || Past(c)(r))
    && (visited == [] <==> c == AtStart)
    && (visited != [] ==> c == Cursor(visited[|visited| - 1].createdAt, visited[|visited| - 1].id))
  }

  lemma {:induction false} BatchFacts(table: seq<Row>, c: Cursor, limit: nat)
    requires InOrder(table) && Dated(table)
    ensures var rows := ScanBatch(table, c, limit);
            && InOrder(rows) && Dated(rows)
            && (forall r :: r in rows ==> r in table && Past(c)(r))
            && (forall r :: r in table && Past(c)(r) ==>
                  r in rows || (|rows| == limit && (rows != [] ==> Precedes(rows[|rows| - 1], r))))
  {
    var all, rows := Filter(table, Past(c)), ScanBatch(table, c, limit);
    FilterKeepsOrder(table, Past(c));
    forall r ensures r in all <==> r in table && Past(c)(r) { FilterMembers(table, Past(c), r); }
    assert forall i :: 0 <= i < |all| ==> all[i] in all;
    assert forall i :: 0 <= i < |rows| ==> rows[i] == all[i];
    forall r | r in table && Past(c)(r)
      ensures r in rows || (|rows| == limit && (rows != [] ==> Precedes(rows[|rows| - 1], r)))
    {
      var i :| 0 <= i < |all| && all[i] == r;
      if i < |rows| { assert rows[i] == r; }
    }
  }

  /** Everything visited so far precedes everything the cursor still lets through. */
  lemma {:induction false} BatchComesAfter(visited: seq<Row>, c: Cursor, rows: seq<Row>)
    requires InOrder(visited) && Dated(visited) && InOrder(rows) && Dated(rows)
    requires visited != [] ==> c == Cursor(visited[|visited| - 1].createdAt, visited[|visited| - 1].id)
    requires forall r :: r in rows ==> Past(c)(r)
    ensures InOrder(visited + rows)
  {
    forall i, j | 0 <= i < |visited| && 0 <= j < |rows| ensures Precedes(visited[i], rows[j]) {
      var last := visited[|visited| - 1];
      assert rows[j] in rows;
      assert Precedes(last, rows[j]);
      if i < |visited| - 1 { PrecedesIsTransitive(visited[i], last, rows[j]); }
    }
  }

  lemma {:induction false} PrecedesIsTransitive(a: Row, b: Row, c: Row)
    requires a.createdAt.Some? && b.createdAt.Some? && c.createdAt.Some? && Precedes(a, b) && Precedes(b, c)
    ensures Precedes(a, c)
  {
    if a.createdAt == b.createdAt == c.createdAt { LessIsTransitive(a.id, b.id, c.id); }
  }

  /** One full batch on: the cursor moves to its last row. */
  lemma {:induction false} BatchKeepsProgress(tables: seq<seq<Row>>, visited: seq<Row>, c: Cursor, k: nat, limit: nat)
    requires Growing(tables) && limit >= 1 && Progress(tables, visited, c)
    requires |ScanBatch(Seen(tables, k), c, limit)| == limit
    ensures var rows := ScanBatch(Seen(tables, k), c, limit); Progress(tables, visited + rows, NextCursor(rows, c))
  {
    var table := Seen(tables, k);
    var rows := ScanBatch(table, c, limit);
    BatchFacts(table, c, limit);
    BatchComesAfter(visited, c, rows);
    var last := rows[|rows| - 1];
    assert last in rows;
    CursorAtRow(c, last);
    forall r | r in tables[0] ensures r in visited + rows || Past(NextCursor(rows, c))(r) {
      assert r in table;
    }
  }

  lemma {:induction false} LastBatchCompletes(tables: seq<seq<Row>>, visited: seq<Row>, c: Cursor, k: nat, limit: nat)
    requires Growing(tables) && Progress(tables, visited, c)
    requires |ScanBatch(Seen(tables, k), c, limit)| < limit
    ensures var all := visited + ScanBatch(Seen(tables, k), c, limit);
            && InOrder(all)
            && (forall r :: r in tables[0] ==> r in all)
            && (forall r :: r in all ==> r in tables[|tables| - 1])
  {
    var table := Seen(tables, k);
    BatchFacts(table, c, limit);
    BatchComesAfter(visited, c, ScanBatch(table, c, limit));
    forall r | r in tables[0] ensures r in visited + ScanBatch(table, c, limit) {
      assert r in table;
    }
  }

  /** A full batch leaves strictly fewer rows past the cursor. */
  lemma {:induction false} FewerRemain(table: seq<Row>, c: Cursor, limit: nat)
    requires InOrder(table) && Dated(table) && limit >= 1 && |ScanBatch(table, c, limit)| == limit
    ensures |Filter(table, Past(NextCursor(ScanBatch(table, c, limit), c)))| < |Filter(table, Past(c))|
  {
    var rows := ScanBatch(table, c, limit);
    var last := rows[|rows| - 1];
    assert last in table && last.createdAt.Some? && Past(c)(last) by {
      BatchFacts(table, c, limit);
      assert last in rows;
    }
    CursorAtRow(c, last);
    StricterFilterIsShorter(table, Past(c), Past(Cursor(last.createdAt, last.id)), last);
  }

  /** One pass. Whatever is inserted between its queries, it visits every row present at its start, each once and in
      key order, and nothing that is not in the table; on a table that stops growing it ends. */
  method RunPass(tables: seq<seq<Row>>, limit: nat) returns (visited: seq<Row>)
    requires Growing(tables) && limit >= 1
    ensures InOrder(visited)
    ensures forall r :: r in tables[0] ==> r in visited
    ensures forall r :: r in visited ==> r in tables[|tables| - 1]
  {
    visited := [];
    var cursor := AtStart;
    var query := 0;
    var done := false;
    while !done
      invariant !done ==> Progress(tables, visited, cursor)
      invariant done ==> InOrder(visited)
      invariant done ==> forall r :: r in tables[0] ==> r in visited
      invariant done ==> forall r :: r in visited ==> r in tables[|tables| - 1]
      decreases !done, if query < |tables| then |tables| - query else 0,
                |Filter(tables[|tables| - 1], Past(cursor))|
    {
      var rows := ScanBatch(Seen(tables, query), cursor, limit);
      if IsComplete(rows, limit) {
        LastBatchCompletes(tables, visited, cursor, query, limit);
        done := true;
      } else {
        BatchKeepsProgress(tables, visited, cursor, query, limit);
        if query >= |tables| { FewerRemain(tables[|tables| - 1], cursor, limit); }
        cursor := NextCursor(rows, cursor);
      }
      visited := visited + rows;
      query := query + 1;
    }
  }

  /** In key order means each row once. */
  lemma {:induction false} VisitedOnce(visited: seq<Row>, i: nat, j: nat)
    requires InOrder(visited) && i < j < |visited|
    ensures visited[i] != visited[j]
  {
    LessIsAsymmetric(visited[i].id, visited[j].id);
  }

  /* ---------- rows without a creation time ---------- */

  /** Past any real cursor such rows are never selected. */
  lemma {:induction false} UndatedRowsAreSkipped(table: seq<Row>, c: Cursor, limit: nat, r: Row)
    requires c.at.Some? && r in ScanBatch(table, c, limit)
    ensures r.createdAt.Some?
  {
    FilterMembers(table, Past(c), r);
  }

  lemma {:induction false} FromTheStart(table: seq<Row>, c: Cursor)
    requires c.at.None?
    ensures Filter(table, Past(c)) == table
  {
    if table != [] {
      FromTheStart(table[..|table| - 1], c);
      assert table == table[..|table| - 1] + [table[|table| - 1]];
    }
  }

  /** The pass over a table that does not change, after some batches. */
  datatype Pass = Pass(cursor: Cursor, visited: seq<Row>, done: bool)

  function NextBatch(table: seq<Row>, limit: nat, p: Pass): Pass {
    if p.done then p
    else
      var rows := ScanBatch(table, p.cursor, limit);
      if IsComplete(rows, limit) then Pass(p.cursor, p.visited + rows, true)
      else Pass(NextCursor(rows, p.cursor), p.visited + rows, false)
  }

  function More(table: seq<Row>, limit: nat, p: Pass, k: nat): Pass
    decreases k
  {
    if k == 0 then p else More(table, limit, NextBatch(table, limit, p), k - 1)
  }

  function Batches(table: seq<Row>, limit: nat, k: nat): Pass { More(table, limit, Pass(AtStart, [], false), k) }

  ghost predicate Ends(table: seq<Row>, limit: nat) { exists k: nat :: Batches(table, limit, k).done }

  predicate Covers(p: Pass, table: seq<Row>) { p.done && forall r :: r in table ==> r in p.visited }

  /** The pass ends, having visited every row. */
  ghost predicate VisitsAll(table: seq<Row>, limit: nat) { exists k: nat :: Covers(Batches(table, limit, k), table) }

  /** The first d rows are the dated ones; in the scan's order they always come first. */
  predicate DatedUpTo(table: seq<Row>, d: nat) {
    d <= |table| && forall i :: 0 <= i < |table| ==> (table[i].createdAt.Some? <==> i < d)
  }

  function HasDate(): Row -> bool { (r: Row) => r.createdAt.Some? }
  function DatedRows(table: seq<Row>): nat { |Filter(table, HasDate())| }

  lemma {:induction false} DatedComeFirst(table: seq<Row>)
    requires InOrder(table)
    ensures DatedUpTo(table, DatedRows(table))
  {
    if table != [] {
      var n := |table| - 1;
      DatedComeFirst(table[..n]);
      assert forall i :: 0 <= i < n ==> table[..n][i] == table[i] && Precedes(table[i], table[n]);
    }
  }

  function At(r: Row): Cursor { Cursor(r.createdAt, r.id) }

  lemma {:induction false} PastRow(table: seq<Row>, d: nat, j: nat, m: nat)
    requires InOrder(table) && DatedUpTo(table, d) && 1 <= j <= d && m < |table|
    ensures Past(At(table[j - 1]))(table[m]) <==> j <= m < d
  {
    LessIsAsymmetric(table[m].id, table[j - 1].id);
    if m < j - 1 { assert Precedes(table[m], table[j - 1]); }
    if m > j - 1 { assert Precedes(table[j - 1], table[m]); }
  }

  /** A test that passes exactly the rows from j to d keeps that slice. */
  lemma {:induction false} FilterIsSlice(table: seq<Row>, q: Row -> bool, j: nat, d: nat)
    requires j <= d <= |table| && forall m :: 0 <= m < |table| ==> (q(table[m]) <==> j <= m < d)
    ensures Filter(table, q) == table[j..d]
  {
    if table != [] {
      var n := |table| - 1;
      var front, row := table[..n], table[n];
      if d <= n {
        FilterIsSlice(front, q, j, d);
        assert front[j..d] == table[j..d];
      } else if j <= n {
        FilterIsSlice(front, q, j, n);
        assert front[j..n] + [row] == table[j..d];
      } else {
        FilterIsSlice(front, q, n, n);
        assert table[j..d] == [];
      }
    }
  }

  /** What lies past the j-th row: the dated rows after it. */
  lemma {:induction false} BatchAfter(table: seq<Row>, d: nat, j: nat, limit: nat)
    requires InOrder(table) && DatedUpTo(table, d) && 1 <= j <= d
    ensures ScanBatch(table, At(table[j - 1]), limit) == First(table[j..d], limit)
  {
    forall m | 0 <= m < |table| ensures Past(At(table[j - 1]))(table[m]) <==> j <= m < d {
      PastRow(table, d, j, m);
    }
    FilterIsSlice(table, Past(At(table[j - 1])), j, d);
  }

  predicate ReachedRow(table: seq<Row>, p: Pass, j: nat) {
    1 <= j <= |table| && p == Pass(At(table[j - 1]), table[..j], false)
  }

  predicate EndedAt(table: seq<Row>, p: Pass, d: nat) { d <= |table| && p.done && p.visited == table[..d] }

  lemma {:induction false} FullBatchFrom(table: seq<Row>, limit: nat, p: Pass, d: nat, j: nat)
    requires InOrder(table) && DatedUpTo(table, d) && limit >= 1 && ReachedRow(table, p, j) && j + limit <= d
    ensures ReachedRow(table, NextBatch(table, limit, p), j + limit)
  {
    BatchAfter(table, d, j, limit);
    var rest, rows := table[j..d], ScanBatch(table, At(table[j - 1]), limit);
    assert rest == rest[..|rest|] && rows == rest[..limit];
    assert rest[..limit] == table[j..j + limit];
    assert table[..j] + rows == table[..j + limit];
    assert rows[|rows| - 1] == table[j + limit - 1];
  }

  lemma {:induction false} LastBatchFrom(table: seq<Row>, limit: nat, p: Pass, d: nat, j: nat)
    requires InOrder(table) && DatedUpTo(table, d) && ReachedRow(table, p, j) && j <= d < j + limit
    ensures EndedAt(table, NextBatch(table, limit, p), d)
  {
    BatchAfter(table, d, j, limit);
    assert table[..j] + table[j..d] == table[..d];
  }

  /** From a dated row on, the pass reads the rest of the dated rows and stops. */
  lemma {:induction false} EndsFrom(table: seq<Row>, limit: nat, p: Pass, d: nat, j: nat) returns (k: nat)
    requires InOrder(table) && DatedUpTo(table, d) && limit >= 1 && ReachedRow(table, p, j) && j <= d
    ensures EndedAt(table, More(table, limit, p, k), d)
    decreases d - j
  {
    var next := NextBatch(table, limit, p);
    if d < j + limit {
      LastBatchFrom(table, limit, p, d, j);
      k := 1;
      assert More(table, limit, next, 0) == next;
    } else {
      FullBatchFrom(table, limit, p, d, j);
      k := EndsFrom(table, limit, next, d, j + limit);
      k := k + 1;
    }
  }

  lemma {:induction false} FirstBatch(table: seq<Row>, limit: nat)
    ensures Batches(table, limit, 1) ==
            (if |table| < limit then Pass(AtStart, table, true)
             else Pass(NextCursor(table[..limit], AtStart), table[..limit], false))
  {
    FromTheStart(table, AtStart);
    var p := Pass(AtStart, [], false);
    assert More(table, limit, NextBatch(table, limit, p), 0) == NextBatch(table, limit, p);
    assert [] + First(table, limit) == First(table, limit);
    assert |table| == limit ==> table == table[..limit];
  }

  /** With a full batch of dated rows the pass ends with exactly the dated rows visited, in order. */
  lemma {:induction false} PassVisitsTheDated(table: seq<Row>, limit: nat) returns (k: nat)
    requires InOrder(table) && 1 <= limit <= DatedRows(table)
    ensures EndedAt(table, Batches(table, limit, k), DatedRows(table))
  {
    DatedComeFirst(table);
    FirstBatch(table, limit);
    var p := NextBatch(table, limit, Pass(AtStart, [], false));
    assert p == More(table, limit, p, 0) == Batches(table, limit, 1);
    k := EndsFrom(table, limit, p, DatedRows(table), limit);
    k := k + 1;
  }

  /** With fewer dated rows than a batch, and a full first batch, the cursor never leaves the start. */
  lemma {:induction false} LoopsFrom(table: seq<Row>, limit: nat, d: nat, p: Pass, k: nat)
    requires DatedUpTo(table, d) && d < limit <= |table| && !p.done && p.cursor.at.None?
    ensures !More(table, limit, p, k).done
    decreases k
  {
    if k > 0 {
      FromTheStart(table, p.cursor);
      var rows := ScanBatch(table, p.cursor, limit);
      assert |rows| == limit && rows[limit - 1] == table[limit - 1];
      LoopsFrom(table, limit, d, NextBatch(table, limit, p), k - 1);
    }
  }

  lemma {:induction false} PassLoops(table: seq<Row>, limit: nat, d: nat, k: nat)
    requires DatedUpTo(table, d) && d < limit <= |table|
    ensures !Batches(table, limit, k).done
  {
    LoopsFrom(table, limit, d, Pass(AtStart, [], false), k);
  }

  lemma {:induction false} DoneStays(table: seq<Row>, limit: nat, p: Pass, k: nat)
    requires p.done
    ensures More(table, limit, p, k) == p
  {
    if k > 0 { DoneStays(table, limit, p, k - 1); }
  }

  lemma {:induction false} DoneIsFinal(table: seq<Row>, limit: nat, p: Pass, k: nat, m: nat)
    requires k <= m && More(table, limit, p, k).done
    ensures More(table, limit, p, m) == More(table, limit, p, k)
    decreases k
  {
    if p.done {
      DoneStays(table, limit, p, k);
      DoneStays(table, limit, p, m);
    } else {
      DoneIsFinal(table, limit, NextBatch(table, limit, p), k - 1, m - 1);
    }
  }

  /** The pass ends exactly unless the dated rows are fewer than a batch and the table is not. */
  lemma {:induction false} PassEndsIff(table: seq<Row>, limit: nat)
    requires InOrder(table) && limit >= 1
    ensures Ends(table, limit) <==> !(DatedRows(table) < limit <= |table|)
  {
    DatedComeFirst(table);
    if |table| < limit {
      FirstBatch(table, limit);
    } else if limit <= DatedRows(table) {
      var k := PassVisitsTheDated(table, limit);
    } else {
      forall k: nat ensures !Batches(table, limit, k).done { PassLoops(table, limit, DatedRows(table), k); }
    }
  }

  /** It ends having visited every row exactly when every row is dated or the table is shorter than a batch. */
  lemma {:induction false} PassIsCompleteIff(table: seq<Row>, limit: nat)
    requires InOrder(table) && limit >= 1
    ensures VisitsAll(table, limit) <==> Dated(table) || |table| < limit
  {
    DatedComeFirst(table);
    var d := DatedRows(table);
    if |table| < limit {
      FirstBatch(table, limit);
      assert Covers(Batches(table, limit, 1), table);
    } else if d < limit {
      assert !Dated(table) by { assert table[d].createdAt.None?; }
      forall k: nat ensures !Covers(Batches(table, limit, k), table) { PassLoops(table, limit, DatedRows(table), k); }
    } else {
      var k := PassVisitsTheDated(table, limit);
      if d == |table| {
        assert table[..d] == table;
        assert Covers(Batches(table, limit, k), table);
      } else {
        assert table[d].createdAt.None? && table[d] !in table[..d];
        forall m: nat ensures !Covers(Batches(table, limit, m), table) {
          if Batches(table, limit, m).done {
            var p := Pass(AtStart, [], false);
            if k <= m { DoneIsFinal(table, limit, p, k, m); } else { DoneIsFinal(table, limit, p, m, k); }
          }
        }
      }
    }
  }

  /** The two failures at their smallest: one undated row is read for ever; behind a dated one it is never read. */
  lemma {:induction false} UndatedRowRestartsThePass()
    ensures !Ends([Row(None, "b")], 1)
  {
    var table := [Row(None, "b")];
    assert table[..0] == [] && Filter(table[..0], HasDate()) == [];
    assert DatedRows(table) == 0;
    PassEndsIff(table, 1);
  }

  lemma {:induction false} UndatedRowIsMissed()
    ensures var table := [Row(Some(1), "a"), Row(None, "b")]; Ends(table, 1) && !VisitsAll(table, 1)
  {
    var table := [Row(Some(1), "a"), Row(None, "b")];
    assert InOrder(table);
    DatedComeFirst(table);
    assert table[0].createdAt.Some? && table[1].createdAt.None?;
    PassEndsIff(table, 1);
    PassIsCompleteIff(table, 1);
  }
}
