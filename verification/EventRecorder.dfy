// The append-only event table: numbering under interleaved recorders.
module EventRecorder {
  import opened Common
  import opened Domain

  datatype Row = Row(gameId: GameId, seqNo: nat, entry: Entry)

  // A game's rows in the order they were inserted.
  function RowsOf(rows: seq<Row>, gameId: GameId): seq<Row> {
    if rows == [] then []
    else RowsOf(ButLast(rows), gameId) + (if Last(rows).gameId == gameId then [Last(rows)] else [])
  }

  function EntriesOf(rows: seq<Row>, gameId: GameId): seq<Entry> {
    if rows == [] then []
    else EntriesOf(ButLast(rows), gameId) + (if Last(rows).gameId == gameId then [Last(rows).entry] else [])
  }

  // The highest number a game's rows carry, zero when it has none.
  function MaxSeq(rows: seq<Row>, gameId: GameId): nat {
    if rows == [] then 0
    else
      var m := MaxSeq(ButLast(rows), gameId);
      if Last(rows).gameId == gameId && Last(rows).seqNo > m then Last(rows).seqNo else m
  }

  predicate Taken(rows: seq<Row>, gameId: GameId, seqNo: nat) {
    exists i | 0 <= i < |rows| :: rows[i].gameId == gameId && rows[i].seqNo == seqNo
  }

  ghost predicate GapFree(rows: seq<Row>) {
    forall gameId :: Numbered(RowsOf(rows, gameId))
  }

  lemma RowsPush(rows: seq<Row>, row: Row, gameId: GameId)
    ensures RowsOf(rows + [row], gameId) == RowsOf(rows, gameId) + (if row.gameId == gameId then [row] else [])
    ensures EntriesOf(rows + [row], gameId) == EntriesOf(rows, gameId) + (if row.gameId == gameId then [row.entry] else [])
    ensures MaxSeq(rows + [row], gameId)
         == if row.gameId == gameId && row.seqNo > MaxSeq(rows, gameId) then row.seqNo else MaxSeq(rows, gameId)
  {
    assert ButLast(rows + [row]) == rows;
  }

  lemma {:induction false} RowIsListed(rows: seq<Row>, i: nat)
    requires i < |rows|
    ensures rows[i] in RowsOf(rows, rows[i].gameId)
  {
    if i < |rows| - 1 {
      RowIsListed(ButLast(rows), i);
    } else {
      assert RowsOf(rows, rows[i].gameId)[|RowsOf(ButLast(rows), rows[i].gameId)|] == rows[i];
    }
  }

  lemma {:induction false} ListedIsRow(rows: seq<Row>, gameId: GameId, row: Row)
    requires row in RowsOf(rows, gameId)
    ensures row.gameId == gameId && exists i | 0 <= i < |rows| :: rows[i] == row
  {
    if row in RowsOf(ButLast(rows), gameId) {
      ListedIsRow(ButLast(rows), gameId, row);
      var i :| 0 <= i < |ButLast(rows)| && ButLast(rows)[i] == row;
      assert rows[i] == row;
    } else {
      assert rows[|rows| - 1] == row;
    }
  }

  // Without gaps, the taken numbers of a game are exactly 1..n.
  lemma TakenIsUpToCount(rows: seq<Row>, gameId: GameId, seqNo: nat)
    requires GapFree(rows)
    ensures Taken(rows, gameId, seqNo) <==> 1 <= seqNo <= |RowsOf(rows, gameId)|
  {
    var mine := RowsOf(rows, gameId);
    if Taken(rows, gameId, seqNo) {
      var i :| 0 <= i < |rows| && rows[i].gameId == gameId && rows[i].seqNo == seqNo;
      RowIsListed(rows, i);
      var k :| 0 <= k < |mine| && mine[k] == rows[i];
    }
    if 1 <= seqNo <= |mine| {
      assert mine[seqNo - 1] in mine;
      ListedIsRow(rows, gameId, mine[seqNo - 1]);
    }
  }

  lemma {:induction false} MaxIsCount(rows: seq<Row>, gameId: GameId)
    requires GapFree(rows)
    ensures MaxSeq(rows, gameId) == |RowsOf(rows, gameId)|
  {
    if rows != [] {
      forall g ensures Numbered(RowsOf(ButLast(rows), g)) {
        assert Numbered(RowsOf(rows, g));
        assert RowsOf(ButLast(rows), g) == RowsOf(rows, g)[..|RowsOf(ButLast(rows), g)|];
      }
      MaxIsCount(ButLast(rows), gameId);
      var mine := RowsOf(rows, gameId);
      if Last(rows).gameId == gameId { assert mine[|mine| - 1] == Last(rows); }
    }
  }

  // ---- Any number of recorders, each reading the maximum and inserting later ----

  type RecorderId = nat
  datatype Pending = Pending(gameId: GameId, seqNo: nat, entry: Entry)
  datatype Table = Table(rows: seq<Row>, pending: map<RecorderId, Pending>)
  datatype RecorderStep =
    | ReadMax(recorder: RecorderId, gameId: GameId, entry: Entry)
    | InsertRow(recorder: RecorderId)

  function RecorderNext(t: Table, step: RecorderStep): Table {
    match step
    case ReadMax(r, gameId, entry) =>
      t.(pending := t.pending[r := Pending(gameId, MaxSeq(t.rows, gameId) + 1, entry)])
    case InsertRow(r) =>
      if r !in t.pending then t
      else
        var p := t.pending[r];
        // The unique key (gameId, seq) makes a second insert of a number fail.
        Table(if Taken(t.rows, p.gameId, p.seqNo) then t.rows else t.rows + [Row(p.gameId, p.seqNo, p.entry)],
              t.pending - {r})
  }

  function RecorderRun(t: Table, steps: seq<RecorderStep>): Table {
    if steps == [] then t else RecorderNext(RecorderRun(t, ButLast(steps)), Last(steps))
  }

  ghost predicate TableInv(t: Table) {
    && GapFree(t.rows)
    && forall r <- t.pending :: 1 <= t.pending[r].seqNo <= |RowsOf(t.rows, t.pending[r].gameId)| + 1
  }

  lemma RecorderStepKeepsInv(t: Table, step: RecorderStep)
    requires TableInv(t)
    ensures TableInv(RecorderNext(t, step))
  {
    match step
    case ReadMax(_, gameId, _) => MaxIsCount(t.rows, gameId);
    case InsertRow(r) =>
      if r in t.pending {
        var p := t.pending[r];
        TakenIsUpToCount(t.rows, p.gameId, p.seqNo);
        forall gameId { RowsPush(t.rows, Row(p.gameId, p.seqNo, p.entry), gameId); }
      }
  }

  // Whatever the interleaving, every game's rows are numbered 1..n in insert order.
  lemma {:induction false} NumbersAreGapFree(steps: seq<RecorderStep>)
    ensures TableInv(RecorderRun(Table([], map[]), steps))
  {
    if steps != [] {
      NumbersAreGapFree(ButLast(steps));
      RecorderStepKeepsInv(RecorderRun(Table([], map[]), ButLast(steps)), Last(steps));
    }
  }

  // ---- The timeline ----

  ghost predicate IsTimeline(rows: seq<Row>, gameId: GameId, timeline: seq<Row>) {
    && multiset(timeline) == multiset(RowsOf(rows, gameId))
    && Ascending(timeline)
  }

  predicate Ascending(rows: seq<Row>) {
    forall i, j | 0 <= i < j < |rows| :: rows[i].seqNo <= rows[j].seqNo
  }

  predicate Numbered(rows: seq<Row>) {
    forall i | 0 <= i < |rows| :: rows[i].seqNo == i + 1
  }

  lemma SameLast(ordered: seq<Row>, timeline: seq<Row>)
    requires ordered != [] && timeline != [] && Numbered(ordered) && Ascending(timeline)
    requires multiset(timeline) == multiset(ordered)
    ensures Last(timeline) == Last(ordered)
  {
    assert Last(ordered) in multiset(timeline) && Last(timeline) in multiset(ordered);
    var k :| 0 <= k < |timeline| && timeline[k] == Last(ordered);
    var m :| 0 <= m < |ordered| && ordered[m] == Last(timeline);
  }

  lemma SameFront<T>(s: seq<T>, t: seq<T>)
    requires s != [] && t != [] && Last(s) == Last(t) && multiset(s) == multiset(t)
    ensures multiset(ButLast(s)) == multiset(ButLast(t))
  {
    assert s == ButLast(s) + [Last(s)] && t == ButLast(t) + [Last(t)];
    assert multiset(ButLast(s)) == multiset(s) - multiset{Last(s)};
    assert multiset(ButLast(t)) == multiset(t) - multiset{Last(t)};
  }

  lemma {:induction false} SortedIsUnique(ordered: seq<Row>, timeline: seq<Row>)
    requires Numbered(ordered) && Ascending(timeline) && multiset(timeline) == multiset(ordered)
    ensures timeline == ordered
  {
    assert |multiset(timeline)| == |multiset(ordered)|;
    if ordered != [] {
      SameLast(ordered, timeline);
      SameFront(ordered, timeline);
      SortedIsUnique(ButLast(ordered), ButLast(timeline));
      assert timeline == ButLast(timeline) + [Last(timeline)] && ordered == ButLast(ordered) + [Last(ordered)];
    }
  }

  // Ordering by number is ordering by insertion.
  lemma TimelineIsInsertOrder(steps: seq<RecorderStep>, gameId: GameId, timeline: seq<Row>)
    requires IsTimeline(RecorderRun(Table([], map[]), steps).rows, gameId, timeline)
    ensures timeline == RowsOf(RecorderRun(Table([], map[]), steps).rows, gameId)
  {
    NumbersAreGapFree(steps);
    SortedIsUnique(RowsOf(RecorderRun(Table([], map[]), steps).rows, gameId), timeline);
  }

  // ---- The service, one call at a time ----

  // Alone, a recorder that reads and then inserts appends one row: its number is free.
  lemma AloneAppends(rows: seq<Row>, gameId: GameId, entry: Entry)
    requires GapFree(rows)
    ensures RecorderNext(RecorderNext(Table(rows, map[]), ReadMax(0, gameId, entry)), InsertRow(0))
         == Table(rows + [Row(gameId, MaxSeq(rows, gameId) + 1, entry)], map[])
    ensures GapFree(rows + [Row(gameId, MaxSeq(rows, gameId) + 1, entry)])
  {
    MaxIsCount(rows, gameId);
    TakenIsUpToCount(rows, gameId, MaxSeq(rows, gameId) + 1);
    var row := Row(gameId, MaxSeq(rows, gameId) + 1, entry);
    forall g ensures Numbered(RowsOf(rows + [row], g)) {
      assert Numbered(RowsOf(rows, g));
      RowsPush(rows, row, g);
    }
  }

  lemma Appended(rows: seq<Row>, row: Row)
    ensures forall g :: EntriesOf(rows + [row], g) == EntriesOf(rows, g) + (if row.gameId == g then [row.entry] else [])
  {
    forall g ensures EntriesOf(rows + [row], g) == EntriesOf(rows, g) + (if row.gameId == g then [row.entry] else []) {
      RowsPush(rows, row, g);
    }
  }

  class GameEventRecorder {
    var rows: seq<Row>

    constructor ()
      ensures rows == []
    {
      rows := [];
    }

    method RecordEvent(gameId: GameId, entry: Entry) returns (row: Row)
      modifies this
      ensures rows == old(rows) + [row] && row == Row(gameId, MaxSeq(old(rows), gameId) + 1, entry)
      ensures EntriesOf(rows, gameId) == EntriesOf(old(rows), gameId) + [entry]
      ensures forall other | other != gameId :: EntriesOf(rows, other) == EntriesOf(old(rows), other)
      ensures GapFree(old(rows)) ==>
        && GapFree(rows)
        && rows == RecorderNext(RecorderNext(Table(old(rows), map[]), ReadMax(0, gameId, entry)), InsertRow(0)).rows
    {
      hide MaxSeq, EntriesOf, GapFree, RecorderNext;
      var seqNo := MaxSeq(rows, gameId) + 1;
      row := Row(gameId, seqNo, entry);
      Appended(rows, row);
      if GapFree(rows) { AloneAppends(rows, gameId, entry); }
      rows := rows + [row];
    }
  }
}
