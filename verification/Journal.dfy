/** The durable command journal: state/command_journal.py. */
module Journal {
  import opened Wrappers

  datatype Status = Accepted | Running | Succeeded | Failed

  /** One row of the table, keyed by command id; timestamps are the clock readings written into it. */
  datatype Row = Row(
    operation: string, status: Status, generation: int,
    resultJson: Option<string>, errorCode: Option<string>, errorMessage: Option<string>,
    reported: bool, createdAt: int, updatedAt: int)

  type Rows = map<string, Row>

  /** What a terminal row says about its command, apart from whether Cloud has heard it. */
  datatype Verdict = Verdict(status: Status, resultJson: Option<string>, errorCode: Option<string>, errorMessage: Option<string>)

  predicate IsTerminal(status: Status) { status.Succeeded? || status.Failed? }

  function VerdictOf(row: Row): Verdict {
    Verdict(row.status, row.resultJson, row.errorCode, row.errorMessage)
  }

  predicate HasTerminalResult(rows: Rows, id: string) {
    id in rows && IsTerminal(rows[id].status)
  }

  predicate Unreported(row: Row) { IsTerminal(row.status) && !row.reported }

  // The statements of the source, as functions on the table. The last three are UPDATEs: they touch
  // whatever row is there, and nothing when there is none.

  function RecordAccepted(rows: Rows, id: string, operation: string, generation: int, now: int): Rows {
    if id in rows then rows
    else rows[id := Row(operation, Accepted, generation, None, None, None, false, now, now)]
  }

  function RecordRunning(rows: Rows, id: string, now: int): Rows {
    if id in rows then rows[id := rows[id].(status := Running, updatedAt := now)] else rows
  }

  function RecordResult(rows: Rows, id: string, verdict: Verdict, now: int): Rows {
    if id in rows then
      rows[id := rows[id].(status := verdict.status, resultJson := verdict.resultJson, errorCode := verdict.errorCode,
                           errorMessage := verdict.errorMessage, reported := false, updatedAt := now)]
    else rows
  }

  function MarkReported(rows: Rows, id: string, now: int): Rows {
    if id in rows then rows[id := rows[id].(reported := true, updatedAt := now)] else rows
  }

  /** No row comes or goes, and only this one changes; it stays the row of its command, accepted when it was. */
  ghost predicate OnlyTouches(before: Rows, after: Rows, id: string, now: int) {
    && after.Keys == before.Keys
    && (forall other :: other in before && other != id ==> after[other] == before[other])
    && (id in before ==>
          && after[id].operation == before[id].operation && after[id].generation == before[id].generation
          && after[id].createdAt == before[id].createdAt && after[id].updatedAt == now)
  }

  /** A row as it is handed to the caller. */
  datatype Entry = Entry(id: string, row: Row)

  ghost predicate Lists(entries: seq<Entry>, id: string) {
    exists i :: 0 <= i < |entries| && entries[i].id == id
  }

  predicate Unreportedly(rows: Rows, id: string) { id in rows && Unreported(rows[id]) }

  ghost predicate ListsOnlyUnreported(rows: Rows, entries: seq<Entry>) {
    forall i :: 0 <= i < |entries| ==> Unreportedly(rows, entries[i].id) && entries[i].row == rows[entries[i].id]
  }

  ghost predicate ListsOnce(entries: seq<Entry>) {
    forall i, j :: 0 <= i < j < |entries| ==> entries[i].id != entries[j].id
  }

  ghost predicate OldestFirst(entries: seq<Entry>) {
    forall i, j :: 0 <= i < j < |entries| ==> entries[i].row.createdAt <= entries[j].row.createdAt
  }

  /** An answer of the "unreported terminal entries" query: all of them, each once, oldest first. */
  ghost predicate IsListing(rows: Rows, entries: seq<Entry>) {
    && ListsOnlyUnreported(rows, entries)
    && (forall id :: Unreportedly(rows, id) ==> Lists(entries, id))
    && ListsOnce(entries)
    && OldestFirst(entries)
  }

  /** The same, while the rows in `left` are still to come. */
  ghost predicate PartialListing(rows: Rows, entries: seq<Entry>, left: set<string>) {
    && (forall id :: id in left ==> Unreportedly(rows, id))
    && ListsOnlyUnreported(rows, entries)
    && (forall id :: Unreportedly(rows, id) ==> id in left || Lists(entries, id))
    && (forall i :: 0 <= i < |entries| ==> entries[i].id !in left)
    && ListsOnce(entries)
    && OldestFirst(entries)
    && (forall i, id :: 0 <= i < |entries| && id in left ==> entries[i].row.createdAt <= rows[id].createdAt)
  }

  predicate IsOldest(rows: Rows, left: set<string>, oldest: string)
    requires left <= rows.Keys
  {
    oldest in left && forall id :: id in left ==> rows[oldest].createdAt <= rows[id].createdAt
  }

  lemma ListOne(rows: Rows, entries: seq<Entry>, left: set<string>, oldest: string)
    requires PartialListing(rows, entries, left) && left <= rows.Keys && IsOldest(rows, left, oldest)
    ensures PartialListing(rows, entries + [Entry(oldest, rows[oldest])], left - {oldest})
  {
    var more := entries + [Entry(oldest, rows[oldest])];
    forall id | Unreportedly(rows, id) && id !in left - {oldest} ensures Lists(more, id) {
      if id == oldest {
        assert more[|entries|].id == id;
      } else {
        var i :| 0 <= i < |entries| && entries[i].id == id;
        assert more[i].id == id;
      }
    }
  }

  /** The journal object; the table outlives the process. */
  class CommandJournal {
    var rows: Rows

    constructor (stored: Rows)
      ensures rows == stored
    {
      rows := stored;
    }

    method HasSeen(id: string) returns (seen: bool)
      ensures seen <==> id in rows
    {
      seen := id in rows;
    }

    method HasTerminal(id: string) returns (terminal: bool)
      ensures terminal <==> HasTerminalResult(rows, id)
      ensures terminal <==> id in rows && (rows[id].status == Succeeded || rows[id].status == Failed)
    {
      terminal := id in rows && IsTerminal(rows[id].status);
    }

    method Accept(id: string, operation: string, generation: int, now: int)
      modifies this
      ensures rows == RecordAccepted(old(rows), id, operation, generation, now)
      ensures id in old(rows) ==> rows == old(rows)
      ensures id !in old(rows) ==>
                rows == old(rows)[id := Row(operation, Accepted, generation, None, None, None, false, createdAt := now, updatedAt := now)]
    {
      if id !in rows {
        rows := rows[id := Row(operation, Accepted, generation, None, None, None, false, now, now)];
      }
    }

    method Run(id: string, now: int)
      modifies this
      ensures rows == RecordRunning(old(rows), id, now)
      ensures OnlyTouches(old(rows), rows, id, now)
      ensures id in rows ==>
                rows[id].status == Running && VerdictOf(rows[id]).(status := old(rows)[id].status) == VerdictOf(old(rows)[id])
      ensures id in rows ==> rows[id].reported == old(rows)[id].reported
    {
      if id in rows {
        rows := rows[id := rows[id].(status := Running, updatedAt := now)];
      }
    }

    method Finish(id: string, verdict: Verdict, now: int)
      modifies this
      ensures rows == RecordResult(old(rows), id, verdict, now)
      ensures OnlyTouches(old(rows), rows, id, now)
      ensures id in rows ==> VerdictOf(rows[id]) == verdict && !rows[id].reported
    {
      if id in rows {
        var row := rows[id];
        rows := rows[id := Row(row.operation, verdict.status, row.generation, verdict.resultJson, verdict.errorCode,
                               verdict.errorMessage, false, row.createdAt, now)];
      }
    }

    method Mark(id: string, now: int)
      modifies this
      ensures rows == MarkReported(old(rows), id, now)
      ensures OnlyTouches(old(rows), rows, id, now)
      ensures id in rows ==> VerdictOf(rows[id]) == VerdictOf(old(rows)[id]) && rows[id].reported
    {
      if id in rows {
        rows := rows[id := rows[id].(reported := true, updatedAt := now)];
      }
    }

    /** The resend query. Its `ORDER BY created_at` is carried out by taking the oldest row still to be listed. */
    method UnreportedTerminalEntries() returns (entries: seq<Entry>)
      ensures IsListing(rows, entries)
      ensures forall i :: 0 <= i < |entries| ==>
                var row := entries[i].row;
                entries[i].id in rows && row == rows[entries[i].id] && (row.status == Succeeded || row.status == Failed) && !row.reported
      ensures forall id :: id in rows && (rows[id].status == Succeeded || rows[id].status == Failed) && !rows[id].reported ==>
                exists i :: 0 <= i < |entries| && entries[i].id == id
      ensures forall i, j :: 0 <= i < j < |entries| ==> entries[i].id != entries[j].id && entries[i].row.createdAt <= entries[j].row.createdAt
    {
      entries := [];
      var left := set id | id in rows && Unreported(rows[id]);
      while left != {}
        invariant left <= rows.Keys
        invariant PartialListing(rows, entries, left)
        decreases |left|
      {
        OldestExists(rows, left);
        var oldest :| oldest in left && IsOldest(rows, left, oldest);
        ListOne(rows, entries, left, oldest);
        entries := entries + [Entry(oldest, rows[oldest])];
        left := left - {oldest};
      }
      assert forall i :: 0 <= i < |entries| ==> Unreportedly(rows, entries[i].id);
      assert forall id :: Unreportedly(rows, id) ==> Lists(entries, id);
    }
  }

  lemma {:induction false} OldestExists(rows: Rows, ids: set<string>)
    requires ids != {} && ids <= rows.Keys
    ensures exists oldest :: oldest in ids && IsOldest(rows, ids, oldest)
    decreases |ids|
  {
    var some :| some in ids;
    var rest := ids - {some};
    if rest == {} {
      assert ids == {some};
      assert IsOldest(rows, ids, some);
    } else {
      OldestExists(rows, rest);
      var oldest :| oldest in rest && IsOldest(rows, rest, oldest);
      var winner := if rows[some].createdAt < rows[oldest].createdAt then some else oldest;
      assert ids == rest + {some};
      assert IsOldest(rows, ids, winner);
    }
  }
}
