/**
  Exporting the audit chains of a store to an append-only file, page by page behind a saved cursor. Digests are
  injective, so an event's hash is the event itself.
*/
module AuditExport {
  import opened Options

  // ----- the store -------------------------------------------------------------------------------------------

  datatype Hash = Prior(text: string) | Digest(event: Event)

  /** A stored row; `body` is everything the hash covers besides the position and the link. */
  datatype Event = Event(sequence: nat, previous: Hash, body: string)

  /** The stored head of a task: how many events its chain has, the hash of the last, and a signature over both. */
  datatype Head = Head(sequence: int, hash: Hash, signature: string)

  /** What a page reads of one task in one snapshot. */
  datatype PageTask = PageTask(task: string, head: Head, rows: seq<Event>, truncated: bool)

  // ----- records ---------------------------------------------------------------------------------------------

  datatype Record =
    | EventRecord(task: string, sequence: int, previous: Hash, hash: Hash, body: string)
    | HeadRecord(task: string, sequence: int, hash: Hash, signature: string, status: string)
    | ControlRecord(task: string, sequence: int)

  /** What the exporter's verifier says of a head's signature; fixed, like the projection policy and its keys. */
  type Judge = (string, Head) -> string

  function EventLine(task: string, row: Event): Record
  {
    EventRecord(task, row.sequence, row.previous, Digest(row), row.body)
  }

  function HeadLine(task: string, head: Head, judge: Judge): Record
  {
    HeadRecord(task, head.sequence, head.hash, head.signature, judge(task, head))
  }

  // ----- one task of a page ----------------------------------------------------------------------------------

  /** The next sequence to export, and the hash of the last exported event. */
  datatype Mark = Mark(next: nat, hash: Hash)

  type Cursor = map<string, Mark>

  function Position(cursor: Cursor, task: string): nat { if task in cursor then cursor[task].next else 0 }

  function LastHash(cursor: Cursor, task: string): Option<Hash>
  {
    if task in cursor then Some(cursor[task].hash) else None
  }

  /** `_check_event`: a row's own hash covers its content by construction. */
  predicate RowOk(row: Event, expected: nat, previous: Option<Hash>)
  {
    row.sequence == expected && (previous.Some? ==> row.previous == previous.value)
  }

  /** How many rows pass before the first that does not. */
  function Passing(rows: seq<Event>, expected: nat, previous: Option<Hash>): (n: nat)
    ensures n <= |rows|
  {
    if rows == [] || !RowOk(rows[0], expected, previous) then 0
    else 1 + Passing(rows[1..], expected + 1, Some(Digest(rows[0])))
  }

  function EventLines(task: string, rows: seq<Event>): seq<Record>
  {
    if rows == [] then [] else EventLines(task, rows[..|rows| - 1]) + [EventLine(task, rows[|rows| - 1])]
  }

  function Advanced(cursor: Cursor, task: string, rows: seq<Event>): Cursor
  {
    if rows == [] then cursor
    else cursor[task := Mark(Position(cursor, task) + |rows|, Digest(rows[|rows| - 1]))]
  }

  datatype Exported = Exported(lines: seq<Record>, cursor: Cursor, failed: bool)

  /** `_export_task`. */
  function ExportTask(page: PageTask, cursor: Cursor, judge: Judge): Exported
  {
    var position := Position(cursor, page.task);
    var last := LastHash(cursor, page.task);
    if page.head.sequence < position then Exported([], cursor, true)
    else if page.head.sequence == position then Exported([], cursor, last.Some? && page.head.hash != last.value)
    else
      var good := page.rows[..Passing(page.rows, position, last)];
      var lines := EventLines(page.task, good);
      var marked := Advanced(cursor, page.task, good);
      if good != page.rows then Exported(lines, marked, true)
      else if page.truncated then Exported(lines, marked, false)
      else if Position(marked, page.task) != page.head.sequence
          || LastHash(marked, page.task) != Some(page.head.hash) then
        Exported(lines, marked, true)
      else Exported(lines + [HeadLine(page.task, page.head, judge)], marked, false)
  }

  /** A task that fails leaves a control record. */
  function ExportNoting(page: PageTask, cursor: Cursor, judge: Judge): Exported
  {
    var done := ExportTask(page, cursor, judge);
    var note := ControlRecord(page.task, Position(done.cursor, page.task));
    if done.failed then done.(lines := done.lines + [note]) else done
  }

  function Joined(before: Exported, after: Exported): Exported
  {
    Exported(before.lines + after.lines, after.cursor, before.failed || after.failed)
  }

  /** The lines and the cursor of a whole page. */
  function ExportPage(page: seq<PageTask>, cursor: Cursor, judge: Judge): Exported
  {
    if page == [] then Exported([], cursor, false)
    else
      var before := ExportPage(page[..|page| - 1], cursor, judge);
      Joined(before, ExportNoting(page[|page| - 1], before.cursor, judge))
  }

  // ----- the exporter, changing its cursor and lines in place ---------------------------------------------------

  class Exporter {
    var cursor: Cursor
    var lines: seq<Record>

    constructor (saved: Cursor)
      ensures cursor == saved && lines == []
    {
      cursor, lines := saved, [];
    }

    /** Emit and move the cursor row by row; stop at the first that is not intact. */
    method EmitRows(task: string, rows: seq<Event>) returns (emitted: nat)
      modifies this
      ensures emitted == Passing(rows, Position(old(cursor), task), LastHash(old(cursor), task))
      ensures cursor == Advanced(old(cursor), task, rows[..emitted])
      ensures lines == old(lines) + EventLines(task, rows[..emitted])
    {
      ghost var start, last := Position(cursor, task), LastHash(cursor, task);
      var position := Position(cursor, task);
      var previous := LastHash(cursor, task);
      emitted := 0;
      while emitted < |rows| && RowOk(rows[emitted], position, previous)
        invariant emitted <= |rows| && position == start + emitted
        invariant Passing(rows, start, last) == emitted + Passing(rows[emitted..], position, previous)
        invariant Emitted(task, rows, emitted, old(cursor), old(lines), cursor, lines)
      {
        var row := rows[emitted];
        EmitStep(task, rows, emitted, old(cursor), old(lines), cursor, lines);
        PassingNext(rows, emitted, position, previous);
        lines := lines + [EventLine(task, row)];
        position, previous := position + 1, Some(Digest(row));
        cursor := cursor[task := Mark(position, Digest(row))];
        emitted := emitted + 1;
      }
    }

    /** One task of a page. */
    method ExportOne(page: PageTask, judge: Judge) returns (failed: bool)
      modifies this
      ensures Wrote(ExportTask(page, old(cursor), judge), cursor, lines, old(lines), failed)
    {
      var position := Position(cursor, page.task);
      var last := LastHash(cursor, page.task);
      if page.head.sequence < position { return true; }
      if page.head.sequence == position { return last.Some? && page.head.hash != last.value; }
      var emitted := EmitRows(page.task, page.rows);
      if emitted < |page.rows| { return true; }
      assert page.rows[..emitted] == page.rows;
      if page.truncated { return false; }
      if Position(cursor, page.task) != page.head.sequence || LastHash(cursor, page.task) != Some(page.head.hash) {
        return true;
      }
      lines := lines + [HeadLine(page.task, page.head, judge)];
      return false;
    }

    method ExportOrNote(page: PageTask, judge: Judge) returns (failed: bool)
      modifies this
      ensures Wrote(ExportNoting(page, old(cursor), judge), cursor, lines, old(lines), failed)
    {
      failed := ExportOne(page, judge);
      if failed {
        lines := lines + [ControlRecord(page.task, Position(cursor, page.task))];
      }
    }

    /** The lines of one page, ready to be written. */
    method ExportAll(page: seq<PageTask>, judge: Judge) returns (failed: bool)
      modifies this
      ensures Wrote(ExportPage(page, old(cursor), judge), cursor, lines, old(lines), failed)
    {
      failed := false;
      ghost var saved := cursor;
      ghost var written := lines;
      for i := 0 to |page|
        invariant Wrote(ExportPage(page[..i], saved, judge), cursor, lines, written, failed)
      {
        ghost var before := lines;
        ghost var now := ExportNoting(page[i], cursor, judge);
        var bad := ExportOrNote(page[i], judge);
        JoinedWrote(ExportPage(page[..i], saved, judge), now, before, cursor, lines, written, failed, bad);
        PageStep(page, i, saved, judge);
        failed := failed || bad;
      }
      assert page[..|page|] == page;
    }
  }

  lemma JoinedWrote(before: Exported, now: Exported, lines1: seq<Record>, cursor: Cursor, lines: seq<Record>,
                    lines0: seq<Record>, failed: bool, bad: bool)
    requires failed == before.failed && lines1 == lines0 + before.lines && Wrote(now, cursor, lines, lines1, bad)
    ensures Wrote(Joined(before, now), cursor, lines, lines0, failed || bad)
  {
  }

  lemma PageStep(page: seq<PageTask>, i: nat, cursor: Cursor, judge: Judge)
    requires i < |page|
    ensures ExportPage(page[..i + 1], cursor, judge) ==
              Joined(ExportPage(page[..i], cursor, judge),
                     ExportNoting(page[i], ExportPage(page[..i], cursor, judge).cursor, judge))
  {
    assert page[..i + 1][..i] == page[..i];
  }

  ghost predicate Wrote(done: Exported, cursor: Cursor, lines: seq<Record>, before: seq<Record>, failed: bool)
  {
    failed == done.failed && cursor == done.cursor && lines == before + done.lines
  }

  lemma PassingNext(rows: seq<Event>, n: nat, expected: nat, previous: Option<Hash>)
    requires n < |rows| && RowOk(rows[n], expected, previous)
    ensures Passing(rows[n..], expected, previous) == 1 + Passing(rows[n + 1..], expected + 1, Some(Digest(rows[n])))
  {
    assert rows[n..][1..] == rows[n + 1..];
  }

  /** The first `n` rows are written and the mark is past them. */
  ghost predicate Emitted(task: string, rows: seq<Event>, n: nat, cursor0: Cursor, lines0: seq<Record>, cursor: Cursor,
                          lines: seq<Record>)
    requires n <= |rows|
  {
    cursor == Advanced(cursor0, task, rows[..n]) && lines == lines0 + EventLines(task, rows[..n])
  }

  /** One more row: one more line, and the mark moves past it. */
  lemma EmitStep(task: string, rows: seq<Event>, n: nat, cursor0: Cursor, lines0: seq<Record>, cursor: Cursor,
                 lines: seq<Record>)
    requires n < |rows| && Emitted(task, rows, n, cursor0, lines0, cursor, lines)
    ensures Emitted(task, rows, n + 1, cursor0, lines0,
                    cursor[task := Mark(Position(cursor0, task) + n + 1, Digest(rows[n]))],
                    lines + [EventLine(task, rows[n])])
  {
    assert rows[..n + 1][..n] == rows[..n];
  }
}
