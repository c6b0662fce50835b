/**
  Exports of a growing store under any schedule of crashes. A page's write is one step; a crash between the write and
  the save of the cursor loses the cursor's progress and nothing else.
*/
module ExportRuns {
  import opened Options
  import opened AuditExport
  import opened ExportVerify

  // ----- an intact, append-only store ------------------------------------------------------------------------

  /** A task's chain, and the signature of its head at each length at which a head was stored. */
  datatype TaskLog = TaskLog(chain: seq<Event>, heads: map<int, string>)

  type Store = map<string, TaskLog>

  function HashAt(chain: seq<Event>, n: int): Hash
    requires 1 <= n <= |chain|
  {
    Digest(chain[n - 1])
  }

  function HeadAt(log: TaskLog, n: int): Head
    requires n in log.heads && 1 <= n <= |log.chain|
  {
    Head(n, HashAt(log.chain, n), log.heads[n])
  }

  ghost predicate IntactAt(chain: seq<Event>, i: int)
    requires 0 <= i < |chain|
  {
    chain[i].sequence == i && (i > 0 ==> chain[i].previous == HashAt(chain, i))
  }

  ghost predicate LogOk(task: string, log: TaskLog, trust: Verifier)
  {
    && (forall i :: 0 <= i < |log.chain| ==> IntactAt(log.chain, i))
    && |log.chain| in log.heads
    && (forall n :: n in log.heads ==> 1 <= n <= |log.chain| && trust(task, HeadAt(log, n)))
  }

  ghost predicate StoreOk(store: Store, trust: Verifier)
  {
    forall task {:trigger LogOk(task, store[task], trust)} :: task in store ==> LogOk(task, store[task], trust)
  }

  /** The next rows of a chain. */
  function Appended(chain: seq<Event>, bodies: seq<string>, prior: string): seq<Event>
  {
    if bodies == [] then chain
    else
      var before := Appended(chain, bodies[..|bodies| - 1], prior);
      var link := if before == [] then Prior(prior) else Digest(before[|before| - 1]);
      before + [Event(|before|, link, bodies[|bodies| - 1])]
  }

  function ChainIn(store: Store, task: string): seq<Event>
  {
    if task in store then store[task].chain else []
  }

  /** A save appends events and signs the head over the last of them. */
  function Save(store: Store, task: string, bodies: seq<string>, prior: string, signature: string): Store
  {
    var chain := Appended(ChainIn(store, task), bodies, prior);
    store[task := TaskLog(chain, (if task in store then store[task].heads else map[])[|chain| := signature])]
  }

  // ----- pages -----------------------------------------------------------------------------------------------

  function Needed(store: Store, cursor: Cursor, task: string): int
  {
    |ChainIn(store, task)| - Position(cursor, task)
  }

  /** A task's head, and at most `budget` rows past the watermark. */
  function Snapshot(store: Store, cursor: Cursor, task: string, budget: nat, trust: Verifier): PageTask
    requires StoreOk(store, trust) && task in store
  {
    assert LogOk(task, store[task], trust);
    var log, start, needed := store[task], Position(cursor, task), Needed(store, cursor, task);
    var head := HeadAt(log, |log.chain|);
    if needed <= 0 then PageTask(task, head, [], false)
    else if budget < needed then PageTask(task, head, log.chain[start..start + budget], true)
    else PageTask(task, head, log.chain[start..], false)
  }

  /** `_assemble_export_page`: every head, and rows past the watermark until the page's event budget runs out. */
  function Assemble(store: Store, cursor: Cursor, tasks: seq<string>, budget: nat, trust: Verifier): seq<PageTask>
    requires StoreOk(store, trust)
  {
    if tasks == [] || tasks[0] !in store || (budget == 0 && Needed(store, cursor, tasks[0]) > 0) then []
    else
      var p := Snapshot(store, cursor, tasks[0], budget, trust);
      if p.truncated then [p] else [p] + Assemble(store, cursor, tasks[1..], budget - |p.rows|, trust)
  }

  ghost predicate Distinct(tasks: seq<string>)
  {
    forall i, j :: 0 <= i < j < |tasks| ==> tasks[i] != tasks[j]
  }

  // ----- the machine -----------------------------------------------------------------------------------------

  datatype World = World(store: Store, file: seq<Record>, cursor: Cursor)

  const EMPTY_WORLD := World(map[], [], map[])

  datatype Step =
    | SaveEvents(task: string, bodies: seq<string>, prior: string, signature: string)
    | ExportSome(tasks: seq<string>, budget: nat, saved: bool)  // a page over these heads; `saved` unless it crashed

  /** What is exported, under what judgement of signatures, and which signatures the verifier accepts. */
  datatype Terms = Terms(judge: Judge, trust: Verifier)

  ghost predicate SignedBy(w: World, step: Step, terms: Terms)
  {
    step.SaveEvents? ==>
      && step.bodies != []
      && var chain := Appended(ChainIn(w.store, step.task), step.bodies, step.prior);
         |chain| >= 1 && terms.trust(step.task, Head(|chain|, HashAt(chain, |chain|), step.signature))
  }

  /** Steps that cannot happen (an unsigned head, a page listing a task twice) change nothing. */
  ghost function Next(w: World, step: Step, terms: Terms): World
  {
    match step
    case SaveEvents(task, bodies, prior, signature) =>
      if SignedBy(w, step, terms) then w.(store := Save(w.store, task, bodies, prior, signature)) else w
    case ExportSome(tasks, budget, saved) =>
      if !StoreOk(w.store, terms.trust) || !Distinct(tasks) then w
      else
        var done := ExportPage(Assemble(w.store, w.cursor, tasks, budget, terms.trust), w.cursor, terms.judge);
        w.(file := w.file + done.lines, cursor := if saved then done.cursor else w.cursor)
  }

  ghost function Run(w: World, steps: seq<Step>, terms: Terms): World
  {
    if steps == [] then w else Next(Run(w, steps[..|steps| - 1], terms), steps[|steps| - 1], terms)
  }

  // ----- the invariant ---------------------------------------------------------------------------------------

  /** The file holds the first `n` events of a task. */
  ghost predicate Holds(file: seq<Record>, task: string, chain: seq<Event>, n: int)
  {
    n <= |chain| && forall i :: 0 <= i < n ==> EventLine(task, chain[i]) in file
  }

  ghost predicate MarkOk(store: Store, file: seq<Record>, task: string, mark: Mark)
  {
    && task in store && 1 <= mark.next <= |store[task].chain|
    && mark.hash == HashAt(store[task].chain, mark.next)
    && Holds(file, task, store[task].chain, mark.next)
  }

  ghost predicate CursorOk(store: Store, file: seq<Record>, cursor: Cursor)
  {
    forall task {:trigger MarkOk(store, file, task, cursor[task])} :: task in cursor ==>
        MarkOk(store, file, task, cursor[task])
  }

  /** A record says what the store says, and everything below it is in the file. */
  ghost predicate RecordOk(store: Store, file: seq<Record>, r: Record, judge: Judge)
  {
    && r.task in store
    && var log := store[r.task];
       match r
       case EventRecord(task, q, _, _, _) =>
         0 <= q < |log.chain| && r == EventLine(task, log.chain[q]) && Holds(file, task, log.chain, q)
       case HeadRecord(task, n, _, _, _) =>
         && n in log.heads && 1 <= n <= |log.chain|
         && r == HeadLine(task, HeadAt(log, n), judge) && Holds(file, task, log.chain, n)
       case ControlRecord(_, _) => false
  }

  ghost predicate FileOk(store: Store, file: seq<Record>, judge: Judge)
  {
    forall r {:trigger RecordOk(store, file, r, judge)} :: r in file ==> RecordOk(store, file, r, judge)
  }

  ghost predicate Inv(w: World, terms: Terms)
  {
    StoreOk(w.store, terms.trust) && CursorOk(w.store, w.file, w.cursor) && FileOk(w.store, w.file, terms.judge)
  }

  // ----- saves keep it ---------------------------------------------------------------------------------------

  ghost predicate Intact(chain: seq<Event>) { forall i :: 0 <= i < |chain| ==> IntactAt(chain, i) }

  lemma {:induction false} AppendedIntact(chain: seq<Event>, bodies: seq<string>, prior: string)
    requires Intact(chain)
    ensures var more := Appended(chain, bodies, prior);
            |more| == |chain| + |bodies| && more[..|chain|] == chain && Intact(more)
  {
    if bodies != [] {
      var before := Appended(chain, bodies[..|bodies| - 1], prior);
      AppendedIntact(chain, bodies[..|bodies| - 1], prior);
      var more := Appended(chain, bodies, prior);
      forall i | 0 <= i < |more| ensures IntactAt(more, i) {
        if i < |before| { assert IntactAt(before, i); }
      }
    }
  }

  /** Nothing that was stored changes. */
  ghost predicate Grown(before: TaskLog, after: TaskLog)
  {
    && |before.chain| <= |after.chain| && after.chain[..|before.chain|] == before.chain
    && forall n :: n in before.heads ==> n in after.heads && after.heads[n] == before.heads[n]
  }

  ghost predicate StoreGrown(before: Store, after: Store)
  {
    forall task :: task in before ==> task in after && Grown(before[task], after[task])
  }

  lemma HoldsGrown(file: seq<Record>, task: string, before: TaskLog, after: TaskLog, n: int)
    requires Grown(before, after) && Holds(file, task, before.chain, n)
    ensures Holds(file, task, after.chain, n)
  {
    forall i | 0 <= i < n ensures EventLine(task, after.chain[i]) in file {
      assert after.chain[..|before.chain|][i] == before.chain[i];
    }
  }

  lemma SameBelow(before: TaskLog, after: TaskLog, i: int)
    requires Grown(before, after) && 0 <= i < |before.chain|
    ensures after.chain[i] == before.chain[i]
  {
    assert after.chain[..|before.chain|][i] == before.chain[i];
  }

  lemma MarkGrown(before: Store, after: Store, file: seq<Record>, task: string, mark: Mark)
    requires StoreGrown(before, after) && MarkOk(before, file, task, mark)
    ensures MarkOk(after, file, task, mark)
  {
    HoldsGrown(file, task, before[task], after[task], mark.next);
    SameBelow(before[task], after[task], mark.next - 1);
  }

  lemma RecordGrown(before: Store, after: Store, file: seq<Record>, r: Record, judge: Judge)
    requires StoreGrown(before, after) && RecordOk(before, file, r, judge)
    ensures RecordOk(after, file, r, judge)
  {
    HoldsGrown(file, r.task, before[r.task], after[r.task], r.sequence);
    SameBelow(before[r.task], after[r.task], if r.EventRecord? then r.sequence else r.sequence - 1);
  }

  /** A log with a longer chain and one more head, signed. */
  lemma LongerLogOk(task: string, before: TaskLog, chain: seq<Event>, signature: string, trust: Verifier)
    requires LogOk(task, before, trust) && Intact(chain)
    requires |before.chain| < |chain| && chain[..|before.chain|] == before.chain
    requires trust(task, Head(|chain|, HashAt(chain, |chain|), signature))
    ensures var after := TaskLog(chain, before.heads[|chain| := signature]);
            LogOk(task, after, trust) && Grown(before, after)
  {
    var after := TaskLog(chain, before.heads[|chain| := signature]);
    forall n | n in after.heads ensures 1 <= n <= |chain| && trust(task, HeadAt(after, n)) {
      if n != |chain| {
        assert chain[..|before.chain|][n - 1] == before.chain[n - 1];
        assert HeadAt(after, n) == HeadAt(before, n);
      }
    }
  }

  /** What a save makes of the one log it touches. */
  lemma SavedLogOk(w: World, step: Step, terms: Terms)
    requires StoreOk(w.store, terms.trust) && step.SaveEvents? && SignedBy(w, step, terms)
    ensures var after := Save(w.store, step.task, step.bodies, step.prior, step.signature);
            && LogOk(step.task, after[step.task], terms.trust)
            && (step.task in w.store ==> Grown(w.store[step.task], after[step.task]))
  {
    var before := ChainIn(w.store, step.task);
    assert Intact(before) by { if step.task in w.store { assert LogOk(step.task, w.store[step.task], terms.trust); } }
    AppendedIntact(before, step.bodies, step.prior);
    var chain := Appended(before, step.bodies, step.prior);
    if step.task in w.store {
      assert LogOk(step.task, w.store[step.task], terms.trust);
      LongerLogOk(step.task, w.store[step.task], chain, step.signature, terms.trust);
    }
  }

  lemma SaveOk(w: World, step: Step, terms: Terms)
    requires StoreOk(w.store, terms.trust) && step.SaveEvents? && SignedBy(w, step, terms)
    ensures var after := Save(w.store, step.task, step.bodies, step.prior, step.signature);
            StoreOk(after, terms.trust) && StoreGrown(w.store, after)
  {
    SavedLogOk(w, step, terms);
    var after := Save(w.store, step.task, step.bodies, step.prior, step.signature);
    forall task | task in after ensures LogOk(task, after[task], terms.trust) {
      if task != step.task { assert LogOk(task, w.store[task], terms.trust); }
    }
    forall task | task in w.store ensures task in after && Grown(w.store[task], after[task]) {
      if task != step.task { SameGrown(w.store[task]); }
    }
  }

  lemma SameGrown(log: TaskLog)
    ensures Grown(log, log)
  {
  }

  lemma SaveKeeps(w: World, step: Step, terms: Terms)
    requires Inv(w, terms) && step.SaveEvents?
    ensures Inv(Next(w, step, terms), terms)
  {
    if SignedBy(w, step, terms) {
      SaveOk(w, step, terms);
      var after := Next(w, step, terms);
      forall task | task in w.cursor ensures MarkOk(after.store, w.file, task, w.cursor[task]) {
        assert MarkOk(w.store, w.file, task, w.cursor[task]);
        MarkGrown(w.store, after.store, w.file, task, w.cursor[task]);
      }
      forall r | r in w.file ensures RecordOk(after.store, w.file, r, terms.judge) {
        assert RecordOk(w.store, w.file, r, terms.judge);
        RecordGrown(w.store, after.store, w.file, r, terms.judge);
      }
    }
  }

  // ----- pages keep it ---------------------------------------------------------------------------------------

  ghost predicate Within(file: seq<Record>, more: seq<Record>) { forall r :: r in file ==> r in more }

  lemma HoldsMore(file: seq<Record>, more: seq<Record>, task: string, chain: seq<Event>, n: int)
    requires Within(file, more) && Holds(file, task, chain, n)
    ensures Holds(more, task, chain, n)
  {
  }

  lemma RecordMore(store: Store, file: seq<Record>, more: seq<Record>, r: Record, judge: Judge)
    requires Within(file, more) && RecordOk(store, file, r, judge)
    ensures RecordOk(store, more, r, judge)
  {
    HoldsMore(file, more, r.task, store[r.task].chain, r.sequence);
  }

  lemma CursorMore(store: Store, file: seq<Record>, more: seq<Record>, cursor: Cursor)
    requires Within(file, more) && CursorOk(store, file, cursor)
    ensures CursorOk(store, more, cursor)
  {
    forall task | task in cursor ensures MarkOk(store, more, task, cursor[task]) {
      assert MarkOk(store, file, task, cursor[task]);
      HoldsMore(file, more, task, store[task].chain, cursor[task].next);
    }
  }

  /** A snapshot of one task: its head, and the rows from the watermark on, all of them unless cut short. */
  ghost predicate SnapshotOk(store: Store, cursor: Cursor, p: PageTask)
  {
    && p.task in store
    && var log, start := store[p.task], Position(cursor, p.task);
       && |log.chain| in log.heads && 1 <= |log.chain| && p.head == HeadAt(log, |log.chain|)
       && start + |p.rows| <= |log.chain| && p.rows == log.chain[start..start + |p.rows|]
       && (!p.truncated ==> start + |p.rows| == |log.chain|)
  }

  lemma {:induction false} AllPass(chain: seq<Event>, start: nat, rows: seq<Event>, previous: Option<Hash>)
    requires Intact(chain) && start + |rows| <= |chain| && rows == chain[start..start + |rows|]
    requires previous.Some? ==> start > 0 && previous.value == HashAt(chain, start)
    ensures Passing(rows, start, previous) == |rows|
    decreases |rows|
  {
    if rows != [] {
      assert rows[0] == chain[start] && IntactAt(chain, start);
      assert rows[1..] == chain[start + 1..start + |rows|];
      AllPass(chain, start + 1, rows[1..], Some(Digest(rows[0])));
    }
  }

  lemma {:induction false} EventLinesMember(task: string, rows: seq<Event>, r: Record)
    ensures r in EventLines(task, rows) <==> exists i :: 0 <= i < |rows| && r == EventLine(task, rows[i])
  {
    if rows != [] {
      var n := |rows| - 1;
      EventLinesMember(task, rows[..n], r);
      if r in EventLines(task, rows[..n]) {
        var i :| 0 <= i < n && r == EventLine(task, rows[..n][i]);
        assert r == EventLine(task, rows[i]);
      }
      if i :| 0 <= i < n && r == EventLine(task, rows[i]) { assert rows[..n][i] == rows[i]; }
    }
  }

  /** Writing the rows past the watermark makes the file hold everything below the new one. */
  lemma RowsHeld(file: seq<Record>, task: string, chain: seq<Event>, start: nat, rows: seq<Event>)
    requires Holds(file, task, chain, start)
    requires start + |rows| <= |chain| && rows == chain[start..start + |rows|]
    ensures Holds(file + EventLines(task, rows), task, chain, start + |rows|)
  {
    forall i | 0 <= i < start + |rows| ensures EventLine(task, chain[i]) in file + EventLines(task, rows) {
      if i >= start {
        assert rows[i - start] == chain[i];
        EventLinesMember(task, rows, EventLine(task, chain[i]));
      }
    }
  }

  lemma RowsOk(store: Store, file: seq<Record>, task: string, start: nat, rows: seq<Event>, r: Record, judge: Judge)
    requires task in store && Intact(store[task].chain) && Holds(file, task, store[task].chain, start)
    requires start + |rows| <= |store[task].chain| && rows == store[task].chain[start..start + |rows|]
    requires r in EventLines(task, rows)
    ensures RecordOk(store, file + EventLines(task, rows), r, judge)
  {
    var chain := store[task].chain;
    EventLinesMember(task, rows, r);
    var i :| 0 <= i < |rows| && r == EventLine(task, rows[i]);
    assert rows[i] == chain[start + i] && IntactAt(chain, start + i);
    RowsHeld(file, task, chain, start, rows);
  }

  lemma MarkedOk(store: Store, file: seq<Record>, cursor: Cursor, task: string, rows: seq<Event>)
    requires task in store && CursorOk(store, file, cursor)
        && Holds(file, task, store[task].chain, Position(cursor, task))
    requires var start := Position(cursor, task);
             start + |rows| <= |store[task].chain| && rows == store[task].chain[start..start + |rows|]
    ensures CursorOk(store, file + EventLines(task, rows), Advanced(cursor, task, rows))
  {
    var more := file + EventLines(task, rows);
    CursorMore(store, file, more, cursor);
    RowsHeld(file, task, store[task].chain, Position(cursor, task), rows);
    var marked := Advanced(cursor, task, rows);
    forall t | t in marked ensures MarkOk(store, more, t, marked[t]) {
      if t != task || rows == [] {
        assert MarkOk(store, more, t, cursor[t]);
      } else {
        assert rows[|rows| - 1] == store[task].chain[Position(cursor, task) + |rows| - 1];
      }
    }
  }

  /** Only the exported task's mark moves. */
  ghost predicate OthersKept(task: string, before: Cursor, after: Cursor)
  {
    forall other :: other != task ==>
        (other in after <==> other in before) && (other in before ==> after[other] == before[other])
  }

  /** What an intact snapshot of one task writes. */
  lemma SnapshotExports(store: Store, file: seq<Record>, cursor: Cursor, p: PageTask, terms: Terms)
    requires StoreOk(store, terms.trust) && CursorOk(store, file, cursor) && SnapshotOk(store, cursor, p)
    ensures var done := ExportTask(p, cursor, terms.judge);
            && !done.failed && done.cursor == Advanced(cursor, p.task, p.rows)
            && (done.lines == EventLines(p.task, p.rows)
                || (!p.truncated && done.lines == EventLines(p.task, p.rows) + [HeadLine(p.task, p.head, terms.judge)]))
  {
    var log, start := store[p.task], Position(cursor, p.task);
    assert LogOk(p.task, log, terms.trust) && Intact(log.chain);
    if p.task in cursor { assert MarkOk(store, file, p.task, cursor[p.task]); }
    AllPass(log.chain, start, p.rows, LastHash(cursor, p.task));
    assert p.rows[..|p.rows|] == p.rows;
    if p.rows != [] { assert p.rows[|p.rows| - 1] == log.chain[start + |p.rows| - 1]; }
  }

  lemma RowsKeepFile(store: Store, file: seq<Record>, task: string, start: nat, rows: seq<Event>, judge: Judge)
    requires task in store && Intact(store[task].chain) && Holds(file, task, store[task].chain, start)
    requires start + |rows| <= |store[task].chain| && rows == store[task].chain[start..start + |rows|]
    requires FileOk(store, file, judge)
    ensures FileOk(store, file + EventLines(task, rows), judge)
  {
    var more := file + EventLines(task, rows);
    forall r | r in more ensures RecordOk(store, more, r, judge) {
      if r in file {
        assert RecordOk(store, file, r, judge);
        RecordMore(store, file, more, r, judge);
      } else {
        RowsOk(store, file, task, start, rows, r, judge);
      }
    }
  }

  lemma HeadKeepsFile(store: Store, file: seq<Record>, task: string, judge: Judge)
    requires task in store && FileOk(store, file, judge)
    requires var log := store[task];
             |log.chain| in log.heads && 1 <= |log.chain| && Holds(file, task, log.chain, |log.chain|)
    ensures FileOk(store, file + [HeadLine(task, HeadAt(store[task], |store[task].chain|), judge)], judge)
  {
    var log := store[task];
    var more := file + [HeadLine(task, HeadAt(log, |log.chain|), judge)];
    forall r | r in more ensures RecordOk(store, more, r, judge) {
      if r in file {
        assert RecordOk(store, file, r, judge);
        RecordMore(store, file, more, r, judge);
      }
    }
  }

  /** Nothing failed, and with these lines written and this cursor the world is in order. */
  ghost predicate Progressed(store: Store, file: seq<Record>, done: Exported, terms: Terms)
  {
    !done.failed && Inv(World(store, file + done.lines, done.cursor), terms)
  }

  lemma TaskKeeps(store: Store, file: seq<Record>, cursor: Cursor, p: PageTask, terms: Terms)
    requires Inv(World(store, file, cursor), terms) && SnapshotOk(store, cursor, p)
    ensures Progressed(store, file, ExportTask(p, cursor, terms.judge), terms)
    ensures OthersKept(p.task, cursor, ExportTask(p, cursor, terms.judge).cursor)
  {
    var done := ExportTask(p, cursor, terms.judge);
    SnapshotExports(store, file, cursor, p, terms);
    WrittenOk(store, file, cursor, p, done, terms);
  }

  lemma HeldBelow(store: Store, file: seq<Record>, cursor: Cursor, task: string, terms: Terms)
    requires StoreOk(store, terms.trust) && CursorOk(store, file, cursor) && task in store
    ensures Intact(store[task].chain) && Holds(file, task, store[task].chain, Position(cursor, task))
  {
    assert LogOk(task, store[task], terms.trust);
    if task in cursor { assert MarkOk(store, file, task, cursor[task]); }
  }

  lemma WrittenOk(store: Store, file: seq<Record>, cursor: Cursor, p: PageTask, done: Exported, terms: Terms)
    requires Inv(World(store, file, cursor), terms) && SnapshotOk(store, cursor, p)
    requires !done.failed && done.cursor == Advanced(cursor, p.task, p.rows)
    requires done.lines == EventLines(p.task, p.rows)
             || (!p.truncated && done.lines == EventLines(p.task, p.rows) + [HeadLine(p.task, p.head, terms.judge)])
    ensures Progressed(store, file, done, terms)
  {
    var log, start := store[p.task], Position(cursor, p.task);
    HeldBelow(store, file, cursor, p.task, terms);
    var more := file + EventLines(p.task, p.rows);
    MarkedOk(store, file, cursor, p.task, p.rows);
    RowsKeepFile(store, file, p.task, start, p.rows, terms.judge);
    if done.lines != EventLines(p.task, p.rows) {
      RowsHeld(file, p.task, log.chain, start, p.rows);
      HeadKeepsFile(store, more, p.task, terms.judge);
      assert file + done.lines == more + [HeadLine(p.task, p.head, terms.judge)];
      CursorMore(store, more, file + done.lines, done.cursor);
    }
  }

  /** A page lists distinct tasks with their snapshots. */
  ghost predicate PageOk(store: Store, cursor: Cursor, page: seq<PageTask>)
  {
    && (forall i :: 0 <= i < |page| ==> SnapshotOk(store, cursor, page[i]))
    && (forall i, j :: 0 <= i < j < |page| ==> page[i].task != page[j].task)
  }

  lemma PageCons(store: Store, cursor: Cursor, p: PageTask, page: seq<PageTask>)
    requires SnapshotOk(store, cursor, p) && PageOk(store, cursor, page)
    requires forall i :: 0 <= i < |page| ==> page[i].task != p.task
    ensures PageOk(store, cursor, [p] + page)
  {
  }

  ghost predicate Lists(page: seq<PageTask>, tasks: seq<string>)
  {
    forall i :: 0 <= i < |page| ==> page[i].task in tasks
  }

  lemma SnapshotIsOk(store: Store, cursor: Cursor, task: string, budget: nat, terms: Terms, file: seq<Record>)
    requires StoreOk(store, terms.trust) && CursorOk(store, file, cursor) && task in store
    ensures SnapshotOk(store, cursor, Snapshot(store, cursor, task, budget, terms.trust))
    ensures var p := Snapshot(store, cursor, task, budget, terms.trust); p.task == task && |p.rows| <= budget
  {
    assert LogOk(task, store[task], terms.trust);
    if task in cursor { assert MarkOk(store, file, task, cursor[task]); }
  }

  /** A page over some of the listed tasks. */
  ghost predicate PageOver(store: Store, cursor: Cursor, page: seq<PageTask>, tasks: seq<string>)
  {
    PageOk(store, cursor, page) && Lists(page, tasks)
  }

  lemma PageOverCons(store: Store, cursor: Cursor, p: PageTask, rest: seq<PageTask>, tasks: seq<string>)
    requires tasks != [] && Distinct(tasks) && p.task == tasks[0] && SnapshotOk(store, cursor, p)
    requires PageOver(store, cursor, rest, tasks[1..])
    ensures PageOver(store, cursor, [p] + rest, tasks)
  {
    DistinctTail(tasks);
    ListsCons(p, rest, tasks);
    PageCons(store, cursor, p, rest);
  }

  lemma {:induction false} AssembleOk(store: Store, cursor: Cursor, tasks: seq<string>, budget: nat, terms: Terms,
                                      file: seq<Record>)
    requires StoreOk(store, terms.trust) && CursorOk(store, file, cursor) && Distinct(tasks)
    ensures PageOver(store, cursor, Assemble(store, cursor, tasks, budget, terms.trust), tasks)
    decreases |tasks|
  {
    if tasks != [] && tasks[0] in store && !(budget == 0 && Needed(store, cursor, tasks[0]) > 0) {
      var p := Snapshot(store, cursor, tasks[0], budget, terms.trust);
      SnapshotIsOk(store, cursor, tasks[0], budget, terms, file);
      DistinctTail(tasks);
      if p.truncated {
        PageOverCons(store, cursor, p, [], tasks);
      } else {
        AssembleOk(store, cursor, tasks[1..], budget - |p.rows|, terms, file);
        PageOverCons(store, cursor, p, Assemble(store, cursor, tasks[1..], budget - |p.rows|, terms.trust), tasks);
      }
    }
  }

  lemma DistinctTail(tasks: seq<string>)
    requires tasks != [] && Distinct(tasks)
    ensures Distinct(tasks[1..]) && tasks[0] !in tasks[1..]
  {
    forall i | 0 <= i < |tasks[1..]| ensures tasks[1..][i] != tasks[0] { assert tasks[1..][i] == tasks[i + 1]; }
  }

  lemma ListsCons(p: PageTask, rest: seq<PageTask>, tasks: seq<string>)
    requires tasks != [] && p.task == tasks[0] && tasks[0] !in tasks[1..] && Lists(rest, tasks[1..])
    ensures Lists([p] + rest, tasks)
    ensures forall i :: 0 <= i < |rest| ==> rest[i].task != p.task
  {
    var page := [p] + rest;
    forall i | 0 <= i < |page| ensures page[i].task in tasks {
      if i > 0 { assert rest[i - 1].task in tasks[1..]; }
    }
  }

  lemma SnapshotElsewhere(store: Store, before: Cursor, after: Cursor, task: string, p: PageTask)
    requires OthersKept(task, before, after) && p.task != task && SnapshotOk(store, before, p)
    ensures SnapshotOk(store, after, p)
  {
  }

  lemma JoinedProgress(store: Store, file: seq<Record>, before: Exported, now: Exported, terms: Terms)
    requires Progressed(store, file, before, terms) && Progressed(store, file + before.lines, now, terms)
    ensures Progressed(store, file, Joined(before, now), terms)
  {
    assert file + (before.lines + now.lines) == file + before.lines + now.lines;
  }

  /** The rest of a page is still a page. */
  ghost predicate RestOk(store: Store, cursor: Cursor, page: seq<PageTask>, n: nat)
  {
    forall i :: n <= i < |page| ==> SnapshotOk(store, cursor, page[i])
  }

  lemma RestKept(store: Store, before: Cursor, after: Cursor, page: seq<PageTask>, n: nat, cursor: Cursor)
    requires PageOk(store, cursor, page) && n < |page| && RestOk(store, before, page, n)
    requires OthersKept(page[n].task, before, after)
    ensures RestOk(store, after, page, n + 1)
  {
    forall i | n + 1 <= i < |page| ensures SnapshotOk(store, after, page[i]) {
      SnapshotElsewhere(store, before, after, page[n].task, page[i]);
    }
  }

  /** One more task after `before`. */
  lemma PageExtends(store: Store, file: seq<Record>, cursor: Cursor, page: seq<PageTask>, n: nat, before: Exported,
                    terms: Terms)
    requires PageOk(store, cursor, page) && n < |page|
    requires Progressed(store, file, before, terms) && RestOk(store, before.cursor, page, n)
    ensures var now := ExportNoting(page[n], before.cursor, terms.judge);
            Progressed(store, file, Joined(before, now), terms) && RestOk(store, now.cursor, page, n + 1)
  {
    TaskKeeps(store, file + before.lines, before.cursor, page[n], terms);
    var now := ExportTask(page[n], before.cursor, terms.judge);
    JoinedProgress(store, file, before, now, terms);
    RestKept(store, before.cursor, now.cursor, page, n, cursor);
  }

  /** The first `n` tasks of a page are done, and the rest is still a page. */
  ghost predicate DoneSoFar(store: Store, file: seq<Record>, page: seq<PageTask>, n: nat, done: Exported, terms: Terms)
  {
    Progressed(store, file, done, terms) && RestOk(store, done.cursor, page, n)
  }

  lemma NothingDone(store: Store, file: seq<Record>, cursor: Cursor, page: seq<PageTask>, terms: Terms)
    requires Inv(World(store, file, cursor), terms) && PageOk(store, cursor, page)
    ensures DoneSoFar(store, file, page, 0, Exported([], cursor, false), terms)
  {
    assert file + [] == file;
  }

  lemma OneMoreDone(store: Store, file: seq<Record>, cursor: Cursor, page: seq<PageTask>, n: nat, before: Exported,
                    after: Exported, terms: Terms)
    requires PageOk(store, cursor, page) && n < |page| && DoneSoFar(store, file, page, n, before, terms)
    requires after == Joined(before, ExportNoting(page[n], before.cursor, terms.judge))
    ensures DoneSoFar(store, file, page, n + 1, after, terms)
  {
    PageExtends(store, file, cursor, page, n, before, terms);
  }

  lemma {:induction false} PageKeeps(store: Store, file: seq<Record>, cursor: Cursor, page: seq<PageTask>, n: nat,
                                     terms: Terms)
    requires Inv(World(store, file, cursor), terms) && PageOk(store, cursor, page) && n <= |page|
    ensures DoneSoFar(store, file, page, n, ExportPage(page[..n], cursor, terms.judge), terms)
  {
    if n == 0 {
      NothingDone(store, file, cursor, page, terms);
    } else {
      var i := n - 1;
      PageKeeps(store, file, cursor, page, i, terms);
      PageStep(page, i, cursor, terms.judge);
      OneMoreDone(store, file, cursor, page, i, ExportPage(page[..i], cursor, terms.judge),
                  ExportPage(page[..i + 1], cursor, terms.judge), terms);
    }
  }

  lemma ExportKeeps(w: World, step: Step, terms: Terms)
    requires Inv(w, terms) && step.ExportSome?
    ensures Inv(Next(w, step, terms), terms)
  {
    if Distinct(step.tasks) {
      var page := Assemble(w.store, w.cursor, step.tasks, step.budget, terms.trust);
      AssembleOk(w.store, w.cursor, step.tasks, step.budget, terms, w.file);
      PageKeeps(w.store, w.file, w.cursor, page, |page|, terms);
      assert page[..|page|] == page;
      CursorMore(w.store, w.file, w.file + ExportPage(page, w.cursor, terms.judge).lines, w.cursor);
    }
  }

  lemma {:induction false} RunKeeps(steps: seq<Step>, terms: Terms)
    ensures Inv(Run(EMPTY_WORLD, steps, terms), terms)
  {
    if steps != [] {
      RunKeeps(steps[..|steps| - 1], terms);
      var before := Run(EMPTY_WORLD, steps[..|steps| - 1], terms);
      if steps[|steps| - 1].SaveEvents? {
        SaveKeeps(before, steps[|steps| - 1], terms);
      } else {
        ExportKeeps(before, steps[|steps| - 1], terms);
      }
    }
  }

  // ----- the results -----------------------------------------------------------------------------------------

  /** Whatever crashed when, the file holds every event below each saved watermark. */
  lemma WatermarkCovered(steps: seq<Step>, terms: Terms, task: string, i: nat)
    requires var w := Run(EMPTY_WORLD, steps, terms); task in w.cursor && i < w.cursor[task].next
    ensures var w := Run(EMPTY_WORLD, steps, terms);
            i < |ChainIn(w.store, task)| && EventLine(task, ChainIn(w.store, task)[i]) in w.file
  {
    RunKeeps(steps, terms);
    var w := Run(EMPTY_WORLD, steps, terms);
    assert MarkOk(w.store, w.file, task, w.cursor[task]);
  }

  function KeyOf(r: Record): Key
    requires !r.ControlRecord?
  {
    if r.EventRecord? then Key(r.task, r.sequence, r.hash) else Key(r.task + ":head", r.sequence, r.hash)
  }

  /** The file's lines as they are read back. */
  function LinesOf(file: seq<Record>): seq<Line>
  {
    seq(|file|, i requires 0 <= i < |file| =>
      if file[i].ControlRecord? then Parsed(Key("", 0, Prior("")), file[i]) else Parsed(KeyOf(file[i]), file[i]))
  }

  /** Two true records under one key are one record: the hash of an event covers its sequence. */
  lemma KeyDetermines(store: Store, file: seq<Record>, a: Record, b: Record, terms: Terms)
    requires StoreOk(store, terms.trust) && RecordOk(store, file, a, terms.judge)
        && RecordOk(store, file, b, terms.judge)
    requires KeyOf(a) == KeyOf(b)
    ensures a == b
  {
    assert LogOk(a.task, store[a.task], terms.trust) && LogOk(b.task, store[b.task], terms.trust);
    if a.EventRecord? && b.HeadRecord? {
      EventIsNotHead(store, file, a, b, terms);
    } else if a.HeadRecord? && b.EventRecord? {
      EventIsNotHead(store, file, b, a, terms);
    } else if a.HeadRecord? && b.HeadRecord? {
      assert (a.task + ":head")[..|a.task|] == a.task && (b.task + ":head")[..|b.task|] == b.task;
    }
  }

  lemma EventIsNotHead(store: Store, file: seq<Record>, e: Record, h: Record, terms: Terms)
    requires StoreOk(store, terms.trust) && RecordOk(store, file, e, terms.judge)
        && RecordOk(store, file, h, terms.judge)
    requires e.EventRecord? && h.HeadRecord?
    ensures KeyOf(e) != KeyOf(h)
  {
    var le, lh := store[e.task], store[h.task];
    assert LogOk(e.task, le, terms.trust) && LogOk(h.task, lh, terms.trust);
    assert IntactAt(le.chain, e.sequence) && IntactAt(lh.chain, h.sequence - 1);
  }

  /** The file reads back without a contradiction. */
  lemma ReadsBack(w: World, terms: Terms)
    requires Inv(w, terms)
    ensures ReadsCleanly(LinesOf(w.file))
  {
    var lines := LinesOf(w.file);
    forall i | 0 <= i < |lines| ensures !BadLine(lines[i]) {
      assert w.file[i] in w.file && RecordOk(w.store, w.file, w.file[i], terms.judge);
    }
    forall i, j | 0 <= i < |lines| && 0 <= j < |lines| ensures !Conflict(lines, i, j) {
      assert w.file[i] in w.file && RecordOk(w.store, w.file, w.file[i], terms.judge);
      assert w.file[j] in w.file && RecordOk(w.store, w.file, w.file[j], terms.judge);
      if lines[i].key == lines[j].key { KeyDetermines(w.store, w.file, w.file[i], w.file[j], terms); }
    }
  }

  lemma LineIsRecord(file: seq<Record>, key: Key, r: Record)
    requires OnLine(LinesOf(file), key, r)
    ensures r in file && !r.ControlRecord? && key == KeyOf(r)
  {
    var i :| 0 <= i < |file| && Kept(LinesOf(file), i) && LinesOf(file)[i] == Parsed(key, r);
    assert file[i] == r;
  }

  /** What is read back is what was written: each record once. */
  lemma ReadsAll(w: World, terms: Terms, keys: seq<Key>, records: seq<Record>, r: Record)
    requires Inv(w, terms) && Enumerates(keys, records, LinesOf(w.file))
    ensures r in records <==> r in w.file
  {
    var lines := LinesOf(w.file);
    if r in records {
      var i :| 0 <= i < |records| && records[i] == r;
      LineIsRecord(w.file, keys[i], r);
    }
    if r in w.file {
      assert RecordOk(w.store, w.file, r, terms.judge);
      var n :| 0 <= n < |w.file| && w.file[n] == r;
      assert Kept(lines, n) && lines[n] == Parsed(KeyOf(r), r);
      var i :| 0 <= i < |keys| && keys[i] == KeyOf(r);
      LineIsRecord(w.file, keys[i], records[i]);
      assert RecordOk(w.store, w.file, records[i], terms.judge);
      KeyDetermines(w.store, w.file, records[i], r, terms);
    }
  }

  lemma NoneClash(w: World, terms: Terms, keys: seq<Key>, records: seq<Record>)
    requires Inv(w, terms) && Enumerates(keys, records, LinesOf(w.file))
    ensures NoClash(records)
  {
    forall i, j | 0 <= i < j < |records| ensures !Clash(records[i], records[j]) {
      LineIsRecord(w.file, keys[i], records[i]);
      LineIsRecord(w.file, keys[j], records[j]);
      assert RecordOk(w.store, w.file, records[i], terms.judge) && RecordOk(w.store, w.file, records[j], terms.judge);
    }
  }

  lemma EventFound(w: World, terms: Terms, keys: seq<Key>, records: seq<Record>, task: string, q: int)
    requires Inv(w, terms) && Enumerates(keys, records, LinesOf(w.file))
    requires task in w.store && 0 <= q < |w.store[task].chain|
    requires EventLine(task, w.store[task].chain[q]) in w.file
    ensures HasEvent(records, task, q, Digest(w.store[task].chain[q]))
  {
    var line := EventLine(task, w.store[task].chain[q]);
    assert LogOk(task, w.store[task], terms.trust) && IntactAt(w.store[task].chain, q);
    ReadsAll(w, terms, keys, records, line);
  }

  lemma WrittenIsConsistent(w: World, terms: Terms, keys: seq<Key>, records: seq<Record>, verifier: Option<Verifier>)
    requires Inv(w, terms) && Enumerates(keys, records, LinesOf(w.file))
    requires verifier.None? || verifier == Some(terms.trust)
    ensures Consistent(records, verifier)
  {
    NoneClash(w, terms, keys, records);
    forall r | r in records && r.EventRecord? ensures EventOk(records, r) {
      ReadsAll(w, terms, keys, records, r);
      assert RecordOk(w.store, w.file, r, terms.judge) && LogOk(r.task, w.store[r.task], terms.trust);
      assert IntactAt(w.store[r.task].chain, r.sequence);
      if r.sequence > 0 { EventFound(w, terms, keys, records, r.task, r.sequence - 1); }
    }
    forall r | r in records && r.HeadRecord? ensures HeadOk(records, r, verifier) {
      ReadsAll(w, terms, keys, records, r);
      assert RecordOk(w.store, w.file, r, terms.judge) && LogOk(r.task, w.store[r.task], terms.trust);
      EventFound(w, terms, keys, records, r.task, r.sequence - 1);
    }
  }

  /**
    For an intact store and any schedule of crashes, the file reads back cleanly and its verification never answers
    `invalid`; it answers `valid` exactly when it holds records, a registry is given, and every event is under a head.
  */
  lemma ExportNeverInvalid(steps: seq<Step>, terms: Terms, keys: seq<Key>, records: seq<Record>,
                           verifier: Option<Verifier>)
    requires verifier.None? || verifier == Some(terms.trust)
    requires Enumerates(keys, records, LinesOf(Run(EMPTY_WORLD, steps, terms).file))
    ensures ReadsCleanly(LinesOf(Run(EMPTY_WORLD, steps, terms).file))
    ensures VerdictOf(records, verifier) != Invalid
    ensures VerdictOf(records, verifier) == Valid <==> records != [] && verifier.Some? && AllAnchored(records)
  {
    var w := Run(EMPTY_WORLD, steps, terms);
    RunKeeps(steps, terms);
    ReadsBack(w, terms);
    WrittenIsConsistent(w, terms, keys, records, verifier);
    InvalidExactly(records, verifier);
    assert forall r :: r in records ==> !r.ControlRecord?;
    ValidExactly(records, verifier);
  }
}
