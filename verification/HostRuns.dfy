/**
  Runs of saves against the witness and the audit floor, with a failure at any step of any save: what an
  unrestored host can rely on, what the floor remembers, and how much a restored or cloned database can lose.
*/
module HostRuns {
  import opened Options
  import opened WitnessRules
  import opened WitnessChain
  import opened WitnessOrder
  import opened HostSave

  // ----- what one save does at the witness -----------------------------------------------------------------

  /** Every head in the table is an event this database still holds at that position. */
  ghost predicate Contains(db: Db, heads: map<string, Head>)
  {
    forall t :: t in heads ==>
      1 <= heads[t].sequence <= |db.Chain(t)| && db.Chain(t)[heads[t].sequence - 1] == heads[t].hash
  }

  /** The witness knows only what this database committed, and names the receipt of its last commit. */
  ghost predicate WitnessSide(remote: Server, db: Db)
  {
    && ChainInv(remote)
    && Named(remote.host, db.receipt)
    && Contains(db, remote.heads)
    && (remote.host.pending.Some? && db.receipt == Some(remote.host.pending.value.receipt) ==>
          Contains(db, HeadMap(remote.host.pending.value.heads)))
  }

  /** The staged copy of a save extends each chain of the database. */
  ghost predicate Longer(db: Db, staged: Db)
  {
    forall t :: db.Chain(t) <= staged.Chain(t)
  }

  predicate WellFormedInput(inp: SaveInput)
  {
    WellFormedRegistry(inp.registry) && (inp.timeFloor.Some? ==> inp.timeFloor.value >= 0)
  }

  predicate IsRegistryCode(code: Code)
  {
    code.RegistryMissing? || code.RegistryRolledBack? || code.RegistryForked?
  }

  lemma StageExtends(db: Db, inp: SaveInput)
    requires Stage(db, inp).Some?
    ensures Longer(db, Stage(db, inp).value)
    ensures Stage(db, inp).value.receipt == db.receipt
    ensures Stage(db, inp).value.Chain(inp.task) == db.Chain(inp.task) + inp.events
  {
  }

  lemma ContainsLonger(db: Db, staged: Db, heads: map<string, Head>)
    requires Contains(db, heads) && Longer(db, staged)
    ensures Contains(staged, heads)
  {
    forall t | t in heads ensures
      && 1 <= heads[t].sequence <= |staged.Chain(t)|
      && staged.Chain(t)[heads[t].sequence - 1] == heads[t].hash
    {
      assert db.Chain(t) <= staged.Chain(t);
    }
  }

  /** The head a save offers is in the staged chain, and dominates every head that chain contains. */
  lemma OfferedHeadFits(db: Db, staged: Db, inp: SaveInput, heads: map<string, Head>)
    requires Contains(staged, heads)
    ensures forall e :: e in AdvanceBody(db, staged, inp).heads && e.task in heads ==> Dominates(e.head, heads[e.task])
    ensures Contains(staged, HeadMap(AdvanceBody(db, staged, inp).heads))
  {
    var head := HeadOf(staged.Chain(inp.task));
    if head.Some? {
      var entries := AdvanceBody(db, staged, inp).heads;
      assert entries == [HeadEntry(inp.task, head.value)];
      assert entries[..0] == [];
      assert HeadMap(entries) == map[inp.task := head.value];
    }
  }

  lemma NamedIsHeld(remote: Server, prev: Option<Receipt>)
    requires ChainInv(remote) && Named(remote.host, prev)
    ensures Held(remote, prev)
  {
    if prev.Some? {
      var l := Live(remote.log);
      assert EndsLive(remote.host, l);
      assert prev.value in l;
      assert LiveExact(remote.log);
    }
  }

  lemma ContainsMerged(db: Db, a: map<string, Head>, b: map<string, Head>)
    requires Contains(db, a) && Contains(db, b)
    ensures Contains(db, a + b)
  {
  }

  /** All that counts as committed at the witness once this database's receipt is confirmed is in the database. */
  lemma BasisContained(remote: Server, db: Db)
    requires WitnessSide(remote, db)
    ensures Contains(db, Basis(remote, db.receipt).heads)
    ensures Basis(remote, db.receipt).host.confirmedSeq == db.Seq()
  {
    var p := remote.host.pending;
    assert StateOk(remote.host);
    if p.Some? && db.receipt == Some(p.value.receipt) {
      ContainsMerged(db, remote.heads, HeadMap(p.value.heads));
    }
  }

  /**
    The advance of a host whose receipt the witness names and whose database holds all the witness confirmed is
    issued, unless its registry is refused.
  */
  lemma OwnAdvance(remote: Server, db: Db, staged: Db, inp: SaveInput)
    requires WitnessSide(remote, db) && Longer(db, staged) && WellFormedInput(inp)
    ensures var body := AdvanceBody(db, staged, inp);
            var d := DecideAdvance(remote.host, remote.heads, remote.log, body);
            WellFormed(AdvanceRequest(body)) && (d.Refuse? ==> IsRegistryCode(d.code))
  {
    BasisContained(remote, db);
    ContainsLonger(db, staged, Basis(remote, db.receipt).heads);
    OfferedHeadFits(db, staged, inp, Basis(remote, db.receipt).heads);
    OnlyRegistryLeft(remote, AdvanceBody(db, staged, inp));
  }

  /** Once the witness issued the receipt, both the old database and the committed one are on its side. */
  lemma IssuedKeepsSide(remote: Server, db: Db, staged: Db, inp: SaveInput)
    requires WitnessSide(remote, db) && Longer(db, staged)
    ensures var (remote', answer) := Handle(remote, AdvanceRequest(AdvanceBody(db, staged, inp)), inp.at);
            && WitnessSide(remote', db)
            && (answer.Issued? ==> WitnessSide(remote', staged.(receipt := Some(answer.receipt))))
  {
    var body := AdvanceBody(db, staged, inp);
    var (remote', answer) := Handle(remote, AdvanceRequest(body), inp.at);
    StepKeeps(remote, AdvanceRequest(body), inp.at);
    IssuedShape(remote, body, inp.at);
    if answer.Issued? {
      BasisContained(remote, db);
      ContainsLonger(db, staged, remote'.heads);
      OfferedHeadFits(db, staged, inp, remote'.heads);
      SameChains(staged, answer.receipt, remote'.heads);
      SameChains(staged, answer.receipt, HeadMap(body.heads));
      assert db.receipt != Some(answer.receipt);
    }
  }

  lemma SameChains(staged: Db, receipt: Receipt, heads: map<string, Head>)
    requires Contains(staged, heads)
    ensures Contains(staged.(receipt := Some(receipt)), heads)
  {
    var db := staged.(receipt := Some(receipt));
    assert forall t :: db.Chain(t) == staged.Chain(t);
  }

  // ----- the unrestored host -------------------------------------------------------------------------------

  /** A save ends before the witness is asked, with nothing changed, or with what asking it gives. */
  lemma SaveShape(remote: Server, floor: Floor, db: Db, inp: SaveInput)
    ensures var r := Save(remote, floor, db, inp);
            || (r == SaveResult(remote, floor, db, r.outcome) && !r.outcome.Committed? && !r.outcome.WitnessRefused?)
            || (&& Stage(db, inp).Some?
                && r == AskWitness(remote, floor, db, Stage(db, inp).value, inp)
                && Longer(db, Stage(db, inp).value)
                && Stage(db, inp).value.Chain(inp.task) == db.Chain(inp.task) + inp.events
                && (inp.task in floor.heads ==>
                      CompareHead(Some(floor.heads[inp.task]), db.Chain(inp.task)).Anchored?))
  {
    if Stage(db, inp).Some? { StageExtends(db, inp); }
  }

  lemma FinishShape(remote: Server, floor: Floor, db: Db, staged: Db, inp: SaveInput)
    ensures var r := Finish(remote, floor, db, staged, inp);
            r.remote == remote && r.db == (if r.outcome.Committed? then staged else db) && !r.outcome.WitnessRefused?
  {
  }

  /** Asking the witness leaves the old database, or the staged one with the receipt it issued. */
  lemma AskShape(remote: Server, floor: Floor, db: Db, staged: Db, inp: SaveInput)
    ensures var (remote', answer) := Handle(remote, AdvanceRequest(AdvanceBody(db, staged, inp)), inp.at);
            var r := AskWitness(remote, floor, db, staged, inp);
            && (r.remote == remote || r.remote == remote')
            && (!r.outcome.Committed? ==> r.db == db)
            && (r.outcome.Committed? ==>
                  r.remote == remote' && answer.Issued? && r.db == staged.(receipt := Some(answer.receipt)))
            && (r.outcome.WitnessRefused? ==> answer == Refused(r.outcome.code))
  {
    var (remote', answer) := Handle(remote, AdvanceRequest(AdvanceBody(db, staged, inp)), inp.at);
    if answer.Issued? { FinishShape(remote', floor, db, staged.(receipt := Some(answer.receipt)), inp); }
  }

  lemma SaveKeepsWitnessSide(remote: Server, floor: Floor, db: Db, inp: SaveInput)
    requires WitnessSide(remote, db)
    ensures var r := Save(remote, floor, db, inp); WitnessSide(r.remote, r.db)
  {
    SaveShape(remote, floor, db, inp);
    var r := Save(remote, floor, db, inp);
    if r != SaveResult(remote, floor, db, r.outcome) {
      var staged := Stage(db, inp).value;
      AskShape(remote, floor, db, staged, inp);
      IssuedKeepsSide(remote, db, staged, inp);
    }
  }

  /** The floor recorded at least the head of every chain in the database. */
  ghost predicate FloorSide(floor: Floor, db: Db)
  {
    forall t :: db.Chain(t) != [] ==> t in floor.heads && Dominates(floor.heads[t], HeadOf(db.Chain(t)).value)
  }

  /** The floor after a save that reached it: heads only rise, and only the saved task's. */
  ghost predicate FloorRose(floor: Floor, floor': Floor, task: string)
  {
    && (forall t :: t in floor.heads ==> t in floor'.heads && Dominates(floor'.heads[t], floor.heads[t]))
    && (forall t :: t in floor'.heads && t != task ==> t in floor.heads)
    && floor'.timeFloor >= floor.timeFloor
  }

  lemma FinishRecords(remote: Server, floor: Floor, db: Db, staged: Db, inp: SaveInput)
    requires inp.task in floor.heads ==> floor.heads[inp.task].sequence <= |staged.Chain(inp.task)|
    ensures var r := Finish(remote, floor, db, staged, inp);
            && FloorRose(floor, r.floor, inp.task)
            && (r.outcome.Committed? ==> r.db == staged)
            && (!r.outcome.Committed? ==> r.db == db)
            && (r.outcome.Committed? && staged.Chain(inp.task) != [] ==>
                  inp.task in r.floor.heads && Some(r.floor.heads[inp.task]) == HeadOf(staged.Chain(inp.task)))
  {
  }

  /** What a save leaves of the floor and the chains. */
  ghost predicate Recorded(floor: Floor, db: Db, inp: SaveInput, r: SaveResult)
  {
    && FloorRose(floor, r.floor, inp.task)
    && (!r.outcome.Committed? ==> r.db == db)
    && (r.outcome.Committed? && r.db.Chain(inp.task) != [] ==>
          inp.task in r.floor.heads && Some(r.floor.heads[inp.task]) == HeadOf(r.db.Chain(inp.task)))
    && (r.outcome.Committed? ==> r.db.Chain(inp.task) == db.Chain(inp.task) + inp.events)
    && (forall t :: t != inp.task ==> r.db.Chain(t) == db.Chain(t))
  }

  /** Asking the witness ends before the floor is reached, or in the last steps with the receipt it issued. */
  lemma AskOrFinish(remote: Server, floor: Floor, db: Db, staged: Db, inp: SaveInput)
    returns (moved: Server, receipt: Option<Receipt>)
    ensures var r := AskWitness(remote, floor, db, staged, inp);
            || (receipt.None? && r == SaveResult(r.remote, floor, db, r.outcome) && !r.outcome.Committed?)
            || (receipt.Some? && r == Finish(moved, floor, db, staged.(receipt := receipt), inp))
  {
    var (remote', answer) := Handle(remote, AdvanceRequest(AdvanceBody(db, staged, inp)), inp.at);
    moved := remote';
    receipt := if inp.fault.RequestLost? || inp.fault.AnswerLost? || answer.Refused? then None
               else Some(answer.receipt);
  }

  lemma FinishIsRecorded(remote: Server, floor: Floor, db: Db, staged: Db, receipt: Option<Receipt>, inp: SaveInput)
    requires Stage(db, inp) == Some(staged)
    requires inp.task in floor.heads ==> floor.heads[inp.task].sequence <= |db.Chain(inp.task)|
    ensures Recorded(floor, db, inp, Finish(remote, floor, db, staged.(receipt := receipt), inp))
  {
    var committed := staged.(receipt := receipt);
    StageExtends(db, inp);
    assert forall t :: committed.Chain(t) == staged.Chain(t);
    FinishRecords(remote, floor, db, committed, inp);
  }

  /** A commit is recorded in the floor, exactly, before it happens: for every database and every floor. */
  lemma CommitIsRecorded(remote: Server, floor: Floor, db: Db, inp: SaveInput)
    ensures Recorded(floor, db, inp, Save(remote, floor, db, inp))
  {
    SaveShape(remote, floor, db, inp);
    var r := Save(remote, floor, db, inp);
    if r != SaveResult(remote, floor, db, r.outcome) {
      var staged := Stage(db, inp).value;
      var moved, receipt := AskOrFinish(remote, floor, db, staged, inp);
      if receipt.Some? { FinishIsRecorded(moved, floor, db, staged, receipt, inp); }
    }
  }

  lemma SaveKeepsFloorSide(remote: Server, floor: Floor, db: Db, inp: SaveInput)
    requires FloorSide(floor, db)
    ensures var r := Save(remote, floor, db, inp); FloorSide(r.floor, r.db)
  {
    CommitIsRecorded(remote, floor, db, inp);
    var r := Save(remote, floor, db, inp);
    forall t | r.db.Chain(t) != []
      ensures t in r.floor.heads && Dominates(r.floor.heads[t], HeadOf(r.db.Chain(t)).value)
    {
      if t != inp.task || !r.outcome.Committed? {
        assert r.db.Chain(t) == db.Chain(t);
      }
    }
  }

  datatype Host = Host(remote: Server, floor: Floor, db: Db)

  const NEW_HOST := Host(EMPTY_SERVER, EMPTY_FLOOR, EMPTY_DB)

  /** One host that was never restored or cloned, after any saves with any faults. */
  function RunHost(inputs: seq<SaveInput>): Host
  {
    if inputs == [] then NEW_HOST
    else
      var h := RunHost(inputs[..|inputs| - 1]);
      var r := Save(h.remote, h.floor, h.db, inputs[|inputs| - 1]);
      Host(r.remote, r.floor, r.db)
  }

  lemma {:induction false} HostKeeps(inputs: seq<SaveInput>)
    ensures var h := RunHost(inputs); WitnessSide(h.remote, h.db) && FloorSide(h.floor, h.db)
  {
    if inputs == [] {
      EmptyOk();
    } else {
      var h := RunHost(inputs[..|inputs| - 1]);
      HostKeeps(inputs[..|inputs| - 1]);
      SaveKeepsWitnessSide(h.remote, h.floor, h.db, inputs[|inputs| - 1]);
      SaveKeepsFloorSide(h.remote, h.floor, h.db, inputs[|inputs| - 1]);
    }
  }

  /**
    An unrestored host is never accused. After any run of saves, with lost requests, lost answers, failed floor
    writes and failed commits anywhere, its stored receipt is the witness's confirmed or pending one, and the next
    save can be refused by the witness only for its registry.
  */
  lemma HonestHostNeverAccused(inputs: seq<SaveInput>, inp: SaveInput)
    requires WellFormedInput(inp)
    ensures var h := RunHost(inputs);
            var r := Save(h.remote, h.floor, h.db, inp);
            && Named(h.remote.host, h.db.receipt)
            && (r.outcome.WitnessRefused? ==> IsRegistryCode(r.outcome.code))
  {
    HostKeeps(inputs);
    var h := RunHost(inputs);
    SaveShape(h.remote, h.floor, h.db, inp);
    var r := Save(h.remote, h.floor, h.db, inp);
    if r.outcome.WitnessRefused? {
      AskShape(h.remote, h.floor, h.db, Stage(h.db, inp).value, inp);
      OwnAdvance(h.remote, h.db, Stage(h.db, inp).value, inp);
    }
  }

  /** The floor is never behind the committed database, and an equal sequence has the same hash. */
  lemma FloorNeverBehind(inputs: seq<SaveInput>, task: string)
    ensures var h := RunHost(inputs);
            h.db.Chain(task) != [] ==>
              && task in h.floor.heads
              && h.floor.heads[task].sequence >= |h.db.Chain(task)|
              && (h.floor.heads[task].sequence == |h.db.Chain(task)| ==>
                    h.floor.heads[task].hash == h.db.Chain(task)[|h.db.Chain(task)| - 1])
  {
    HostKeeps(inputs);
  }

  /**
    Once the floor is ahead of the database on a task - its commit failed after the floor was written, or an older
    database was restored beside it - every save of that task is refused and changes nothing.
  */
  lemma FloorAheadRefuses(remote: Server, floor: Floor, db: Db, inp: SaveInput)
    requires inp.task in floor.heads && floor.heads[inp.task].sequence > |db.Chain(inp.task)|
    ensures Save(remote, floor, db, inp) == SaveResult(remote, floor, db, FloorRefused(FloorRolledBack))
  {
  }

  /** A save of whatever database is in place at the time, beside the one floor file that survives. */
  datatype Attempt = Attempt(remote: Server, db: Db, inp: SaveInput)

  function FloorAfter(floor: Floor, attempts: seq<Attempt>): Floor
  {
    if attempts == [] then floor
    else
      var last := attempts[|attempts| - 1];
      Save(last.remote, FloorAfter(floor, attempts[..|attempts| - 1]), last.db, last.inp).floor
  }

  lemma {:induction false} FloorOnlyRises(floor: Floor, attempts: seq<Attempt>, task: string)
    requires task in floor.heads
    ensures task in FloorAfter(floor, attempts).heads
    ensures FloorAfter(floor, attempts).heads[task].sequence >= floor.heads[task].sequence
  {
    if attempts != [] {
      var last := attempts[|attempts| - 1];
      FloorOnlyRises(floor, attempts[..|attempts| - 1], task);
      CommitIsRecorded(last.remote, FloorAfter(floor, attempts[..|attempts| - 1]), last.db, last.inp);
    }
  }

  /**
    While the floor file survives, a commit is never forgotten: after it, through any saves of any databases put in
    its place, a database with fewer events of that task is refused.
  */
  lemma RestoredBehindFloorRefused(remote: Server, floor: Floor, db: Db, inp: SaveInput, attempts: seq<Attempt>,
                                   next: Attempt)
    requires var r := Save(remote, floor, db, inp); r.outcome.Committed? && r.db.Chain(inp.task) != []
    requires next.inp.task == inp.task
    requires |next.db.Chain(inp.task)| < |Save(remote, floor, db, inp).db.Chain(inp.task)|
    ensures var floor' := FloorAfter(Save(remote, floor, db, inp).floor, attempts);
            Save(next.remote, floor', next.db, next.inp) ==
            SaveResult(next.remote, floor', next.db, FloorRefused(FloorRolledBack))
  {
    CommitIsRecorded(remote, floor, db, inp);
    var recorded := Save(remote, floor, db, inp).floor;
    FloorOnlyRises(recorded, attempts, inp.task);
    FloorAheadRefuses(next.remote, FloorAfter(recorded, attempts), next.db, next.inp);
  }

  // ----- restores and clones -------------------------------------------------------------------------------

  /** The receipts an unrestored host has committed so far are all live, none above its own. */
  ghost predicate PastLive(remote: Server, db: Db, past: seq<Option<Receipt>>)
  {
    forall r :: Some(r) in past ==> r in Live(remote.log) && r.Seq() <= db.Seq()
  }

  /** The receipt of the database after each save of the run. */
  ghost function Past(inputs: seq<SaveInput>): seq<Option<Receipt>>
  {
    if inputs == [] then [None]
    else Past(inputs[..|inputs| - 1]) + [RunHost(inputs).db.receipt]
  }

  lemma StaysLive(log: seq<LogRow>, log': seq<LogRow>, r: Receipt)
    requires LiveExact(log) && LiveExact(log') && r in Live(log)
    requires r in IssuedReceipts(log') && (DiscardedIn(log', r) <==> DiscardedIn(log, r))
    ensures r in Live(log')
  {
  }

  lemma AdvanceGrowsLog(s: Server, body: Advance, at: int)
    requires ChainInv(s)
    ensures var (s', answer) := Handle(s, AdvanceRequest(body), at);
            s' != s ==>
              && answer.Issued?
              && var d := DecideAdvance(s.host, s.heads, s.log, body);
                 d.Accept? &&
                 s'.log == s.log + DiscardRows(s.host, d.discard)
                           + [AdvanceRow(s.host.epoch, body.hostSeq, answer.receipt, body)]
  {
    StepIssues(s, AdvanceRequest(body), at);
  }

  /** An advance discards the pending receipt only when it does not name it as its predecessor. */
  lemma DiscardsOnlyPending(s: Server, body: Advance)
    ensures var d := DecideAdvance(s.host, s.heads, s.log, body);
            d.Accept? ==>
              var gone := DiscardRows(s.host, d.discard);
              |gone| <= 1 && (|gone| == 1 ==>
                && gone[0].DiscardRow? && s.host.pending.Some? && gone[0].receipt == s.host.pending.value.receipt
                && body.prev != Some(gone[0].receipt))
  {
  }

  /** A step drops at most the pending receipt from the live ones. */
  lemma LiveAfterAdvance(s: Server, body: Advance, at: int, r: Receipt)
    requires ChainInv(s) && r in Live(s.log)
    requires body.prev != Some(r) ==> s.host.pending.None? || s.host.pending.value.receipt != r
    ensures r in Live(Handle(s, AdvanceRequest(body), at).0.log)
  {
    var req := AdvanceRequest(body);
    var s' := Handle(s, req, at).0;
    if s' != s {
      StepKeeps(s, req, at);
      StepIssues(s, req, at);
      AdvanceGrowsLog(s, body, at);
      DiscardsOnlyPending(s, body);
      var d := DecideAdvance(s.host, s.heads, s.log, body);
      var row := AdvanceRow(s.host.epoch, body.hostSeq, Handle(s, req, at).1.receipt, body);
      DiscardsAfter(s.log, DiscardRows(s.host, d.discard), row, r);
      StaysLive(s.log, s'.log, r);
    }
  }

  lemma DiscardsAfter(log: seq<LogRow>, gone: seq<LogRow>, row: LogRow, r: Receipt)
    requires |gone| <= 1 && (|gone| == 1 ==> gone[0].DiscardRow? && gone[0].receipt != r)
    requires !row.DiscardRow?
    ensures DiscardedIn(log + gone + [row], r) <==> DiscardedIn(log, r)
  {
    DiscardedSnoc(log + gone, row, r);
    if |gone| == 1 {
      DiscardedSnoc(log, gone[0], r);
      assert log + gone == log + [gone[0]];
    } else {
      assert log + gone == log;
    }
  }

  /** An advance from the database's own receipt leaves every past receipt live. */
  lemma PastStillLive(remote: Server, db: Db, body: Advance, at: int, past: seq<Option<Receipt>>, p: Receipt)
    requires WitnessSide(remote, db) && PastLive(remote, db, past) && body.prev == db.receipt && Some(p) in past
    ensures p in Live(Handle(remote, AdvanceRequest(body), at).0.log)
  {
    PendingAboveConfirmed(remote, db, p);
    LiveAfterAdvance(remote, body, at, p);
  }

  /** A save leaves every past receipt live, and the sequence of the database no lower. */
  lemma SaveKeepsLive(remote: Server, floor: Floor, db: Db, inp: SaveInput, past: seq<Option<Receipt>>, p: Receipt)
    requires WitnessSide(remote, db) && PastLive(remote, db, past) && Some(p) in past
    ensures var r := Save(remote, floor, db, inp); p in Live(r.remote.log) && p.Seq() <= r.db.Seq()
  {
    SaveShape(remote, floor, db, inp);
    var r := Save(remote, floor, db, inp);
    if r != SaveResult(remote, floor, db, r.outcome) {
      var staged := Stage(db, inp).value;
      AskShape(remote, floor, db, staged, inp);
      AskCounts(remote, floor, db, staged, inp);
      PastStillLive(remote, db, AdvanceBody(db, staged, inp), inp.at, past, p);
    }
  }

  lemma PastSnoc(remote: Server, db: Db, past: seq<Option<Receipt>>)
    requires PastLive(remote, db, past) && (db.receipt.Some? ==> db.receipt.value in Live(remote.log))
    ensures PastLive(remote, db, past + [db.receipt])
  {
  }

  lemma SaveKeepsPast(remote: Server, floor: Floor, db: Db, inp: SaveInput, past: seq<Option<Receipt>>)
    requires WitnessSide(remote, db) && PastLive(remote, db, past)
    ensures var r := Save(remote, floor, db, inp); PastLive(r.remote, r.db, past + [r.db.receipt])
  {
    SaveKeepsWitnessSide(remote, floor, db, inp);
    var r := Save(remote, floor, db, inp);
    if r.db.receipt.Some? { NamedIsLive(r.remote, r.db.receipt.value); }
    forall p | Some(p) in past ensures p in Live(r.remote.log) && p.Seq() <= r.db.Seq() {
      SaveKeepsLive(remote, floor, db, inp, past, p);
    }
    PastSnoc(r.remote, r.db, past);
  }

  lemma NamedIsLive(remote: Server, r: Receipt)
    requires ChainInv(remote) && Named(remote.host, Some(r))
    ensures r in Live(remote.log)
  {
    assert EndsLive(remote.host, Live(remote.log));
  }

  /** A past receipt is not the pending one, unless the database itself holds that. */
  lemma PendingAboveConfirmed(remote: Server, db: Db, p: Receipt)
    requires WitnessSide(remote, db) && p.Seq() <= db.Seq()
    ensures db.receipt != Some(p) ==> remote.host.pending.None? || remote.host.pending.value.receipt != p
  {
    assert StateOk(remote.host);
  }

  /** A save that changes the database adds exactly one to its witness sequence. */
  lemma AskCounts(remote: Server, floor: Floor, db: Db, staged: Db, inp: SaveInput)
    requires ChainInv(remote)
    ensures var r := AskWitness(remote, floor, db, staged, inp);
            r.db != db ==> r.db.Seq() == db.Seq() + 1
  {
    AskShape(remote, floor, db, staged, inp);
    IssuedShape(remote, AdvanceBody(db, staged, inp), inp.at);
  }

  lemma {:induction false} PastStaysLive(inputs: seq<SaveInput>)
    ensures var h := RunHost(inputs); PastLive(h.remote, h.db, Past(inputs))
  {
    if inputs != [] {
      var h := RunHost(inputs[..|inputs| - 1]);
      HostKeeps(inputs[..|inputs| - 1]);
      PastStaysLive(inputs[..|inputs| - 1]);
      SaveKeepsPast(h.remote, h.floor, h.db, inputs[|inputs| - 1], Past(inputs[..|inputs| - 1]));
    }
  }

  lemma {:induction false} PastHas(inputs: seq<SaveInput>, k: nat)
    requires k <= |inputs|
    ensures RunHost(inputs[..k]).db.receipt in Past(inputs)
  {
    if k == |inputs| {
      assert inputs[..k] == inputs;
    } else {
      PastHas(inputs[..|inputs| - 1], k);
      assert inputs[..|inputs| - 1][..k] == inputs[..k];
    }
  }

  /**
    A host's database is put back to how it was after save `k`. Its next advance passes the witness's `prev` rule
    exactly when its receipt is not below the confirmed one, and then at most one commit is lost; otherwise the
    witness answers rolled-back, whatever the advance carries.
  */
  lemma RestoreVerdict(inputs: seq<SaveInput>, k: nat, body: Advance, at: int)
    requires k <= |inputs|
    requires body.prev == RunHost(inputs[..k]).db.receipt && WellFormed(AdvanceRequest(body))
    ensures var h := RunHost(inputs);
            var restored := RunHost(inputs[..k]).db;
            && (Named(h.remote.host, restored.receipt) <==> restored.Seq() >= h.remote.host.confirmedSeq)
            && (Named(h.remote.host, restored.receipt) ==> h.db.Seq() <= restored.Seq() + 1)
            && (!Named(h.remote.host, restored.receipt) ==>
                  Handle(h.remote, AdvanceRequest(body), at) == (h.remote, Refused(RolledBack)))
  {
    HostKeeps(inputs);
    PastStaysLive(inputs);
    PastHas(inputs, k);
    var h := RunHost(inputs);
    var prev := RunHost(inputs[..k]).db.receipt;
    RestoredReceipt(h.remote, h.db, prev);
    if !Named(h.remote.host, prev) { UnnamedIsRefused(h.remote, body, at); }
  }

  lemma RestoredReceipt(remote: Server, db: Db, prev: Option<Receipt>)
    requires WitnessSide(remote, db)
    requires prev.Some? ==> prev.value in Live(remote.log)
    ensures var seq' := if prev.None? then 0 else prev.value.Seq();
            && (Named(remote.host, prev) <==> seq' >= remote.host.confirmedSeq)
            && db.Seq() <= remote.host.confirmedSeq + 1
            && (!Named(remote.host, prev) ==> ClassifyPrev(remote.log, prev) == RolledBack)
  {
    if prev.Some? {
      IssuedMembers(remote.log, prev.value);
      assert LiveExact(remote.log);
      if !Named(remote.host, prev) { LiveBelow(remote.host, remote.log, prev.value); }
    } else if remote.host.confirmed.Some? {
      NamedIsLive(remote, remote.host.confirmed.value);
      assert SeqsWithin(IssuedReceipts(remote.log), remote.host.LastSeq());
      assert LiveExact(remote.log);
    }
  }
}
