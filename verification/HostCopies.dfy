/**
  Any number of copies of one host's database: running hosts, clones, and restored backups. A move takes any
  database state that ever existed - a live copy, a clone of it, or a backup put back - and saves from it.
*/
module HostCopies {
  import opened Options
  import opened WitnessRules
  import opened WitnessChain
  import opened WitnessOrder
  import opened WitnessHistory
  import opened HostSave
  import opened HostRuns

  /** The witness, and every database state that has ever existed. */
  datatype World = World(remote: Server, seen: seq<Db>)

  datatype Move =
    | SaveFrom(copy: nat, floor: Floor, inp: SaveInput)
    | Recover(copy: nat, order: Rebaseline, operator: string, at: int, answerLost: bool)

  const NEW_WORLD := World(EMPTY_SERVER, [EMPTY_DB])

  function Play(w: World, m: Move): World
  {
    if m.copy >= |w.seen| then w
    else
      match m
      case SaveFrom(i, floor, inp) =>
        var r := Save(w.remote, floor, w.seen[i], inp);
        World(r.remote, w.seen + [r.db])
      case Recover(i, order, operator, at, answerLost) =>
        var (remote', answer) := Handle(w.remote, RebaselineRequest(order, operator), at);
        if answer.Refused? || answerLost then World(remote', w.seen)
        else World(remote', w.seen + [w.seen[i].(receipt := Some(answer.receipt))])
  }

  function PlayAll(moves: seq<Move>): World
  {
    if moves == [] then NEW_WORLD else Play(PlayAll(moves[..|moves| - 1]), moves[|moves| - 1])
  }

  // ----- every move keeps the witness and its receipts --------------------------------------------------------

  ghost predicate AllHeld(s: Server, seen: seq<Db>)
  {
    forall d :: d in seen ==> Held(s, d.receipt)
  }

  ghost predicate WorldInv(w: World) { HistoryInv(w.remote) && AllHeld(w.remote, w.seen) }

  lemma AllHeldStay(s: Server, seen: seq<Db>, req: Request, at: int)
    requires ChainInv(s) && AllHeld(s, seen)
    ensures AllHeld(Handle(s, req, at).0, seen)
  {
    StepIssues(s, req, at);
  }

  lemma IssuedIsHeld(s: Server, req: Request, at: int)
    requires ChainInv(s)
    ensures var (s', a) := Handle(s, req, at); a.Issued? ==> Held(s', Some(a.receipt))
  {
    var (s', a) := Handle(s, req, at);
    StepKeeps(s, req, at);
    if a.Issued? { NamedIsHeld(s', Some(a.receipt)); }
  }

  lemma SaveHeld(w: World, d: Db, floor: Floor, inp: SaveInput)
    requires WorldInv(w) && d in w.seen
    ensures var r := Save(w.remote, floor, d, inp); WorldInv(World(r.remote, w.seen + [r.db]))
  {
    SaveShape(w.remote, floor, d, inp);
    var r := Save(w.remote, floor, d, inp);
    if r != SaveResult(w.remote, floor, d, r.outcome) {
      var staged := Stage(d, inp).value;
      var req := AdvanceRequest(AdvanceBody(d, staged, inp));
      AskShape(w.remote, floor, d, staged, inp);
      StepKeepsHistory(w.remote, req, inp.at);
      IssuedIsHeld(w.remote, req, inp.at);
      AllHeldStay(w.remote, w.seen, req, inp.at);
    }
  }

  lemma RecoverHeld(w: World, m: Move)
    requires WorldInv(w) && m.Recover? && m.copy < |w.seen|
    ensures WorldInv(Play(w, m))
  {
    var req := RebaselineRequest(m.order, m.operator);
    StepKeepsHistory(w.remote, req, m.at);
    IssuedIsHeld(w.remote, req, m.at);
    AllHeldStay(w.remote, w.seen, req, m.at);
  }

  lemma {:induction false} WorldKeeps(moves: seq<Move>)
    ensures WorldInv(PlayAll(moves))
  {
    if moves == [] {
      EmptyHistoryOk();
    } else {
      var w := PlayAll(moves[..|moves| - 1]);
      var m := moves[|moves| - 1];
      WorldKeeps(moves[..|moves| - 1]);
      if m.copy < |w.seen| {
        match m
        case SaveFrom(i, floor, inp) => SaveHeld(w, w.seen[i], floor, inp);
        case Recover(_, _, _, _, _) => RecoverHeld(w, m);
      }
    }
  }

  /**
    Over every history of saves, failures, restores, clones and operator recoveries, for a database state that passes
    the witness's `prev` rule. Against any state that ever existed, its sequence is at most one behind. Whatever that
    state's last commit was built on, this state was built on too, and it is live, exactly when that state is of the
    current epoch: so only its last commit can be missing. Of an epoch that was ended nothing of the kind holds.
  */
  lemma AtMostOneCommitLost(moves: seq<Move>, i: nat, j: nat)
    requires i < |PlayAll(moves).seen| && j < |PlayAll(moves).seen|
    requires Named(PlayAll(moves).remote.host, PlayAll(moves).seen[i].receipt)
    ensures var w := PlayAll(moves);
            var mine, other := w.seen[i].receipt, w.seen[j].receipt;
            && w.seen[j].Seq() <= w.seen[i].Seq() + 1
            && (BuiltOn(mine, Settled(other)) <==> EpochOf(other) == w.remote.host.epoch)
            && (BuiltOn(mine, Settled(other)) && Settled(other).Some? ==>
                  Settled(other).value in Live(w.remote.log))
  {
    WorldKeeps(moves);
    var w := PlayAll(moves);
    var mine, other := w.seen[i].receipt, w.seen[j].receipt;
    assert StateOk(w.remote.host);
    assert w.seen[j] in w.seen && Held(w.remote, other);
    assert SeqsWithin(IssuedReceipts(w.remote.log), w.remote.host.LastSeq());
    SettledEpoch(w.remote, other);
    if mine.Some? { NamedIsLive(w.remote, mine.value); }
    if EpochOf(other) == w.remote.host.epoch { NamedIsBuiltOn(w.remote, mine, other); }
    if BuiltOn(mine, Settled(other)) { HistoryIsLive(w.remote, mine, Settled(other)); }
  }

  /** A committed save is one ahead of the state it was made from, and one that does not commit leaves the count. */
  lemma CommitCountsOne(remote: Server, floor: Floor, db: Db, inp: SaveInput)
    requires ChainInv(remote)
    ensures var r := Save(remote, floor, db, inp);
            r.db.Seq() == db.Seq() + (if r.outcome.Committed? then 1 else 0)
  {
    SaveShape(remote, floor, db, inp);
    var r := Save(remote, floor, db, inp);
    if r != SaveResult(remote, floor, db, r.outcome) || r.outcome.Committed? {
      var staged := Stage(db, inp).value;
      AskShape(remote, floor, db, staged, inp);
      IssuedShape(remote, AdvanceBody(db, staged, inp), inp.at);
    }
  }

  // ----- what the databases hold ------------------------------------------------------------------------------

  /** The database holds every head that its receipt, or one it was built on, told the witness. */
  ghost predicate Holds(d: Db, receipt: Option<Receipt>)
    decreases receipt
  {
    match receipt
    case None => true
    case Some(Advanced(_, _, prev, request, _, _, _)) => Contains(d, HeadMap(request.heads)) && Holds(d, prev)
    case Some(Rebaselined(_, _, _, order, _, _)) => Contains(d, HeadMap(order.heads))
    case Some(Foreign(_)) => true
  }

  /** A commit tells the witness of one task. */
  ghost predicate OneTask(receipt: Option<Receipt>)
  {
    receipt.Some? && receipt.value.Advanced? ==> |receipt.value.request.heads| <= 1
  }

  ghost predicate Sound(d: Db) { Holds(d, d.receipt) && OneTask(d.receipt) }

  /** The witness was told of the whole of every chain. */
  ghost predicate Covered(d: Db)
  {
    forall t :: d.Chain(t) != [] ==>
      t in CarriedHeads(d.receipt) && HeadOf(d.Chain(t)) == Some(CarriedHeads(d.receipt)[t])
  }

  lemma {:induction false} HoldsLonger(d: Db, more: Db, receipt: Option<Receipt>)
    requires Holds(d, receipt) && Longer(d, more)
    ensures Holds(more, receipt)
    decreases receipt
  {
    if receipt.Some? && receipt.value.Advanced? {
      ContainsLonger(d, more, HeadMap(receipt.value.request.heads));
      HoldsLonger(d, more, receipt.value.prev);
    } else if receipt.Some? && receipt.value.Rebaselined? {
      ContainsLonger(d, more, HeadMap(receipt.value.order.heads));
    }
  }

  lemma {:induction false} HoldsBelow(d: Db, top: Option<Receipt>, base: Option<Receipt>)
    requires Holds(d, top) && BuiltOn(top, base)
    ensures Holds(d, base)
    decreases top
  {
    if top != base { HoldsBelow(d, top.value.prev, base); }
  }

  lemma {:induction false} HoldsCarried(d: Db, receipt: Option<Receipt>)
    requires Holds(d, receipt)
    ensures Contains(d, CarriedHeads(receipt))
    decreases receipt
  {
    if receipt.Some? && receipt.value.Advanced? {
      HoldsCarried(d, receipt.value.prev);
      ContainsMerged(d, CarriedHeads(receipt.value.prev), HeadMap(receipt.value.request.heads));
    }
  }

  // ----- every move keeps that --------------------------------------------------------------------------------

  /** What a save commits: the chain of one task extended, under the receipt of the advance that told of it. */
  ghost predicate CommittedFrom(d: Db, staged: Db, inp: SaveInput, receipt: Receipt)
  {
    && Stage(d, inp) == Some(staged) && receipt.Advanced? && receipt.prev == d.receipt
    && receipt.request == AdvanceBody(d, staged, inp)
  }

  lemma CommitSound(d: Db, staged: Db, inp: SaveInput, receipt: Receipt)
    requires Sound(d) && CommittedFrom(d, staged, inp, receipt)
    ensures Sound(staged.(receipt := Some(receipt)))
  {
    var after := staged.(receipt := Some(receipt));
    StageExtends(d, inp);
    assert forall t :: after.Chain(t) == staged.Chain(t);
    HoldsLonger(d, after, d.receipt);
    OfferedHeadFits(d, staged, inp, map[]);
    SameChains(staged, receipt, HeadMap(receipt.request.heads));
  }

  lemma CommitCovered(d: Db, staged: Db, inp: SaveInput, receipt: Receipt)
    requires Covered(d) && CommittedFrom(d, staged, inp, receipt)
    ensures Covered(staged.(receipt := Some(receipt)))
  {
    var after := staged.(receipt := Some(receipt));
    var head := HeadOf(staged.Chain(inp.task));
    assert receipt.request.heads == if head.None? then [] else [HeadEntry(inp.task, head.value)];
    OneHead(receipt.request.heads);
    forall t | after.Chain(t) != []
      ensures t in CarriedHeads(after.receipt) && HeadOf(after.Chain(t)) == Some(CarriedHeads(after.receipt)[t])
    {
      if t != inp.task { assert after.Chain(t) == d.Chain(t); }
    }
  }

  lemma OneHead(entries: seq<HeadEntry>)
    requires |entries| <= 1
    ensures HeadMap(entries) == if entries == [] then map[] else map[entries[0].task := entries[0].head]
  {
    if entries != [] { assert entries[..0] == []; }
  }

  /** A save leaves the database as it was, or commits from it. */
  lemma SaveCommits(remote: Server, floor: Floor, d: Db, inp: SaveInput)
    requires StateOk(remote.host)
    ensures var r := Save(remote, floor, d, inp);
            r.db == d || (r.db.receipt.Some? && Stage(d, inp).Some?
                          && r.db == Stage(d, inp).value.(receipt := r.db.receipt)
                          && CommittedFrom(d, Stage(d, inp).value, inp, r.db.receipt.value))
  {
    SaveShape(remote, floor, d, inp);
    var r := Save(remote, floor, d, inp);
    if r != SaveResult(remote, floor, d, r.outcome) {
      AskShape(remote, floor, d, Stage(d, inp).value, inp);
      IssuedForBody(remote, AdvanceBody(d, Stage(d, inp).value, inp), inp.at);
    }
  }

  /** A recovery tells the witness heads its own database has; `whole` when it tells all of them. */
  ghost predicate OwnHeads(d: Db, order: Rebaseline, whole: bool)
  {
    && Contains(d, HeadMap(order.heads))
    && (whole ==> forall t :: d.Chain(t) != [] ==>
          t in HeadMap(order.heads) && HeadOf(d.Chain(t)) == Some(HeadMap(order.heads)[t]))
  }

  ghost predicate OwnRecovery(w: World, m: Move, whole: bool)
  {
    m.Recover? && m.copy < |w.seen| ==> OwnHeads(w.seen[m.copy], m.order, whole)
  }

  ghost predicate OwnRecoveries(moves: seq<Move>, whole: bool)
  {
    moves == [] ||
    (&& OwnRecoveries(moves[..|moves| - 1], whole)
     && OwnRecovery(PlayAll(moves[..|moves| - 1]), moves[|moves| - 1], whole))
  }

  /** The database of a recovery: the same chains under the receipt of its order. */
  lemma RecoveredSound(d: Db, order: Rebaseline, receipt: Receipt, whole: bool)
    requires OwnHeads(d, order, whole) && receipt.Rebaselined? && receipt.order == order
    ensures var after := d.(receipt := Some(receipt)); Sound(after) && (whole ==> Covered(after))
  {
    var after := d.(receipt := Some(receipt));
    assert forall t :: after.Chain(t) == d.Chain(t);
    SameChains(d, receipt, HeadMap(order.heads));
  }

  ghost predicate AllSound(seen: seq<Db>, whole: bool)
  {
    forall d :: d in seen ==> Sound(d) && (whole ==> Covered(d))
  }

  lemma MoveSound(w: World, m: Move, whole: bool)
    requires WorldInv(w) && AllSound(w.seen, whole) && m.copy < |w.seen|
    requires m.Recover? ==> OwnHeads(w.seen[m.copy], m.order, whole)
    ensures AllSound(Play(w, m).seen, whole)
  {
    var d := w.seen[m.copy];
    match m
    case SaveFrom(_, floor, inp) =>
      SaveCommits(w.remote, floor, d, inp);
      var after := Save(w.remote, floor, d, inp).db;
      if after != d {
        CommitSound(d, Stage(d, inp).value, inp, after.receipt.value);
        if whole { CommitCovered(d, Stage(d, inp).value, inp, after.receipt.value); }
      }
    case Recover(_, order, operator, at, _) =>
      IssuedForOrder(w.remote, order, operator, at);
      var answer := Handle(w.remote, RebaselineRequest(order, operator), at).1;
      if answer.Issued? { RecoveredSound(d, order, answer.receipt, whole); }
  }

  lemma {:induction false} MovesSound(moves: seq<Move>, whole: bool)
    requires OwnRecoveries(moves, whole)
    ensures AllSound(PlayAll(moves).seen, whole)
  {
    if moves == [] {
      assert Covered(EMPTY_DB);
    } else {
      MovesSound(moves[..|moves| - 1], whole);
      WorldKeeps(moves[..|moves| - 1]);
      var w, m := PlayAll(moves[..|moves| - 1]), moves[|moves| - 1];
      if m.copy < |w.seen| { MoveSound(w, m, whole); }
    }
  }

  // ----- the results ------------------------------------------------------------------------------------------

  lemma NamedOnSide(s: Server, d: Db)
    requires HistoryInv(s) && Sound(d) && Named(s.host, d.receipt)
    ensures WitnessSide(s, d)
  {
    assert StateOk(s.host);
    assert BuiltOn(d.receipt, s.host.confirmed);
    HoldsBelow(d, d.receipt, s.host.confirmed);
    HoldsCarried(d, s.host.confirmed);
  }

  /**
    A copy that passes the `prev` rule is never accused. Over every history, with recoveries telling only heads their
    database has, any database state the witness names holds all that is confirmed, and a save from it, beside any
    floor, can be refused by the witness only for its registry.
  */
  lemma NamedCopyNeverAccused(moves: seq<Move>, i: nat, floor: Floor, inp: SaveInput)
    requires OwnRecoveries(moves, false) && i < |PlayAll(moves).seen| && WellFormedInput(inp)
    requires Named(PlayAll(moves).remote.host, PlayAll(moves).seen[i].receipt)
    ensures var w := PlayAll(moves);
            var r := Save(w.remote, floor, w.seen[i], inp);
            && Contains(w.seen[i], w.remote.heads)
            && (r.outcome.WitnessRefused? ==> IsRegistryCode(r.outcome.code))
  {
    WorldKeeps(moves);
    MovesSound(moves, false);
    var w := PlayAll(moves);
    var d := w.seen[i];
    assert d in w.seen;
    NamedOnSide(w.remote, d);
    SaveShape(w.remote, floor, d, inp);
    if Save(w.remote, floor, d, inp).outcome.WitnessRefused? {
      AskShape(w.remote, floor, d, Stage(d, inp).value, inp);
      OwnAdvance(w.remote, d, Stage(d, inp).value, inp);
    }
  }

  /** Event hashes chain: `origin` gives back, from the hash of an event, the events before it. */
  ghost predicate Chained(d: Db, origin: string -> seq<string>)
  {
    forall t, n :: 0 <= n < |d.Chain(t)| ==> origin(d.Chain(t)[n]) == d.Chain(t)[..n]
  }

  /** How much of a task's chain the witness had been told when this receipt was issued. */
  function ToldUpTo(receipt: Option<Receipt>, task: string): int
  {
    if task in CarriedHeads(receipt) then CarriedHeads(receipt)[task].sequence else 0
  }

  /** The events two databases hold up to a head that both contain are the same. */
  lemma SameUpToHead(d: Db, e: Db, heads: map<string, Head>, task: string, origin: string -> seq<string>)
    requires Contains(d, heads) && Contains(e, heads) && task in heads && Chained(d, origin) && Chained(e, origin)
    ensures var n := heads[task].sequence;
            1 <= n <= |d.Chain(task)| && n <= |e.Chain(task)| && d.Chain(task)[..n] == e.Chain(task)[..n]
  {
    var n := heads[task].sequence;
    var c, c' := d.Chain(task), e.Chain(task);
    assert origin(c[n - 1]) == c[..n - 1] && origin(c'[n - 1]) == c'[..n - 1];
    assert c[..n] == c[..n - 1] + [c[n - 1]] && c'[..n] == c'[..n - 1] + [c'[n - 1]];
  }

  /** All of `lost` is in `kept`, except what the last commit of `lost` added to one task. */
  ghost predicate AllButLastCommit(lost: Db, kept: Db)
  {
    && OneTask(lost.receipt)
    && (forall t :: 0 <= ToldUpTo(Settled(lost.receipt), t) <= |lost.Chain(t)|
                    && lost.Chain(t)[..ToldUpTo(Settled(lost.receipt), t)] <= kept.Chain(t))
    && (forall t :: t !in LastTold(lost.receipt) ==> lost.Chain(t) <= kept.Chain(t))
  }

  /** The heads of the last advance. */
  function LastTold(receipt: Option<Receipt>): map<string, Head>
  {
    if receipt.Some? && receipt.value.Advanced? then HeadMap(receipt.value.request.heads) else map[]
  }

  lemma LosesOnlyLast(lost: Db, kept: Db, origin: string -> seq<string>)
    requires Sound(lost) && Covered(lost) && Sound(kept) && BuiltOn(kept.receipt, Settled(lost.receipt))
    requires Chained(lost, origin) && Chained(kept, origin)
    ensures AllButLastCommit(lost, kept)
  {
    var base := Settled(lost.receipt);
    var told := CarriedHeads(base);
    HoldsBelow(kept, kept.receipt, base);
    HoldsBelow(lost, lost.receipt, base);
    HoldsCarried(kept, base);
    HoldsCarried(lost, base);
    forall t
      ensures 0 <= ToldUpTo(base, t) <= |lost.Chain(t)| && lost.Chain(t)[..ToldUpTo(base, t)] <= kept.Chain(t)
      ensures t !in LastTold(lost.receipt) ==> lost.Chain(t) <= kept.Chain(t)
    {
      if t in told { SameUpToHead(lost, kept, told, t, origin); }
      if t !in LastTold(lost.receipt) && lost.Chain(t) != [] {
        assert CarriedHeads(lost.receipt)[t] == told[t];
        assert lost.Chain(t)[..|lost.Chain(t)|] == lost.Chain(t);
      }
    }
  }

  /**
    What "at most one commit" means for the contents. Over every history whose recoveries told all heads of their
    database, a state the witness names holds every event of every state of its epoch, except what that state's last
    commit added to one task.
  */
  lemma OnlyTheLastCommitIsMissing(moves: seq<Move>, i: nat, j: nat, origin: string -> seq<string>)
    requires OwnRecoveries(moves, true) && i < |PlayAll(moves).seen| && j < |PlayAll(moves).seen|
    requires Named(PlayAll(moves).remote.host, PlayAll(moves).seen[i].receipt)
    requires EpochOf(PlayAll(moves).seen[j].receipt) == PlayAll(moves).remote.host.epoch
    requires Chained(PlayAll(moves).seen[i], origin) && Chained(PlayAll(moves).seen[j], origin)
    ensures AllButLastCommit(PlayAll(moves).seen[j], PlayAll(moves).seen[i])
  {
    WorldKeeps(moves);
    MovesSound(moves, true);
    AtMostOneCommitLost(moves, i, j);
    var w := PlayAll(moves);
    assert w.seen[i] in w.seen && w.seen[j] in w.seen;
    LosesOnlyLast(w.seen[j], w.seen[i], origin);
  }

  /** A recovery of a state that was named adds no loss: its database has the chains of the one it was made from. */
  lemma RecoveryOfNamed(moves: seq<Move>, j: nat, m: Move, origin: string -> seq<string>)
    requires OwnRecoveries(moves, true) && m.Recover? && m.copy < |PlayAll(moves).seen| && j < |PlayAll(moves).seen|
    requires Named(PlayAll(moves).remote.host, PlayAll(moves).seen[m.copy].receipt)
    requires EpochOf(PlayAll(moves).seen[j].receipt) == PlayAll(moves).remote.host.epoch
    requires Chained(PlayAll(moves).seen[m.copy], origin) && Chained(PlayAll(moves).seen[j], origin)
    ensures var w, after := PlayAll(moves), Play(PlayAll(moves), m);
            |after.seen| > |w.seen| ==> AllButLastCommit(w.seen[j], after.seen[|w.seen|])
  {
    OnlyTheLastCommitIsMissing(moves, m.copy, j, origin);
    var w := PlayAll(moves);
    var after := Play(w, m);
    if |after.seen| > |w.seen| {
      assert forall t :: after.seen[|w.seen|].Chain(t) == w.seen[m.copy].Chain(t);
    }
  }

  // ----- the bound is reached, and an epoch ends it -----------------------------------------------------------

  /** A save of one event with nothing else to it. */
  function Plain(task: string, event: string): SaveInput
  {
    SaveInput(task, [event], 0, false, None, false, true, None, None, 0, NoFault)
  }

  lemma PlainSave(s: Server, event: string)
    requires StateOk(s.host) && s.host.confirmed.None? && s.host.registry.None? && s.heads == map[]
    requires s.host.pending.Some? ==> s.host.pending.value.heads != [HeadEntry("t", Head(1, event))]
    ensures var r := Save(s, EMPTY_FLOOR, EMPTY_DB, Plain("t", event));
            && r.outcome.Committed? && r.db.Seq() == 1 && r.db.Chain("t") == [event]
            && r.remote.host.pending.Some? && r.db.receipt == Some(r.remote.host.pending.value.receipt)
            && r.remote.host.pending.value.heads == [HeadEntry("t", Head(1, event))]
            && StateOk(r.remote.host) && r.remote.host.confirmed.None? && r.remote.host.registry.None?
            && r.remote.heads == map[]
  {
    var inp := Plain("t", event);
    var staged := Stage(EMPTY_DB, inp).value;
    assert staged.Chain("t") == [event];
    var body := AdvanceBody(EMPTY_DB, staged, inp);
    AcceptedExactly(s, body);
    IssuedShape(s, body, 0);
  }

  /**
    The bound is tight, as the witness documents: after one unconfirmed commit, a save from the state before it is
    accepted, and the commit that was made first is lost.
  */
  lemma OneCommitCanBeLost()
    ensures var first := Save(EMPTY_SERVER, EMPTY_FLOOR, EMPTY_DB, Plain("t", "e1"));
            var second := Save(first.remote, EMPTY_FLOOR, EMPTY_DB, Plain("t", "e2"));
            && first.outcome.Committed? && second.outcome.Committed?
            && first.db.Seq() == EMPTY_DB.Seq() + 1
            && second.db.Chain("t") == ["e2"]
            && !Named(second.remote.host, first.db.receipt)
  {
    PlainSave(EMPTY_SERVER, "e1");
    var first := Save(EMPTY_SERVER, EMPTY_FLOOR, EMPTY_DB, Plain("t", "e1"));
    assert "e1"[1] != "e2"[1];
    assert HeadEntry("t", Head(1, "e1")) != HeadEntry("t", Head(1, "e2"));
    PlainSave(first.remote, "e2");
    var second := Save(first.remote, EMPTY_FLOOR, EMPTY_DB, Plain("t", "e2"));
    assert first.db.receipt.value.request.heads != second.db.receipt.value.request.heads;
  }

  /** The `k`th save of a task, of one event, and the moves that make `n` of them one after the other. */
  function Nth(k: nat, event: string): SaveInput
  {
    SaveInput("t", [event], k, false, None, false, true, None, None, 0, NoFault)
  }

  function EventHash(k: nat): string { seq(k + 1, _ => 'e') }

  function Saves(n: nat): seq<Move>
  {
    if n == 0 then [] else Saves(n - 1) + [SaveFrom(n - 1, EMPTY_FLOOR, Nth(n - 1, EventHash(n - 1)))]
  }

  ghost predicate NoRegistry(host: HostState)
  {
    host.registry.None? && (host.pending.Some? ==> host.pending.value.registry.None?)
  }

  function CheckpointOf(d: Db): Checkpoint { if "t" in d.checkpoints then d.checkpoints["t"] else Checkpoint(0, false) }

  /** Where a host stands after `n` such saves. */
  ghost predicate SavedTimes(s: Server, d: Db, n: nat)
  {
    && WitnessSide(s, d) && NoRegistry(s.host) && (s.host.pending.None? ==> s.host.confirmed.None?)
    && |d.Chain("t")| == n && CheckpointOf(d) == Checkpoint(n, false)
  }

  /** An advance of such a host is issued. */
  lemma NthIssued(s: Server, d: Db, staged: Db, inp: SaveInput)
    requires WitnessSide(s, d) && NoRegistry(s.host) && Longer(d, staged)
    requires inp.registry.None? && inp.timeFloor.None?
    ensures var (s', a) := Handle(s, AdvanceRequest(AdvanceBody(d, staged, inp)), inp.at);
            a.Issued? && NoRegistry(s'.host) && s'.host.pending.Some?
            && WitnessSide(s', staged.(receipt := Some(a.receipt)))
  {
    var body := AdvanceBody(d, staged, inp);
    OwnAdvance(s, d, staged, inp);
    NoRegistryNeeded(s, body);
    IssuedKeepsSide(s, d, staged, inp);
    IssuedShape(s, body, inp.at);
    RegistryStaysAway(s, body, inp.at);
  }

  lemma NoRegistryNeeded(s: Server, body: Advance)
    requires NoRegistry(s.host)
    ensures var d := DecideAdvance(s.host, s.heads, s.log, body); d.Refuse? ==> !IsRegistryCode(d.code)
  {
    CheckHeadsCode(body.heads, s.host.pending, s.heads);
    CheckHeadsCode(body.heads, None, s.heads);
  }

  lemma {:induction false} CheckHeadsCode(entries: seq<HeadEntry>, confirm: Option<Pending>, heads: map<string, Head>)
    ensures var code := CheckHeads(entries, confirm, heads); code.Some? ==> !IsRegistryCode(code.value)
  {
    if entries != [] { CheckHeadsCode(entries[1..], confirm, heads); }
  }

  lemma RegistryStaysAway(s: Server, body: Advance, at: int)
    requires NoRegistry(s.host) && body.registry.None?
    ensures NoRegistry(Handle(s, AdvanceRequest(body), at).0.host)
  {
  }

  lemma NthStaged(d: Db, n: nat, event: string)
    requires |d.Chain("t")| == n && CheckpointOf(d) == Checkpoint(n, false)
    ensures var staged := Stage(d, Nth(n, event));
            && staged.Some? && Longer(d, staged.value)
            && |staged.value.Chain("t")| == n + 1 && CheckpointOf(staged.value) == Checkpoint(n + 1, false)
  {
    assert Stage(d, Nth(n, event)).Some?;
    StageExtends(d, Nth(n, event));
  }

  lemma NthFinishes(s: Server, d: Db, after: Db, n: nat, event: string)
    ensures var r := Finish(s, EMPTY_FLOOR, d, after, Nth(n, event)); r.remote == s && r.db == after
  {
  }

  /** Once the witness issued its receipt, such a save commits. */
  lemma NthSaves(s: Server, d: Db, staged: Db, n: nat, event: string, s': Server, receipt: Receipt)
    requires Stage(d, Nth(n, event)) == Some(staged)
    requires Handle(s, AdvanceRequest(AdvanceBody(d, staged, Nth(n, event))), 0) == (s', Issued(receipt))
    ensures var r := Save(s, EMPTY_FLOOR, d, Nth(n, event));
            r.remote == s' && r.db == staged.(receipt := Some(receipt))
  {
    NthFinishes(s', d, staged.(receipt := Some(receipt)), n, event);
  }

  lemma NthCommits(s: Server, d: Db, n: nat, event: string)
    requires SavedTimes(s, d, n)
    ensures var r := Save(s, EMPTY_FLOOR, d, Nth(n, event)); SavedTimes(r.remote, r.db, n + 1)
  {
    NthStaged(d, n, event);
    var staged := Stage(d, Nth(n, event)).value;
    NthIssued(s, d, staged, Nth(n, event));
    var (s', a) := Handle(s, AdvanceRequest(AdvanceBody(d, staged, Nth(n, event))), 0);
    NthSaves(s, d, staged, n, event, s', a.receipt);
    AfterNth(s', staged, n, a.receipt);
  }

  lemma AfterNth(s: Server, staged: Db, n: nat, receipt: Receipt)
    requires WitnessSide(s, staged.(receipt := Some(receipt))) && NoRegistry(s.host) && s.host.pending.Some?
    requires |staged.Chain("t")| == n + 1 && CheckpointOf(staged) == Checkpoint(n + 1, false)
    ensures SavedTimes(s, staged.(receipt := Some(receipt)), n + 1)
  {
    assert staged.(receipt := Some(receipt)).Chain("t") == staged.Chain("t");
  }

  ghost predicate SavedAll(w: World, n: nat)
  {
    |w.seen| == n + 1 && w.seen[0] == EMPTY_DB && SavedTimes(w.remote, w.seen[n], n)
  }

  lemma SavedOnce(w: World, n: nat)
    requires SavedAll(w, n)
    ensures SavedAll(Play(w, SaveFrom(n, EMPTY_FLOOR, Nth(n, EventHash(n)))), n + 1)
  {
    NthCommits(w.remote, w.seen[n], n, EventHash(n));
    SaveMove(w, n, Nth(n, EventHash(n)));
  }

  lemma {:induction false} SavesCommit(n: nat)
    ensures SavedAll(PlayAll(Saves(n)), n) && OwnRecoveries(Saves(n), true)
  {
    if n == 0 {
      NothingSaved();
    } else {
      SavesCommit(n - 1);
      SavedOnce(PlayAll(Saves(n - 1)), n - 1);
      OneMoreMove(Saves(n - 1), SaveFrom(n - 1, EMPTY_FLOOR, Nth(n - 1, EventHash(n - 1))));
    }
  }

  lemma NothingSaved()
    ensures SavedAll(NEW_WORLD, 0)
  {
    EmptyOk();
  }

  lemma SaveMove(w: World, i: nat, inp: SaveInput)
    requires i < |w.seen|
    ensures var r := Save(w.remote, EMPTY_FLOOR, w.seen[i], inp);
            Play(w, SaveFrom(i, EMPTY_FLOOR, inp)) == World(r.remote, w.seen + [r.db])
  {
  }

  lemma OneMoreMove(moves: seq<Move>, m: Move)
    ensures PlayAll(moves + [m]) == Play(PlayAll(moves), m)
    ensures OwnRecoveries(moves + [m], true) <==> OwnRecoveries(moves, true) && OwnRecovery(PlayAll(moves), m, true)
  {
    assert (moves + [m])[..|moves|] == moves;
  }

  lemma NothingToTell(w: World, m: Move)
    requires m.Recover? && m.copy == 0 && |w.seen| > 0 && w.seen[0] == EMPTY_DB && m.order.heads == []
    ensures OwnRecovery(w, m, true)
  {
  }

  /** The recovery of the empty database, in place of one that saved `n` times. */
  function Reset(n: nat): Move
  {
    Recover(0, Rebaseline(PlayAll(Saves(n)).remote.host.LastReceipt(), "", "", [], None, 0), "", 0, false)
  }

  /** Recovering a database without events, with nothing to tell. */
  lemma ResetMove(w: World, m: Move)
    requires StateOk(w.remote.host) && |w.seen| > 0 && w.seen[0] == EMPTY_DB
    requires w.remote.host.pending.None? ==> w.remote.host.confirmed.None?
    requires m == Recover(0, Rebaseline(w.remote.host.LastReceipt(), "", "", [], None, 0), "", 0, false)
    ensures var after := Play(w, m);
            && |after.seen| == |w.seen| + 1 && after.seen[..|w.seen|] == w.seen
            && after.remote.host.confirmed == after.seen[|w.seen|].receipt
            && after.seen[|w.seen|].chains == map[] && after.remote.host.epoch == w.remote.host.epoch + 1
  {
  }

  /** The newest state is named and empty, and an earlier one of an ended epoch has `n` events. */
  ghost predicate LostAll(w: World, n: nat)
  {
    && |w.seen| == n + 2 && Named(w.remote.host, w.seen[n + 1].receipt)
    && w.seen[n + 1].Chain("t") == [] && |w.seen[n].Chain("t")| == n
    && EpochOf(w.seen[n].receipt) < w.remote.host.epoch
  }

  /**
    A recovery starts an epoch from whatever database is in place, so across one any number of commits can be lost: the
    empty database, recovered, passes the `prev` rule though another state has `n` commits it lacks.
  */
  lemma RecoveryCanLoseAll(n: nat)
    ensures OwnRecoveries(Saves(n) + [Reset(n)], true)
    ensures LostAll(PlayAll(Saves(n) + [Reset(n)]), n)
  {
    SavesCommit(n);
    OneMoreMove(Saves(n), Reset(n));
    NothingToTell(PlayAll(Saves(n)), Reset(n));
    ResetLoses(PlayAll(Saves(n)), Reset(n), n);
  }

  lemma ResetLoses(w: World, m: Move, n: nat)
    requires SavedAll(w, n)
    requires m == Recover(0, Rebaseline(w.remote.host.LastReceipt(), "", "", [], None, 0), "", 0, false)
    ensures LostAll(Play(w, m), n)
  {
    assert StateOk(w.remote.host);
    ResetMove(w, m);
    assert Play(w, m).seen[..n + 1][n] == w.seen[n];
  }
}
