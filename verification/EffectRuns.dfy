/**
  Every interleaving of task runs, crashes, operators and time over the ledger row of one effect id. The run of the
  task is the single writer for that position and may die between any two store calls; operators come and go at will.
  Effect ids do not share rows, so what holds of one holds of all.
*/
module EffectRuns {
  import opened Options
  import opened EffectLedger

  // ----- the machine -------------------------------------------------------------------------------------------

  /** Where the one run of the task stands with the call at this position. */
  datatype Runner =
    | Idle
    | Recorded(tool: string, args: string)   // intent is in the ledger, not yet started
    | Launching(tool: string, args: string)  // the row is started, the tool not yet invoked
    | Invoked(tool: string, args: string)    // tools.invoke was called, the outcome not yet settled
    | Failing                                // the run has given the task up, its closing save not yet made

  /** Where an operator's reconcile pass stands. */
  datatype Operator =
    | Away
    | Claimed(claim: string)
    | Renewed(claim: string)
    | Running(claim: string)  // the reconcile function is executing
  {
    function Holding(): Option<string> { if Away? then None else Some(claim) }
  }

  datatype Call = Call(tool: string, args: string)

  datatype ReplayEvent = ReplayEvent(call: Call, result: Option<string>)

  datatype World = World(
    row: Option<Row>, runner: Runner, operators: map<string, Operator>, now: int,
    closed: bool,                      // the task's checkpoint is closed: no later run of it is admitted
    minted: set<string>,               // claim ids ever drawn; a fresh one never repeats
    launches: seq<Call>,               // every call of tools.invoke for this id
    returned: Option<string>,          // what the invocation gave back, once it has
    reported: Option<Option<string>>,  // what a reconciler reported as landed
    replays: set<ReplayEvent>)
  {
    function OperatorOf(op: string): Operator { if op in operators then operators[op] else Away }
  }

  const EMPTY_WORLD := World(None, Idle, map[], 0, false, {}, [], None, None, {})

  datatype ToolOutcome = Returned(result: string) | EffectUnknown | OtherError

  datatype Step =
    | Propose(tool: string, args: string)  // a run reaches this call position
    | Start
    | Expire                               // the permit ran out before the launch
    | Invoke
    | Finish(outcome: ToolOutcome)
    | Crash                                // also a closing save that did not land
    | Close                                // the closing save of a failed run, or of a run that ends the task elsewhere
    | TakeClaim(op: string, claim: string)
    | RenewClaim(op: string)
    | RunReconciler(op: string)
    | SettleClaim(op: string, landed: bool, result: Option<string>)
    | FailReconciler(op: string)
    | Vanish(op: string)
    | Wait(seconds: nat)

  /** A step of the task's run. Steps that do not apply in the current phase do nothing. */
  function RunStep(w: World, step: Step): World
  {
    match step
    case Propose(tool, args) =>
      if !w.runner.Idle? || w.closed then w
      else
        var mode := Consult(w.row, tool, args);
        w.(row := NoteIntent(w.row, tool, args),
           runner := if mode.Proceed? then Recorded(tool, args) else if mode.Replay? then Idle else Failing,
           replays := if mode.Replay? then w.replays + {ReplayEvent(Call(tool, args), mode.result)} else w.replays)
    case Start =>
      if w.runner.Recorded? then w.(row := MarkStarted(w.row), runner := Launching(w.runner.tool, w.runner.args)) else w
    case Expire =>
      if w.runner.Launching? then w.(row := Settle(w.row, Prepared, None), runner := Failing) else w
    case Invoke =>
      // The launch capability is armed only for a `started` row of this tool and these arguments.
      if !w.runner.Launching? then w
      else if w.row.Some? && w.row.value.state.Started? && w.row.value.BoundTo(w.runner.tool, w.runner.args) then
        w.(runner := Invoked(w.runner.tool, w.runner.args),
           launches := w.launches + [Call(w.runner.tool, w.runner.args)])
      else w.(runner := Failing)
    case Finish(outcome) =>
      if !w.runner.Invoked? then w
      else
        (match outcome
         case Returned(result) =>
           w.(row := Settle(w.row, Confirmed, Some(result)), runner := Idle, returned := Some(result))
         case EffectUnknown => w.(row := Settle(w.row, Unknown, None), runner := Failing)
         case OtherError => w.(runner := Failing))
    case Crash => w.(runner := Idle)
    case Close => if w.runner.Idle? || w.runner.Failing? then w.(runner := Idle, closed := true) else w
    case _ => w
  }

  /** A step of an operator's reconcile pass, or the passing of time. */
  function OperatorStep(w: World, step: Step): World
  {
    match step
    case TakeClaim(op, claim) =>
      if !w.OperatorOf(op).Away? || claim in w.minted then w
      else
        var taken := Claim(w.row, claim, w.now);
        if taken.None? then w.(minted := w.minted + {claim})
        else w.(row := taken, operators := w.operators[op := Claimed(claim)], minted := w.minted + {claim})
    case RenewClaim(op) =>
      if !w.OperatorOf(op).Claimed? then w
      else
        var claim := w.OperatorOf(op).claim;
        var renewed := Renew(w.row, claim, w.now);
        if renewed.None? then w.(operators := w.operators[op := Away])
        else w.(row := renewed, operators := w.operators[op := Renewed(claim)])
    case RunReconciler(op) =>
      // The authority runs the reconcile function only for a row this claim still owns.
      if !w.OperatorOf(op).Renewed? then w
      else
        var claim := w.OperatorOf(op).claim;
        if w.row.Some? && w.row.value.HeldBy(claim) then w.(operators := w.operators[op := Running(claim)])
        else w.(operators := w.operators[op := Away])
    case SettleClaim(op, landed, result) =>
      if !w.OperatorOf(op).Running? then w
      else
        var kept := if landed then result else None;
        var state := if landed then Confirmed else Reconciled;
        var settled := SettleFromClaim(w.row, w.OperatorOf(op).claim, state, kept, w.now);
        if settled.None? then w.(operators := w.operators[op := Away])
        else w.(row := settled, operators := w.operators[op := Away],
                reported := if landed then Some(kept) else w.reported)
    case FailReconciler(op) =>
      if !w.OperatorOf(op).Running? && !w.OperatorOf(op).Renewed? then w
      else w.(row := Release(w.row, w.OperatorOf(op).claim), operators := w.operators[op := Away])
    case Vanish(op) => w.(operators := w.operators[op := Away])
    case Wait(seconds) => w.(now := w.now + seconds)
    case _ => w
  }

  predicate IsRunStep(step: Step)
  {
    step.Propose? || step.Start? || step.Expire? || step.Invoke? || step.Finish? || step.Crash? || step.Close?
  }

  function Next(w: World, step: Step): World
  {
    if IsRunStep(step) then RunStep(w, step) else OperatorStep(w, step)
  }

  function RunAll(w: World, steps: seq<Step>): World
  {
    if steps == [] then w else Next(RunAll(w, steps[..|steps| - 1]), steps[|steps| - 1])
  }

  // ----- the invariant -------------------------------------------------------------------------------------------

  ghost predicate RowIs(row: Option<Row>, state: State, tool: string, args: string)
  {
    row.Some? && row.value.state == state && row.value.BoundTo(tool, args)
  }

  /** While a run works on the row it is in the state the run left it, bound to the run's tool and arguments. */
  ghost predicate RunnerOk(w: World)
  {
    match w.runner
    case Idle => true
    case Failing => !w.closed
    case Recorded(tool, args) => !w.closed && RowIs(w.row, Prepared, tool, args)
    case Launching(tool, args) => !w.closed && RowIs(w.row, Started, tool, args) && w.launches == []
    case Invoked(tool, args) => !w.closed && RowIs(w.row, Started, tool, args) && |w.launches| == 1
  }

  /** At most one call, made to the tool and arguments the row is bound to, and none while the row says `prepared`. */
  ghost predicate LaunchesOk(w: World)
  {
    && |w.launches| <= 1
    && (|w.launches| == 1 ==>
          w.row.Some? && !w.row.value.state.Prepared? && w.row.value.BoundTo(w.launches[0].tool, w.launches[0].args))
  }

  /** A confirmed result is what the invocation returned, or what a reconciler reported as landed. */
  ghost predicate ResultOk(w: World)
  {
    && (w.returned.Some? ==> |w.launches| == 1)
    && (w.row.Some? && w.row.value.state.Confirmed? ==>
          (w.returned.Some? && w.row.value.result == w.returned) || w.reported == Some(w.row.value.result))
  }

  ghost predicate ReplaysOk(w: World)
  {
    forall e :: e in w.replays ==>
      RowIs(w.row, Confirmed, e.call.tool, e.call.args) && w.row.value.result == e.result
  }

  /** The row, the call and the replays fit together. */
  ghost predicate RowOk(w: World) { RunnerOk(w) && LaunchesOk(w) && ResultOk(w) && ReplaysOk(w) }

  ghost predicate ClaimsOk(w: World)
  {
    && (w.row.Some? && w.row.value.claim.Some? ==> w.row.value.claim.value in w.minted)
    && (w.row.Some? && w.row.value.state.Reconciling? ==> w.row.value.claim.Some? && w.row.value.lease.Some?)
    && (forall op :: w.OperatorOf(op).Holding().Some? ==> w.OperatorOf(op).Holding().value in w.minted)
    && (forall a, b :: a != b && w.OperatorOf(a).Holding().Some? ==>
          w.OperatorOf(a).Holding() != w.OperatorOf(b).Holding())
  }

  ghost predicate Inv(w: World)
  {
    RowOk(w) && ClaimsOk(w)
  }

  // ----- every step keeps it -------------------------------------------------------------------------------------

  lemma ProposeKeeps(w: World, tool: string, args: string)
    requires Inv(w)
    ensures Inv(RunStep(w, Propose(tool, args)))
  {
    assert forall op :: RunStep(w, Propose(tool, args)).OperatorOf(op) == w.OperatorOf(op);
  }

  lemma FinishKeeps(w: World, outcome: ToolOutcome)
    requires Inv(w)
    ensures Inv(RunStep(w, Finish(outcome)))
  {
    assert forall op :: RunStep(w, Finish(outcome)).OperatorOf(op) == w.OperatorOf(op);
  }

  lemma RunStepKeeps(w: World, step: Step)
    requires Inv(w)
    ensures Inv(RunStep(w, step))
  {
    match step
    case Propose(tool, args) => ProposeKeeps(w, tool, args);
    case Finish(outcome) => FinishKeeps(w, outcome);
    case _ => assert forall op :: RunStep(w, step).OperatorOf(op) == w.OperatorOf(op);
  }

  /** Operators that keep or give up the claims they had stay distinct. */
  lemma HoldersNarrow(w: World, w': World)
    requires ClaimsOk(w)
    requires w'.minted == w.minted
    requires forall op :: w'.OperatorOf(op).Holding() == w.OperatorOf(op).Holding() || w'.OperatorOf(op).Away?
    requires w'.row.Some? && w'.row.value.claim.Some? ==> w.row.Some? && w'.row.value.claim == w.row.value.claim
    requires w'.row.Some? && w'.row.value.state.Reconciling? ==> w'.row.value.claim.Some? && w'.row.value.lease.Some?
    ensures ClaimsOk(w')
  {
  }

  /** Any other step of an operator leaves the claims to those who held them. */
  lemma OperatorStepNarrows(w: World, step: Step)
    requires Inv(w) && !step.TakeClaim?
    ensures ClaimsOk(OperatorStep(w, step))
  {
    HoldersNarrow(w, OperatorStep(w, step));
  }

  /** A row in a state no run works on and nothing was replayed from, put in another of the same binding. */
  lemma RowMoves(w: World, w': World)
    requires RowOk(w) && w.row.Some? && (w.row.value.state.Unknown? || w.row.value.state.Reconciling?)
    requires w'.runner == w.runner && w'.launches == w.launches && w'.returned == w.returned && w'.replays == w.replays
    requires w'.row.Some? && w'.row.value.BoundTo(w.row.value.tool, w.row.value.args) && w'.closed == w.closed
    requires !w'.row.value.state.Prepared?
    requires w'.row.value.state.Confirmed? ==> w'.reported == Some(w'.row.value.result)
    ensures RowOk(w')
  {
  }

  /** Nothing of the row moved. */
  lemma RowStays(w: World, w': World)
    requires RowOk(w) && w'.runner == w.runner && w'.launches == w.launches && w'.returned == w.returned
    requires w'.replays == w.replays && w'.row == w.row && w'.closed == w.closed && w'.reported == w.reported
    ensures RowOk(w')
  {
  }

  lemma SettleRow(w: World, op: string, landed: bool, result: Option<string>)
    requires RowOk(w)
    ensures RowOk(OperatorStep(w, SettleClaim(op, landed, result)))
  {
    var w' := OperatorStep(w, SettleClaim(op, landed, result));
    if w'.row != w.row || w'.reported != w.reported { RowMoves(w, w'); } else { RowStays(w, w'); }
  }

  lemma ReleaseRow(w: World, op: string)
    requires RowOk(w)
    ensures RowOk(OperatorStep(w, FailReconciler(op)))
  {
    var w' := OperatorStep(w, FailReconciler(op));
    if w'.row != w.row { RowMoves(w, w'); } else { RowStays(w, w'); }
  }

  lemma RenewRow(w: World, op: string)
    requires RowOk(w)
    ensures RowOk(OperatorStep(w, RenewClaim(op)))
  {
    var w' := OperatorStep(w, RenewClaim(op));
    if w'.row != w.row { RowMoves(w, w'); } else { RowStays(w, w'); }
  }

  /** And the row stays one the run may find. */
  lemma OperatorStepRow(w: World, step: Step)
    requires RowOk(w) && !step.TakeClaim?
    ensures RowOk(OperatorStep(w, step))
  {
    match step
    case SettleClaim(op, landed, result) => SettleRow(w, op, landed, result);
    case FailReconciler(op) => ReleaseRow(w, op);
    case RenewClaim(op) => RenewRow(w, op);
    case _ => RowStays(w, OperatorStep(w, step));
  }

  lemma TakeClaimNarrows(w: World, op: string, claim: string)
    requires ClaimsOk(w)
    ensures ClaimsOk(OperatorStep(w, TakeClaim(op, claim)))
  {
    var w' := OperatorStep(w, TakeClaim(op, claim));
    if w' != w {
      forall o ensures w'.OperatorOf(o) == w.OperatorOf(o) || w'.OperatorOf(o) == Claimed(claim) {}
    }
  }

  lemma TakeClaimKeeps(w: World, op: string, claim: string)
    requires Inv(w)
    ensures Inv(OperatorStep(w, TakeClaim(op, claim)))
  {
    var w' := OperatorStep(w, TakeClaim(op, claim));
    TakeClaimNarrows(w, op, claim);
    if w'.row != w.row { RowMoves(w, w'); } else { RowStays(w, w'); }
  }

  lemma OperatorStepKeeps(w: World, step: Step)
    requires Inv(w)
    ensures Inv(OperatorStep(w, step))
  {
    if step.TakeClaim? {
      TakeClaimKeeps(w, step.op, step.claim);
    } else {
      OperatorStepNarrows(w, step);
      OperatorStepRow(w, step);
    }
  }

  lemma {:induction false} RunKeeps(w: World, steps: seq<Step>)
    requires Inv(w)
    ensures Inv(RunAll(w, steps))
  {
    if steps != [] {
      var before := RunAll(w, steps[..|steps| - 1]);
      RunKeeps(w, steps[..|steps| - 1]);
      if IsRunStep(steps[|steps| - 1]) {
        RunStepKeeps(before, steps[|steps| - 1]);
      } else {
        OperatorStepKeeps(before, steps[|steps| - 1]);
      }
    }
  }

  // ----- the results ---------------------------------------------------------------------------------------------

  /**
    Over any runs with a crash anywhere and any reconciliations between them, the tool is invoked at most once for an
    effect id, with the tool and arguments its ledger row is bound to.
  */
  lemma InvokedAtMostOnce(steps: seq<Step>)
    ensures var w := RunAll(EMPTY_WORLD, steps);
            && |w.launches| <= 1
            && (|w.launches| == 1 ==> w.row.Some? && w.row.value.BoundTo(w.launches[0].tool, w.launches[0].args))
  {
    RunKeeps(EMPTY_WORLD, steps);
  }

  /**
    Every replay ever given was for the tool and arguments of the confirmed row, and gave back what the one
    invocation returned or what a reconciler reported as landed.
  */
  lemma ReplayIsTheRecordedResult(steps: seq<Step>, e: ReplayEvent)
    requires e in RunAll(EMPTY_WORLD, steps).replays
    ensures var w := RunAll(EMPTY_WORLD, steps);
            && RowIs(w.row, Confirmed, e.call.tool, e.call.args)
            && (|w.launches| == 1 ==> w.launches[0] == e.call)
            && ((w.returned.Some? && e.result == w.returned) || w.reported == Some(e.result))
  {
    RunKeeps(EMPTY_WORLD, steps);
  }

  ghost predicate Kept(before: World, after: World)
  {
    && after.row.Some? && before.row.Some?
    && after.row.value.BoundTo(before.row.value.tool, before.row.value.args)
    && (before.row.value.Terminal() ==> after.row == before.row)
  }

  lemma RunStepKept(w: World, step: Step)
    requires RunnerOk(w) && w.row.Some?
    ensures Kept(w, RunStep(w, step))
  {
  }

  lemma OperatorStepKept(w: World, step: Step)
    requires w.row.Some?
    ensures Kept(w, OperatorStep(w, step))
  {
  }

  /** A binding, once recorded, never changes, and a confirmed or reconciled row is never overwritten. */
  lemma {:induction false} TerminalIsForever(w: World, steps: seq<Step>)
    requires Inv(w) && w.row.Some?
    ensures Kept(w, RunAll(w, steps))
  {
    if steps != [] {
      var before := RunAll(w, steps[..|steps| - 1]);
      TerminalIsForever(w, steps[..|steps| - 1]);
      RunKeeps(w, steps[..|steps| - 1]);
      if IsRunStep(steps[|steps| - 1]) {
        RunStepKept(before, steps[|steps| - 1]);
      } else {
        OperatorStepKept(before, steps[|steps| - 1]);
      }
    }
  }

  /**
    Only the holder of the current claim settles or releases an effect: whatever step takes a row out of
    `reconciling`, it is that operator's own. And only an expired lease lets another claim replace it.
  */
  lemma OnlyTheHolderSettles(w: World, step: Step)
    requires Inv(w) && w.row.Some? && w.row.value.state.Reconciling?
    ensures var w' := Next(w, step);
            && w'.row.Some?
            && (!w'.row.value.state.Reconciling? ==>
                  && (step.SettleClaim? || step.FailReconciler?)
                  && w.OperatorOf(step.op).Holding() == w.row.value.claim
                  && (step.SettleClaim? ==> w.now < w.row.value.lease.value)
                  && (forall other :: other != step.op ==> w.OperatorOf(other).Holding() != w.row.value.claim))
            && (w'.row.value.state.Reconciling? && w'.row.value.claim != w.row.value.claim ==>
                  step.TakeClaim? && w.row.value.lease.value <= w.now)
  {
  }

  ghost predicate SettledBy(w: World, steps: seq<Step>, landed: bool)
  {
    && RunAll(w, steps).row.Some?
    && RunAll(w, steps).row.value.state == (if landed then Confirmed else Reconciled)
  }

  /** The row says `prepared` or `started`, no run is alive, and the task's checkpoint is closed. */
  ghost predicate Stuck(w: World)
  {
    && w.closed && w.runner.Idle?
    && w.row.Some? && (w.row.value.state.Prepared? || w.row.value.state.Started?)
  }

  lemma {:induction false} StuckStays(w: World, steps: seq<Step>)
    requires Stuck(w)
    ensures Stuck(RunAll(w, steps)) && RunAll(w, steps).row == w.row && RunAll(w, steps).launches == w.launches
  {
    if steps != [] {
      StuckStays(w, steps[..|steps| - 1]);
    }
  }

  /**
    Which effects can still be settled. From every reachable state with no run alive and an unsettled row there are
    steps to a settled one, whichever way the reconciler answers, exactly when the task is still open or a launch was
    already noticed: the next run of an open task turns an interrupted `started` into `unknown`, a claim that ran out
    can be taken again, and its holder can settle. Only a run turns `started` into `unknown`, so a row the task closed
    over at `started` can never be reconciled.
  */
  lemma NothingStranded(w: World, landed: bool)
    requires Inv(w) && w.row.Some? && !w.row.value.Terminal() && w.runner.Idle?
    ensures (exists steps :: SettledBy(w, steps, landed)) <==>
            !(w.closed && (w.row.value.state.Prepared? || w.row.value.state.Started?))
  {
    if Stuck(w) {
      forall steps ensures !SettledBy(w, steps, landed) { StuckStays(w, steps); }
    } else {
      var steps := Settling(w, landed);
      assert SettledBy(w, steps, landed);
    }
  }

  /** The first of several steps. */
  lemma {:induction false} StepFirst(w: World, step: Step, rest: seq<Step>)
    ensures RunAll(w, [step] + rest) == RunAll(Next(w, step), rest)
  {
    if rest == [] {
      assert ([step] + rest)[..0] == [];
    } else {
      assert ([step] + rest)[..|rest|] == [step] + rest[..|rest| - 1];
      StepFirst(w, step, rest[..|rest| - 1]);
    }
  }

  lemma Settling(w: World, landed: bool) returns (steps: seq<Step>)
    requires Inv(w) && w.row.Some? && !w.row.value.Terminal() && w.runner.Idle? && !Stuck(w)
    ensures SettledBy(w, steps, landed)
  {
    if w.row.value.state.Prepared? {
      steps := LaunchAndSettle(w, landed);
    } else if w.row.value.state.Started? {
      steps := NoticeAndSettle(w, landed);
    } else {
      steps := PassSettles(w, landed);
    }
  }

  /** A run takes up a recorded intent, marks it started and dies; the next one notices. */
  lemma LaunchAndSettle(w: World, landed: bool) returns (steps: seq<Step>)
    requires w.row.Some? && w.row.value.state.Prepared? && w.runner.Idle? && !w.closed
    ensures SettledBy(w, steps, landed)
  {
    var propose := Propose(w.row.value.tool, w.row.value.args);
    var proposed := Next(w, propose);
    assert proposed.runner.Recorded? && proposed.row.value.state.Prepared?;
    var started := Next(proposed, Start);
    var lost := Next(started, Crash);
    var more := NoticeAndSettle(lost, landed);
    StepFirst(started, Crash, more);
    StepFirst(proposed, Start, [Crash] + more);
    StepFirst(w, propose, [Start] + ([Crash] + more));
    steps := [propose] + ([Start] + ([Crash] + more));
  }

  lemma NoticeAndSettle(w: World, landed: bool) returns (steps: seq<Step>)
    requires w.row.Some? && w.row.value.state.Started? && w.runner.Idle? && !w.closed
    ensures SettledBy(w, steps, landed)
  {
    var notice := Propose("", "");
    assert Next(w, notice).row.value.state.Unknown?;
    var more := PassSettles(Next(w, notice), landed);
    StepFirst(w, notice, more);
    steps := [notice] + more;
  }

  /** The steps of a call whose arguments are refused inside the invocation, and of a crash and a later close. */
  function RefusedInside(tool: string, args: string): seq<Step>
  {
    [Propose(tool, args), Start, Invoke, Finish(OtherError), Close]
  }

  function LostThenClosed(tool: string, args: string): seq<Step> { [Propose(tool, args), Start, Crash, Close] }

  /** A launch recorded as started in a world where nothing else happened. */
  function JustStarted(tool: string, args: string): World
  {
    EMPTY_WORLD.(row := Some(Row(tool, args, Started, None, None, None)), runner := Launching(tool, args))
  }

  /**
    The inputs that strand an effect. A tool whose arguments are refused inside the invocation fails the task with its
    row at `started`; and a run that died after the launch was recorded leaves the row there too, for a later run to
    close the task over. Neither row is ever settled.
  */
  lemma ClosedOverStarted(tool: string, args: string, more: seq<Step>)
    ensures var refused := RunAll(EMPTY_WORLD, RefusedInside(tool, args) + more);
            refused.closed && RowIs(refused.row, Started, tool, args)
    ensures var lost := RunAll(EMPTY_WORLD, LostThenClosed(tool, args) + more);
            lost.closed && RowIs(lost.row, Started, tool, args)
  {
    var started := JustStarted(tool, args);
    StartedFirst(tool, args, [Invoke, Finish(OtherError), Close] + more, started);
    assert RefusedInside(tool, args) + more ==
        [Propose(tool, args)] + ([Start] + ([Invoke, Finish(OtherError), Close] + more));
    RefusedSticks(started, tool, args, more);
    StartedFirst(tool, args, [Crash, Close] + more, started);
    assert LostThenClosed(tool, args) + more == [Propose(tool, args)] + ([Start] + ([Crash, Close] + more));
    LostSticks(started, tool, args, more);
  }

  lemma StartedFirst(tool: string, args: string, rest: seq<Step>, started: World)
    requires started == JustStarted(tool, args)
    ensures RunAll(EMPTY_WORLD, [Propose(tool, args)] + ([Start] + rest)) == RunAll(started, rest)
  {
    var proposed := Next(EMPTY_WORLD, Propose(tool, args));
    assert Next(proposed, Start) == started;
    StepFirst(EMPTY_WORLD, Propose(tool, args), [Start] + rest);
    StepFirst(proposed, Start, rest);
  }

  lemma RefusedSticks(w: World, tool: string, args: string, more: seq<Step>)
    requires w.runner == Launching(tool, args) && RowIs(w.row, Started, tool, args)
    ensures var after := RunAll(w, [Invoke, Finish(OtherError), Close] + more);
            after.closed && RowIs(after.row, Started, tool, args)
  {
    var invoked := Next(w, Invoke);
    FailureSticks(invoked, tool, args, more);
    StepFirst(w, Invoke, [Finish(OtherError)] + ([Close] + more));
    assert [Invoke, Finish(OtherError), Close] + more == [Invoke] + ([Finish(OtherError)] + ([Close] + more));
  }

  lemma FailureSticks(w: World, tool: string, args: string, more: seq<Step>)
    requires w.runner == Invoked(tool, args) && RowIs(w.row, Started, tool, args)
    ensures var after := RunAll(w, [Finish(OtherError)] + ([Close] + more));
            after.closed && RowIs(after.row, Started, tool, args)
  {
    var failing := Next(w, Finish(OtherError));
    StuckStays(Next(failing, Close), more);
    StepFirst(failing, Close, more);
    StepFirst(w, Finish(OtherError), [Close] + more);
  }

  lemma LostSticks(w: World, tool: string, args: string, more: seq<Step>)
    requires RowIs(w.row, Started, tool, args)
    ensures var after := RunAll(w, [Crash, Close] + more); after.closed && RowIs(after.row, Started, tool, args)
  {
    var lost := Next(w, Crash);
    var closed := Next(lost, Close);
    StuckStays(closed, more);
    StepFirst(lost, Close, more);
    StepFirst(w, Crash, [Close] + more);
    assert [Crash, Close] + more == [Crash] + ([Close] + more);
  }

  /** No finite set of names holds every name. */
  lemma {:induction false} UnusedName(names: set<string>) returns (name: string)
    ensures forall n :: n in names ==> |n| < |name|
    ensures name !in names
  {
    if names == {} {
      name := "";
    } else {
      var n :| n in names;
      var longer := UnusedName(names - {n});
      name := if |n| < |longer| then longer else n + "a";
      assert forall m :: m in names ==> m == n || m in names - {n};
    }
  }

  /** An operator nobody has seen takes the claim once its lease is over, renews it and settles. */
  lemma PassSettles(w: World, landed: bool) returns (steps: seq<Step>)
    requires w.row.Some? && (w.row.value.state.Unknown? || w.row.value.state.Reconciling?)
    ensures SettledBy(w, steps, landed)
  {
    var op := UnusedName(w.operators.Keys);
    var claim := UnusedName(w.minted);
    var lease := w.row.value.lease;
    var delay := if lease.Some? && lease.value > w.now then lease.value - w.now else 0;
    var later := Next(w, Wait(delay));
    var claimed := Next(later, TakeClaim(op, claim));
    assert claimed.OperatorOf(op) == Claimed(claim) && claimed.row.value.HeldBy(claim);
    var more := HolderSettles(claimed, op, claim, landed);
    StepFirst(later, TakeClaim(op, claim), more);
    StepFirst(w, Wait(delay), [TakeClaim(op, claim)] + more);
    steps := [Wait(delay)] + ([TakeClaim(op, claim)] + more);
  }

  lemma HolderSettles(w: World, op: string, claim: string, landed: bool) returns (steps: seq<Step>)
    requires w.OperatorOf(op) == Claimed(claim) && w.row.Some? && w.row.value.HeldBy(claim)
    ensures SettledBy(w, steps, landed)
  {
    var renewed := Next(w, RenewClaim(op));
    assert renewed.OperatorOf(op) == Renewed(claim) && renewed.row.value.HeldBy(claim);
    assert renewed.row.value.lease.value == renewed.now + LEASE_SECONDS;
    var running := Next(renewed, RunReconciler(op));
    assert running.OperatorOf(op) == Running(claim) && running.row == renewed.row;
    var settle := SettleClaim(op, landed, None);
    StepFirst(running, settle, []);
    StepFirst(renewed, RunReconciler(op), [settle] + []);
    StepFirst(w, RenewClaim(op), [RunReconciler(op)] + ([settle] + []));
    steps := [RenewClaim(op)] + ([RunReconciler(op)] + ([settle] + []));
  }
}
