/** The run loop as the host executes it, changing the task's state, authority and log in place. */
module RunHost {
  import opened Options
  import opened Json
  import opened Constraints
  import opened Authority
  import opened Checkpoints
  import opened RunLoop
  import opened RunResults

  /** The first `n` answers. */
  function Taken(turns: nat -> Turn, n: nat): seq<Turn>
  {
    if n == 0 then [] else Taken(turns, n - 1) + [turns(n - 1)]
  }

  lemma OneMoreTurn(run: Run, turns: nat -> Turn, used: nat, lib: Library)
    ensures RunAll(run, Taken(turns, used + 1), lib) == Next(RunAll(run, Taken(turns, used), lib), turns(used), lib)
  {
    var more := Taken(turns, used + 1);
    assert more[..|more| - 1] == Taken(turns, used);
  }

  class TaskRun {
    var setup: Setup
    var auth: Auth
    var work: Work
    var log: Log
    var phase: Phase

    constructor (run: Run)
      ensures View() == run
    {
      setup, auth, work, log, phase := run.setup, run.auth, run.work, run.log, run.phase;
    }

    /** The run this object is in the middle of. */
    function View(): Run
      reads this
    {
      Run(setup, auth, work, log, phase)
    }

    /** `_persist`: refuses an oversized checkpoint and changes nothing. */
    method Persist(closed: bool) returns (ok: bool)
      modifies this`work
      ensures ok == Fits(old(work).state, auth)
      ensures work == if ok then Saved(old(work), closed) else old(work)
    {
      ok := Size(work.state) <= auth.effective.budget.maxOutputBytes;
      if ok {
        work := work.(saved := Checkpoint(work.state, closed), fitted := work.state);
        work := work.(state := work.state.(generation := work.state.generation + 1));
      }
    }

    /** `_terminalize_over_budget`: drop the working state, settle an unsettled one, drop the result if it must go. */
    method TerminalizeOverBudget(toolRan: bool, end: End)
      requires !Fits(work.state, auth)
      modifies this`work, this`phase
      ensures View() == Close(old(View()), toolRan, end)
    {
      var state := work.state.(memory := "{}", messages := []);
      if toolRan && state.status == Running {
        state := state.(status := Failed, result := Error(OutputRefused));
      }
      if Size(state) > auth.effective.budget.maxOutputBytes {
        state := state.(result := NullResult);
      }
      work := work.(state := state);
      var ok := Persist(true);
      phase := Ended(if ok then end else CloseRefused);
    }

    /** Every exit that closes the task: as it is when it fits, else as a tombstone. */
    method CloseTask(toolRan: bool, end: End)
      modifies this`work, this`phase
      ensures View() == Close(old(View()), toolRan, end)
    {
      if Size(work.state) <= auth.effective.budget.maxOutputBytes {
        var ok := Persist(true);
        phase := Ended(end);
      } else {
        TerminalizeOverBudget(toolRan, end);
      }
    }

    /** `_recheck_reloaded_policy`: adopts a changed policy, or refuses and keeps the authority the run had. */
    method RecheckPolicy(reload: Reload) returns (ok: bool)
      modifies this`auth, this`work
      ensures var checked := Recheck(old(auth), old(work).state, setup.envelope, reload);
              && ok == checked.Some?
              && View() == (if ok then Adopt(old(View()), checked.value, phase) else old(View()))
    {
      if reload == Unchanged { return true; }
      if reload == LoadFails { return false; }
      if reload.policy == Latest(auth.active) { return true; }
      var permit := Effective(reload.policy, setup.envelope, reload.at);
      if permit == None { return false; }
      var narrowed := Narrow(auth.effective, permit.value);
      if work.state.step >= narrowed.budget.maxSteps { return false; }
      if Size(work.state) > narrowed.budget.maxOutputBytes { return false; }
      auth := Auth(Reloaded(auth.active, reload.policy), narrowed);
      work := work.(fitted := work.state);
      return true;
    }

    /** The save at the end of a step. */
    method EndStep(finished: bool, toolRan: bool, cancelled: bool)
      modifies this`work, this`log, this`phase
      ensures View() == SaveStep(old(View()), finished, toolRan, cancelled)
    {
      var closes := log.handoff.Some? || work.state.status == Completed || work.state.status == Failed;
      work := work.(state := work.state.(step := work.state.step + 1));
      var fits := Size(work.state) <= auth.effective.budget.maxOutputBytes;
      if !fits && !toolRan && !closes {
        phase := Ended(AwaitRefused);
        return;
      }
      if !fits && cancelled && log.handoff.Some? && Fits(Collapsed(work.state, toolRan, auth), auth) {
        work := work.(state := Collapsed(work.state, toolRan, auth));
        Cancel();
        return;
      }
      if fits && cancelled && (log.handoff.Some? || !closes) {
        Cancel();
        return;
      }
      if closes || !fits {
        phase := Closing(toolRan, Returned);
        return;
      }
      var ok := Persist(false);
      phase := if finished then Ended(Returned) else Asking;
    }

    /** `_close_cancelled`, up to its save. */
    method Cancel()
      modifies this`work, this`log, this`phase
      ensures View() == CloseCancelled(old(View()))
    {
      log := log.(handoff := None);
      work := work.(state := work.state.(status := Failed, result := Error(TaskCancelled)));
      phase := Closing(false, Returned);
    }

    /** The top of the loop. */
    method AskProvider(turn: Turn)
      requires phase == Asking
      modifies this`auth, this`work, this`log, this`phase
      ensures View() == Ask(old(View()), turn)
    {
      if work.state.step >= auth.effective.budget.maxSteps {
        work := work.(state := work.state.(status := Failed, result := Error(StepsExhausted)));
        phase := Closing(false, Returned);
        return;
      }
      var ok := RecheckPolicy(turn.reload);
      if ok && turn.decision.Some? {
        log := log.(answer := turn.decision);
        phase := Answered(turn.decision.value);
      } else {
        work := work.(state := work.state.(status := Failed, result := Error(ProviderFailed)));
        phase := Closing(false, Raised);
      }
    }

    /** A decision the host refuses: the task fails, and the caller sees the error. */
    method RefuseDecision(expired: bool, toolRan: bool)
      modifies this`work, this`phase
      ensures View() == Refuse(old(View()), expired, toolRan)
    {
      var message := if expired then PermitExpired else DecisionRefused;
      work := work.(state := work.state.(status := Failed, result := Error(message)));
      phase := Closing(toolRan, Raised);
    }

    /** A step that decides the task, one way or another. */
    method Conclude(status: Status, result: Result)
      modifies this`work, this`phase
      ensures View() == Settled(old(View()), status, result)
    {
      work := work.(state := work.state.(status := status, result := result));
      phase := Saving(true, false);
    }

    /** Content the provider decided with, unless it cannot be encoded. */
    method ConcludeWith(status: Status, content: Option<string>)
      modifies this`work, this`phase
      ensures View() == Finish(old(View()), status, content)
    {
      if content.Some? {
        Conclude(status, Content(content.value));
      } else {
        Conclude(Failed, Error(NotSerializable));
      }
    }

    /** Between the provider's answer and its effect: the cancellation, the shape of the decision, the policy. */
    method ReadDecision(d: Decision, turn: Turn)
      modifies this`auth, this`work, this`log, this`phase
      ensures View() == CheckAgain(old(View()), d, turn)
    {
      if turn.cancel == Cancelled {
        Cancel();
        return;
      }
      if turn.cancel == ReadFails || d.Malformed? {
        RefuseDecision(false, false);
        return;
      }
      var ok := RecheckPolicy(turn.reload);
      if ok {
        phase := Deciding(d);
      } else {
        RefuseDecision(false, false);
      }
    }

    /** The tool branch of `_apply_decision`, up to and including the approval gate. */
    method PassGates(tool: string, args: map<string, Json>, turn: Turn)
      modifies this`work, this`phase
      ensures View() == GateTool(old(View()), tool, args, turn)
    {
      if work.state.toolCalls >= auth.effective.budget.maxToolCalls || |tool| == 0 || tool !in auth.effective.grants {
        RefuseDecision(false, false);
        return;
      }
      if !RequiresApproval(auth.active, tool, tool in setup.sideEffecting) {
        phase := Launching(tool, args, false);
        return;
      }
      match turn.approval {
        case NoToken(request) => Conclude(AwaitingInput, Content(request));
        case Denied => Conclude(Failed, Error(ApprovalRejected));
        case GateRaises => RefuseDecision(false, false);
        case Approved(memory) =>
          work := work.(state := work.state.(memory := memory));
          if turn.cancel == Cancelled {
            Conclude(Failed, Error(ApprovalRejected));
          } else {
            phase := Launching(tool, args, true);
          }
      }
    }

    /** The migration branch: authorized before the preflight and after it, and only then released. */
    method HandOff(d: Decision)
      requires d.Migrate?
      modifies this`work, this`log, this`phase
      ensures View() == DecideMigration(old(View()), d)
    {
      var delegation := setup.envelope.delegation;
      if |d.destination| == 0 || !AuthorizesMigration(auth.active, delegation, d.destination) || !d.attested {
        RefuseDecision(false, false);
        return;
      }
      var under := auth;
      if d.preflight.Some? {
        var checked := Recheck(auth, work.state, setup.envelope, d.preflight.value);
        if checked == None {
          RefuseDecision(false, false);
          return;
        }
        under := checked.value;
      }
      if !AuthorizesMigration(under.active, delegation, d.destination) {
        RefuseDecision(false, false);
        return;
      }
      log := log.(handoff := Some(Handoff(d.destination, under.effective, under.active)));
      work := work.(state := work.state.(memory := d.memory));
      Conclude(Ready, Content(d.result));
    }

    /** `_apply_decision`. */
    method ApplyDecision(d: Decision, turn: Turn)
      modifies this`work, this`log, this`phase
      ensures View() == Decide(old(View()), d, turn)
    {
      if auth.effective.expiresAt <= turn.at {
        RefuseDecision(true, false);
        return;
      }
      match d {
        case UseTool(tool, args) => PassGates(tool, args, turn);
        case Complete(content) => ConcludeWith(Completed, content);
        case AwaitInput(content) => ConcludeWith(AwaitingInput, content);
        case Fail(content) => ConcludeWith(Failed, content);
        case Migrate(_, _, _, _, _) => HandOff(d);
        case Malformed => RefuseDecision(false, false);
      }
    }

    /** The counted call, its result in the memory and the messages. */
    method Record(tool: string, memory: string, content: string)
      modifies this`work, this`phase
      ensures View() == To(old(View()), Received(old(work).state, tool, memory, content), Saving(false, true))
    {
      var state := work.state.(toolCalls := work.state.toolCalls + 1);
      state := state.(memory := memory);
      state := state.(messages := state.messages + [ToolNote(tool, content)]);
      work := work.(state := state);
      phase := Saving(false, true);
    }

    /** `tools.invoke` and what the host makes of its outcome. */
    method InvokeTool(tool: string, args: map<string, Json>, approved: bool, at: int, outcome: ToolOutcome,
                      lib: Library)
      modifies this`work, this`log, this`phase
      ensures View() == Invoke(old(View()), tool, args, approved, at, outcome, lib)
    {
      log := log.(invocations := log.invocations + 1);
      if tool !in auth.effective.grants || !Admits(auth.effective.grants[tool].constraints, args, lib) {
        RefuseDecision(false, false);
        return;
      }
      log := log.(executions := log.executions + [Execution(tool, args, at, approved, auth.active)]);
      match outcome {
        case FailsCleanly(result) => Conclude(Failed, Content(result));
        case Raises(counted) =>
          if counted {
            work := work.(state := work.state.(toolCalls := work.state.toolCalls + 1));
          }
          RefuseDecision(false, counted);
        case Succeeds(memory, content) => Record(tool, memory, content);
      }
    }

    /** From the last authority checks to the tool, or to the recorded result of an earlier call. */
    method StartTool(tool: string, args: map<string, Json>, approved: bool, turn: Turn, lib: Library)
      modifies this`work, this`log, this`phase
      ensures View() == LaunchTool(old(View()), tool, args, approved, turn, lib)
    {
      if auth.effective.expiresAt <= turn.at {
        RefuseDecision(true, false);
        return;
      }
      match turn.launch {
        case LedgerRefuses => Conclude(Failed, Error(EffectRefused));
        case Replays(memory, content) =>
          log := log.(replays := log.replays + 1);
          if |content| > auth.effective.budget.maxOutputBytes {
            Conclude(Failed, Error(NotSerializable));
          } else {
            Record(tool, memory, content);
          }
        case Launches(outcome) =>
          if auth.effective.expiresAt <= turn.launchAt {
            RefuseDecision(true, false);
          } else {
            InvokeTool(tool, args, approved, turn.launchAt, outcome, lib);
          }
      }
    }

    /** One phase. */
    method Advance(turn: Turn, lib: Library)
      requires !phase.Ended?
      modifies this
      ensures View() == Next(old(View()), turn, lib)
    {
      match phase {
        case Asking => AskProvider(turn);
        case Answered(d) => ReadDecision(d, turn);
        case Deciding(d) => ApplyDecision(d, turn);
        case Launching(tool, args, approved) => StartTool(tool, args, approved, turn, lib);
        case Saving(finished, toolRan) => EndStep(finished, toolRan, turn.cancel.Cancelled?);
        case Closing(toolRan, end) => CloseTask(toolRan, end);
      }
    }

    /** `run`: the loop, which ends whatever the environment answers, in the state its phases lead to. */
    method Execute(turns: nat -> Turn, lib: Library) returns (end: End, used: nat)
      requires Underway(View())
      modifies this
      ensures phase == Ended(end)
      ensures View() == RunAll(old(View()), Taken(turns, used), lib)
      ensures used <= old(PhasesLeft(View()))
    {
      ghost var start := View();
      used := 0;
      while !phase.Ended?
        invariant Underway(View())
        invariant View() == RunAll(start, Taken(turns, used), lib)
        invariant used + PhasesLeft(View()) <= PhasesLeft(start)
        decreases PhasesLeft(View())
      {
        PhaseDecreases(View(), turns(used), lib);
        OneMoreTurn(start, turns, used, lib);
        Advance(turns(used), lib);
        used := used + 1;
      }
      end := phase.end;
    }
  }
}
