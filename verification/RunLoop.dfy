/**
  One run of an admitted task: the step loop, what a decision may do, how every exit closes the checkpoint, and the
  collapse of an oversized terminal state to a tombstone. The loop body is cut into phases at the points where the
  environment (the policy loader, the provider, the store, clocks, approvals, tools) answers; each answer comes in
  through a `Turn`. Saves that fail for other reasons than size or a cancellation, and abandoned runs, are not part of
  this model.
*/
module RunLoop {
  import opened Options
  import opened Json
  import opened Constraints
  import opened Authority
  import opened Checkpoints

  // ----- what the environment answers ------------------------------------------------------------------------

  datatype Reload = Unchanged | LoadFails | Loaded(policy: Policy, at: int)

  datatype Decision =
    | UseTool(tool: string, args: map<string, Json>)
    | Complete(content: Option<string>)    // None: the content cannot be encoded
    | AwaitInput(content: Option<string>)
    | Migrate(destination: string, attested: bool, preflight: Option<Reload>, memory: string, result: string)
    | Fail(content: Option<string>)
    | Malformed

  datatype Approval = NoToken(request: string) | Denied | GateRaises | Approved(memory: string)

  datatype ToolOutcome =
    | Succeeds(memory: string, content: string)
    | FailsCleanly(result: string)   // killed, failed, or its output cannot be encoded
    | Raises(counted: bool)          // any other error; `counted` when it came after the call was counted

  datatype Launch = LedgerRefuses | Replays(memory: string, content: string) | Launches(outcome: ToolOutcome)

  datatype CancelRead = NotCancelled | Cancelled | ReadFails

  /** What the environment answers at one phase; each phase reads the fields it needs. */
  datatype Turn = Turn(
    reload: Reload, decision: Option<Decision>,  // None: the provider failed
    cancel: CancelRead, approval: Approval, launch: Launch, at: int, launchAt: int)

  // ----- the run ---------------------------------------------------------------------------------------------

  datatype Checkpoint = Checkpoint(state: AgentState, closed: bool)

  /** A tool execution: when, under which policies, and whether an approval was redeemed for it. */
  datatype Execution = Execution(tool: string, args: map<string, Json>, at: int, approved: bool, under: Active)

  /** A migration handed to the outbox. */
  datatype Handoff = Handoff(destination: string, permit: Permit, under: Active)

  /** How `run` ended: a result, an error after the task was closed, or an error with the checkpoint left open. */
  datatype End = Returned | Raised | CloseRefused | AwaitRefused

  datatype Phase =
    | Asking                                                            // the top of the loop
    | Answered(decision: Decision)                                      // the provider has answered
    | Deciding(decision: Decision)                                      // the policy was checked again
    | Launching(tool: string, args: map<string, Json>, approved: bool)  // past the approval gate
    | Saving(finished: bool, toolRan: bool)                             // the decision was applied
    | Closing(toolRan: bool, end: End)                                  // the state is terminal, not yet saved
    | Ended(end: End)

  datatype Setup = Setup(envelope: Envelope, sideEffecting: set<string>)

  datatype Auth = Auth(active: Active, effective: Permit)

  /** `fitted` is the last state that passed the size check under the current ceiling. */
  datatype Work = Work(state: AgentState, saved: Checkpoint, fitted: AgentState)

  /** `answer` is the provider's latest decision. */
  datatype Log = Log(
    executions: seq<Execution>, invocations: nat, replays: nat, handoff: Option<Handoff>, answer: Option<Decision>)

  datatype Run = Run(setup: Setup, auth: Auth, work: Work, log: Log, phase: Phase)

  predicate Fits(state: AgentState, auth: Auth) { Size(state) <= auth.effective.budget.maxOutputBytes }

  /** The run with a new state in a new phase. */
  function To(run: Run, state: AgentState, phase: Phase): Run
  {
    run.(work := run.work.(state := state), phase := phase)
  }

  /** A terminal state, to be saved closed. */
  function FailWith(run: Run, message: Message, toolRan: bool, end: End): Run
  {
    To(run, run.work.state.(status := Failed, result := Error(message)), Closing(toolRan, end))
  }

  function Refuse(run: Run, expired: bool, toolRan: bool): Run
  {
    FailWith(run, if expired then PermitExpired else DecisionRefused, toolRan, Raised)
  }

  // ----- saving and closing ----------------------------------------------------------------------------------

  /** A save that passed the size check of `_persist`; the store hands back the next generation. */
  function Saved(work: Work, closed: bool): Work
  {
    Work(work.state.(generation := work.state.generation + 1), Checkpoint(work.state, closed), work.state)
  }

  /** The working state dropped; a tool whose result overflowed an unsettled state becomes a failure. */
  function Emptied(state: AgentState, toolRan: bool): AgentState
  {
    var emptied := state.(memory := "{}", messages := []);
    if toolRan && state.status.Running? then emptied.(status := Failed, result := Error(OutputRefused)) else emptied
  }

  /** The state `_terminalize_over_budget` tries to save. */
  function Collapsed(state: AgentState, toolRan: bool, auth: Auth): AgentState
  {
    var emptied := Emptied(state, toolRan);
    if Fits(emptied, auth) then emptied else emptied.(result := NullResult)
  }

  /** A closing save that must not strand the task: as it is when it fits, else collapsed. */
  function Close(run: Run, toolRan: bool, end: End): Run
  {
    var state := if Fits(run.work.state, run.auth) then run.work.state
                 else Collapsed(run.work.state, toolRan, run.auth);
    var work := run.work.(state := state);
    if Fits(state, run.auth) then run.(work := Saved(work, true), phase := Ended(end))
    else run.(work := work, phase := Ended(CloseRefused))
  }

  /** `_close_cancelled`: a cancelled task does not leave through the outbox. */
  function CloseCancelled(run: Run): Run
  {
    FailWith(run.(log := run.log.(handoff := None)), TaskCancelled, false, Returned)
  }

  predicate Closes(run: Run)
  {
    run.log.handoff.Some? || run.work.state.status.Completed? || run.work.state.status.Failed?
  }

  /**
    The save at the end of a step. The store refuses an open save, and a migration, of a cancelled task. An oversized
    wait for input can be neither saved nor shrunk, and raises.
  */
  function SaveStep(run: Run, finished: bool, toolRan: bool, cancelled: bool): Run
  {
    var state := run.work.state.(step := run.work.state.step + 1);
    var stepped := run.(work := run.work.(state := state));
    if !Fits(state, run.auth) then
      if !toolRan && !Closes(run) then stepped.(phase := Ended(AwaitRefused))
      else if cancelled && run.log.handoff.Some? && Fits(Collapsed(state, toolRan, run.auth), run.auth) then
        CloseCancelled(To(stepped, Collapsed(state, toolRan, run.auth), run.phase))
      else stepped.(phase := Closing(toolRan, Returned))
    else if cancelled && (run.log.handoff.Some? || !Closes(run)) then CloseCancelled(stepped)
    else if Closes(run) then stepped.(phase := Closing(toolRan, Returned))
    else stepped.(work := Saved(stepped.work, false), phase := if finished then Ended(Returned) else Asking)
  }

  // ----- a reloaded policy -----------------------------------------------------------------------------------

  /** `_recheck_reloaded_policy`; None raises, and the run keeps the authority it had. */
  function Recheck(auth: Auth, state: AgentState, envelope: Envelope, reload: Reload): Option<Auth>
  {
    match reload
    case Unchanged => Some(auth)
    case LoadFails => None
    case Loaded(policy, at) =>
      if policy == Latest(auth.active) then Some(auth)
      else
        match Effective(policy, envelope, at)
        case None => None
        case Some(permit) =>
          var narrowed := Auth(Reloaded(auth.active, policy), Narrow(auth.effective, permit));
          if state.step >= narrowed.effective.budget.maxSteps || !Fits(state, narrowed) then None else Some(narrowed)
  }

  /** An adopted ceiling has just been seen to admit the state. */
  function Adopt(run: Run, auth: Auth, phase: Phase): Run
  {
    run.(auth := auth, phase := phase,
         work := if auth == run.auth then run.work else run.work.(fitted := run.work.state))
  }

  // ----- the phases of a step --------------------------------------------------------------------------------

  /** The loop test, the first policy check and the provider call. */
  function Ask(run: Run, turn: Turn): Run
  {
    if run.work.state.step >= run.auth.effective.budget.maxSteps then FailWith(run, StepsExhausted, false, Returned)
    else
      match Recheck(run.auth, run.work.state, run.setup.envelope, turn.reload)
      case None => FailWith(run, ProviderFailed, false, Raised)
      case Some(auth) =>
        if turn.decision.None? then FailWith(Adopt(run, auth, run.phase), ProviderFailed, false, Raised)
        else Adopt(run.(log := run.log.(answer := turn.decision)), auth, Answered(turn.decision.value))
  }

  /** After the answer: a cancellation drops the decision unread; then the policy is checked again. */
  function CheckAgain(run: Run, d: Decision, turn: Turn): Run
  {
    if turn.cancel.Cancelled? then CloseCancelled(run)
    else if turn.cancel.ReadFails? || d.Malformed? then Refuse(run, false, false)
    else
      match Recheck(run.auth, run.work.state, run.setup.envelope, turn.reload)
      case None => Refuse(run, false, false)
      case Some(auth) => Adopt(run, auth, Deciding(d))
  }

  function Settled(run: Run, status: Status, result: Result): Run
  {
    To(run, run.work.state.(status := status, result := result), Saving(true, false))
  }

  function Finish(run: Run, status: Status, content: Option<string>): Run
  {
    if content.None? then Settled(run, Failed, Error(NotSerializable)) else Settled(run, status, Content(content.value))
  }

  /** The guards of the tool branch, up to and including the approval gate. */
  function GateTool(run: Run, tool: string, args: map<string, Json>, turn: Turn): Run
  {
    if run.work.state.toolCalls >= run.auth.effective.budget.maxToolCalls then Refuse(run, false, false)
    else if |tool| == 0 || tool !in run.auth.effective.grants then Refuse(run, false, false)
    else if !RequiresApproval(run.auth.active, tool, tool in run.setup.sideEffecting) then
      run.(phase := Launching(tool, args, false))
    else match turn.approval
      case NoToken(request) => Settled(run, AwaitingInput, Content(request))
      case Denied => Settled(run, Failed, Error(ApprovalRejected))
      case GateRaises => Refuse(run, false, false)
      case Approved(memory) =>
        var redeemed := run.work.state.(memory := memory);
        if turn.cancel.Cancelled? then
          To(run, redeemed.(status := Failed, result := Error(ApprovalRejected)), Saving(true, false))
        else To(run, redeemed, Launching(tool, args, true))
  }

  /**
    A preflight reaches the destination, so the policy is checked once more before anything is released. What that
    check narrows goes into the handed-off permit; the closing save still runs under the run's own authority.
  */
  function DecideMigration(run: Run, d: Decision): Run
    requires d.Migrate?
  {
    var delegation := run.setup.envelope.delegation;
    if |d.destination| == 0 || !AuthorizesMigration(run.auth.active, delegation, d.destination) || !d.attested
      then Refuse(run, false, false)
    else
      match (if d.preflight.Some? then Recheck(run.auth, run.work.state, run.setup.envelope, d.preflight.value)
             else Some(run.auth))
      case None => Refuse(run, false, false)
      case Some(auth) =>
        if !AuthorizesMigration(auth.active, delegation, d.destination) then Refuse(run, false, false)
        else To(run.(log := run.log.(handoff := Some(Handoff(d.destination, auth.effective, auth.active)))),
                run.work.state.(memory := d.memory, status := Ready, result := Content(d.result)), Saving(true, false))
  }

  function Decide(run: Run, d: Decision, turn: Turn): Run
  {
    if run.auth.effective.expiresAt <= turn.at then Refuse(run, true, false)
    else match d
      case UseTool(tool, args) => GateTool(run, tool, args, turn)
      case Complete(content) => Finish(run, Completed, content)
      case AwaitInput(content) => Finish(run, AwaitingInput, content)
      case Fail(content) => Finish(run, Failed, content)
      case Migrate(_, _, _, _, _) => DecideMigration(run, d)
      case Malformed => Refuse(run, false, false)
  }

  function Counted(state: AgentState): AgentState { state.(toolCalls := state.toolCalls + 1) }

  /** The step of a tool that gave a result: the call counted, the memory updated, the result in the messages. */
  function Received(state: AgentState, tool: string, memory: string, content: string): AgentState
  {
    Counted(state).(memory := memory, messages := state.messages + [ToolNote(tool, content)])
  }

  /** `tools.invoke`: the arguments are checked against the grant before anything executes. */
  function Invoke(run: Run, tool: string, args: map<string, Json>, approved: bool, at: int, outcome: ToolOutcome,
                  lib: Library): Run
  {
    var called := run.(log := run.log.(invocations := run.log.invocations + 1));
    if tool !in run.auth.effective.grants || !Admits(run.auth.effective.grants[tool].constraints, args, lib) then
      Refuse(called, false, false)
    else
      var execution := Execution(tool, args, at, approved, run.auth.active);
      var ran := called.(log := called.log.(executions := run.log.executions + [execution]));
      match outcome
      case FailsCleanly(result) => Settled(ran, Failed, Content(result))
      case Raises(counted) =>
        if counted then Refuse(To(ran, Counted(run.work.state), run.phase), false, true) else Refuse(ran, false, false)
      case Succeeds(memory, content) =>
        To(ran, Received(run.work.state, tool, memory, content), Saving(false, true))
  }

  /** From the last authority checks to the tool: the ledger may refuse, or replay a confirmed result. */
  function LaunchTool(run: Run, tool: string, args: map<string, Json>, approved: bool, turn: Turn, lib: Library): Run
  {
    if run.auth.effective.expiresAt <= turn.at then Refuse(run, true, false)
    else match turn.launch
      case LedgerRefuses => Settled(run, Failed, Error(EffectRefused))
      case Replays(memory, content) =>
        var replayed := run.(log := run.log.(replays := run.log.replays + 1));
        if |content| > run.auth.effective.budget.maxOutputBytes then Settled(replayed, Failed, Error(NotSerializable))
        else To(replayed, Received(run.work.state, tool, memory, content), Saving(false, true))
      case Launches(outcome) =>
        if run.auth.effective.expiresAt <= turn.launchAt then Refuse(run, true, false)
        else Invoke(run, tool, args, approved, turn.launchAt, outcome, lib)
  }

  /** One phase of the run. */
  function Next(run: Run, turn: Turn, lib: Library): Run
  {
    match run.phase
    case Asking => Ask(run, turn)
    case Answered(d) => CheckAgain(run, d, turn)
    case Deciding(d) => Decide(run, d, turn)
    case Launching(tool, args, approved) => LaunchTool(run, tool, args, approved, turn, lib)
    case Saving(finished, toolRan) => SaveStep(run, finished, toolRan, turn.cancel.Cancelled?)
    case Closing(toolRan, end) => Close(run, toolRan, end)
    case Ended(_) => run
  }

  function RunAll(run: Run, turns: seq<Turn>, lib: Library): Run
  {
    if turns == [] then run else Next(RunAll(run, turns[..|turns| - 1], lib), turns[|turns| - 1], lib)
  }

  // ----- admission -------------------------------------------------------------------------------------------

  /** `ceiling` is what a migrated task was first admitted with; None on a local task. */
  function AdmittedAuth(policy: Policy, envelope: Envelope, ceiling: Option<Permit>, now: int): Option<Auth>
  {
    match Effective(policy, envelope, now)
    case None => None
    case Some(permit) =>
      var effective := if ceiling.Some? then Narrow(permit, ceiling.value) else permit;
      if effective.expiresAt <= now then None else Some(Auth(Admitted(policy), effective))
  }

  /**
    The first save; None refuses the admission. A cancelled task's resume goes straight to its close. A task that
    arrived by migration keeps the cap it arrived with, and may not migrate on.
  */
  function Admit(setup: Setup, policy: Policy, ceiling: Option<Permit>, state: AgentState, cancelled: bool, now: int)
    : Option<Run>
  {
    match AdmittedAuth(policy, setup.envelope, ceiling, now)
    case None => None
    case Some(auth) =>
      var running := state.(status := Running);
      if !Fits(running, auth) then None
      else
        var kept := if ceiling.Some? then setup.(envelope := setup.envelope.(delegation := false)) else setup;
        var work := Work(running, Checkpoint(running, false), running);
        var run := Run(kept, auth, work, Log([], 0, 0, None, None), Asking);
        Some(if cancelled then CloseCancelled(run) else run.(work := Saved(work, false)))
  }
}
