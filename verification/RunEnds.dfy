/** How a run can end: closed, open at a wait for input that fitted, or not saved at all for want of a few bytes. */
module RunEnds {
  import opened Options
  import opened Json
  import opened Constraints
  import opened Authority
  import opened Checkpoints
  import opened RunLoop
  import opened RunResults

  // ----- the size of what is saved ---------------------------------------------------------------------------

  /** The texts an environment supplies are JSON. */
  predicate EncodedDecision(d: Decision)
  {
    match d
    case Complete(content) => content.Some? ==> |content.value| >= 1
    case AwaitInput(content) => content.Some? ==> |content.value| >= 1
    case Fail(content) => content.Some? ==> |content.value| >= 1
    case Migrate(_, _, _, memory, result) => |memory| >= 2 && |result| >= 1
    case _ => true
  }

  predicate EncodedLaunch(launch: Launch)
  {
    match launch
    case LedgerRefuses => true
    case Replays(memory, content) => |memory| >= 2 && |content| >= 1
    case Launches(Succeeds(memory, content)) => |memory| >= 2 && |content| >= 1
    case Launches(FailsCleanly(result)) => |result| >= 1
    case Launches(Raises(_)) => true
  }

  predicate EncodedTurn(turn: Turn)
  {
    && (turn.decision.Some? ==> EncodedDecision(turn.decision.value))
    && (turn.approval.NoToken? ==> |turn.approval.request| >= 1)
    && (turn.approval.Approved? ==> |turn.approval.memory| >= 2)
    && EncodedLaunch(turn.launch)
  }

  ghost predicate EndOk(run: Run, end: End)
  {
    match end
    case Returned => run.work.saved.closed || run.work.saved.state.status.AwaitingInput?
    case Raised => run.work.saved.closed
    case CloseRefused =>
      && !run.work.saved.closed
      && run.work.state == Tombstone(run.work.state) && !Fits(run.work.state, run.auth)
      && Margin(run.work.fitted, run.work.state, run.auth)
      && !run.work.state.status.AwaitingInput?
    case AwaitRefused =>
      && !run.work.saved.closed
      && run.work.state.status.AwaitingInput? && !Fits(run.work.state, run.auth)
  }

  /** A running state passed the size check under this ceiling, at most one step ago. */
  ghost predicate Margin(fitted: AgentState, state: AgentState, auth: Auth)
  {
    Encoded(fitted) && fitted.status.Running? && Fits(fitted, auth) && OneStepLater(fitted, state)
  }

  /** The messages alone make room for the tombstone. */
  predicate Roomy(state: AgentState) { ListedLength(state.messages) >= 7 }

  /** What the phase says about the state and the stored checkpoint. */
  ghost predicate PhaseOk(phase: Phase, work: Work, handoff: bool)
  {
    match phase
    case Saving(finished, toolRan) =>
      && work.state.step == work.fitted.step
      && (finished <==> !work.state.status.Running?) && (toolRan <==> !finished)
      && (handoff <==> work.state.status.Ready?)
      && (finished || Roomy(work.state))
    case Closing(toolRan, end) =>
      && !work.state.status.AwaitingInput? && (work.state.status.Running? ==> toolRan)
      && (end.Returned? || end.Raised?)
    case Ended(_) => true
    case _ =>
      && work.state.status.Running? && !handoff
      && work.state.step == work.fitted.step && work.state.toolCalls == work.fitted.toolCalls
      && work.state.messages == work.fitted.messages
      && (phase.Answered? || phase.Deciding? ==> EncodedDecision(phase.decision))
  }

  ghost predicate SizeOk(run: Run)
  {
    if run.phase.Ended? then EndOk(run, run.phase.end)
    else
      && !run.work.saved.closed && Encoded(run.work.state)
      && Margin(run.work.fitted, run.work.state, run.auth)
      && PhaseOk(run.phase, run.work, run.log.handoff.Some?)
  }

  lemma AskSize(run: Run, turn: Turn)
    requires SizeOk(run) && run.phase.Asking? && EncodedTurn(turn)
    ensures SizeOk(Ask(run, turn))
  {
  }

  lemma CheckAgainSize(run: Run, turn: Turn)
    requires SizeOk(run) && run.phase.Answered?
    ensures SizeOk(CheckAgain(run, run.phase.decision, turn))
  {
  }

  /** Before the decision is applied. */
  ghost predicate Open(run: Run)
  {
    !run.phase.Ended? && !run.phase.Saving? && !run.phase.Closing? && SizeOk(run)
  }

  lemma SettledSize(run: Run, status: Status, result: Result)
    requires Open(run) && !status.Running? && !status.Ready? && ResultLength(result) >= 1
    ensures SizeOk(Settled(run, status, result))
  {
  }

  lemma RefuseSize(run: Run, expired: bool, toolRan: bool)
    requires Open(run)
    ensures SizeOk(Refuse(run, expired, toolRan))
  {
  }

  lemma FinishSize(run: Run, status: Status, content: Option<string>)
    requires Open(run) && !status.Running? && !status.Ready? && (content.Some? ==> |content.value| >= 1)
    ensures SizeOk(Finish(run, status, content))
  {
  }

  lemma GateSize(run: Run, tool: string, args: map<string, Json>, turn: Turn)
    requires Open(run) && EncodedTurn(turn)
    ensures SizeOk(GateTool(run, tool, args, turn))
  {
    RefuseSize(run, false, false);
  }

  lemma MigrationSize(run: Run, d: Decision)
    requires Open(run) && d.Migrate? && EncodedDecision(d)
    ensures SizeOk(DecideMigration(run, d))
  {
    RefuseSize(run, false, false);
  }

  lemma DecideSize(run: Run, d: Decision, turn: Turn)
    requires Open(run) && EncodedTurn(turn) && EncodedDecision(d)
    ensures SizeOk(Decide(run, d, turn))
  {
    match d
    case UseTool(tool, args) => GateSize(run, tool, args, turn); RefuseSize(run, true, false);
    case Complete(content) => FinishSize(run, Completed, content); RefuseSize(run, true, false);
    case AwaitInput(content) => FinishSize(run, AwaitingInput, content); RefuseSize(run, true, false);
    case Fail(content) => FinishSize(run, Failed, content); RefuseSize(run, true, false);
    case Migrate(_, _, _, _, _) => MigrationSize(run, d); RefuseSize(run, true, false);
    case Malformed => RefuseSize(run, true, false); RefuseSize(run, false, false);
  }

  lemma InvokeSize(run: Run, tool: string, args: map<string, Json>, approved: bool, at: int, outcome: ToolOutcome,
                   lib: Library)
    requires Open(run) && EncodedLaunch(Launches(outcome))
    ensures SizeOk(Invoke(run, tool, args, approved, at, outcome, lib))
  {
    if outcome.Succeeds? { ToolNoteGrows(run.work.state.messages, tool, outcome.content); }
  }

  lemma LaunchSize(run: Run, tool: string, args: map<string, Json>, approved: bool, turn: Turn, lib: Library)
    requires Open(run) && EncodedTurn(turn)
    ensures SizeOk(LaunchTool(run, tool, args, approved, turn, lib))
  {
    RefuseSize(run, true, false);
    SettledSize(run, Failed, Error(EffectRefused));
    match turn.launch
    case Launches(outcome) => InvokeSize(run, tool, args, approved, turn.launchAt, outcome, lib);
    case Replays(_, content) => ToolNoteGrows(run.work.state.messages, tool, content);
    case LedgerRefuses =>
  }

  lemma SaveSize(run: Run, cancelled: bool)
    requires SizeOk(run) && run.phase.Saving?
    ensures SizeOk(SaveStep(run, run.phase.finished, run.phase.toolRan, cancelled))
  {
  }

  lemma CloseSize(run: Run)
    requires SizeOk(run) && run.phase.Closing?
    ensures SizeOk(Close(run, run.phase.toolRan, run.phase.end))
  {
  }

  lemma SizeStep(run: Run, turn: Turn, lib: Library)
    requires SizeOk(run) && EncodedTurn(turn)
    ensures SizeOk(Next(run, turn, lib))
  {
    match run.phase
    case Asking => AskSize(run, turn);
    case Answered(_) => CheckAgainSize(run, turn);
    case Deciding(d) => DecideSize(run, d, turn);
    case Launching(tool, args, approved) => LaunchSize(run, tool, args, approved, turn, lib);
    case Saving(_, _) => SaveSize(run, turn.cancel.Cancelled?);
    case Closing(_, _) => CloseSize(run);
    case Ended(_) =>
  }

  // ----- the first step after an admission -------------------------------------------------------------------

  /**
    Until a tool's result has been saved the run is in its first step: at most one save and one step past `start`. From
    then on the messages leave room for the tombstone.
  */
  ghost predicate FirstOk(run: Run, start: AgentState)
  {
    (run.phase.Ended? && !run.phase.end.CloseRefused?) || Roomy(run.work.fitted) || FirstPhase(run, start)
  }

  ghost predicate FirstPhase(run: Run, start: AgentState)
  {
    && WithinStep(start, run.work.state)
    && (!run.phase.Ended? && !run.phase.Closing? ==> run.work.state.step <= start.step)
    && (!run.phase.Ended? && !run.phase.Closing? && !run.phase.Saving? ==> run.work.state.toolCalls <= start.toolCalls)
  }

  /** What a phase that does not save does to the position of the state. */
  ghost predicate Stays(before: Run, after: Run)
  {
    && after.work.state.taskId == before.work.state.taskId && after.work.state.goal == before.work.state.goal
    && after.work.state.generation == before.work.state.generation && after.work.state.step == before.work.state.step
    && after.work.fitted == before.work.fitted
    && (after.work.state.toolCalls == before.work.state.toolCalls
        || (after.work.state.toolCalls == before.work.state.toolCalls + 1 && !after.work.state.status.Completed?))
    && (after.phase.Saving? || after.phase.Closing? || after.work.state.toolCalls == before.work.state.toolCalls)
    && !after.phase.Ended?
  }

  lemma LaunchStays(run: Run, tool: string, args: map<string, Json>, approved: bool, turn: Turn, lib: Library)
    requires run.work.state.status.Running?
    ensures Stays(run, LaunchTool(run, tool, args, approved, turn, lib))
  {
  }

  lemma DecideStays(run: Run, d: Decision, turn: Turn)
    ensures Stays(run, Decide(run, d, turn))
  {
  }

  lemma StaysFirst(before: Run, after: Run, start: AgentState)
    requires FirstOk(before, start) && Stays(before, after)
    requires !before.phase.Ended? && !before.phase.Closing? && !before.phase.Saving?
    ensures FirstOk(after, start)
  {
  }

  lemma SaveFirst(run: Run, cancelled: bool, start: AgentState)
    requires FirstOk(run, start) && SizeOk(run) && run.phase.Saving?
    ensures FirstOk(SaveStep(run, run.phase.finished, run.phase.toolRan, cancelled), start)
  {
  }

  lemma CloseFirst(run: Run, start: AgentState)
    requires FirstOk(run, start) && SizeOk(run) && run.phase.Closing?
    ensures FirstOk(Close(run, run.phase.toolRan, run.phase.end), start)
  {
  }

  lemma FirstStep(run: Run, turn: Turn, lib: Library, start: AgentState)
    requires FirstOk(run, start) && SizeOk(run)
    ensures FirstOk(Next(run, turn, lib), start)
  {
    match run.phase
    case Launching(tool, args, approved) =>
      LaunchStays(run, tool, args, approved, turn, lib);
      StaysFirst(run, Next(run, turn, lib), start);
    case Deciding(d) =>
      DecideStays(run, d, turn);
      StaysFirst(run, Next(run, turn, lib), start);
    case Saving(_, _) => SaveFirst(run, turn.cancel.Cancelled?, start);
    case Closing(_, _) => CloseFirst(run, start);
    case _ =>
  }

  // ----- what a final status means ---------------------------------------------------------------------------

  /** A state that says `completed` or waits for input says what the provider decided; a dropped result is null. */
  ghost predicate StatusOk(state: AgentState, answer: Option<Decision>)
  {
    match state.status
    case Completed =>
      && answer.Some? && answer.value.Complete? && answer.value.content.Some?
      && (state.result == Content(answer.value.content.value) || state.result == NullResult)
    case AwaitingInput =>
      && answer.Some?
      && ((answer.value.AwaitInput? && answer.value.content.Some?
           && state.result == Content(answer.value.content.value))
          || answer.value.UseTool?)
    case Ready => answer.Some? && answer.value.Migrate?
    case _ => true
  }

  ghost predicate MeaningOk(run: Run)
  {
    && (run.phase.Answered? || run.phase.Deciding? ==> run.log.answer == Some(run.phase.decision))
    && (run.phase.Launching? ==> run.log.answer.Some? && run.log.answer.value.UseTool?)
    && StatusOk(run.work.state, run.log.answer)
    && (run.phase.Ended? ==> StatusOk(run.work.saved.state, run.log.answer))
    && (!run.phase.Ended? ==> run.work.saved.state.status.Running?)
  }

  lemma DecideMeaning(run: Run, d: Decision, turn: Turn)
    requires MeaningOk(run) && run.phase == Deciding(d)
    ensures MeaningOk(Decide(run, d, turn))
  {
  }

  lemma LaunchMeaning(run: Run, tool: string, args: map<string, Json>, approved: bool, turn: Turn, lib: Library)
    requires MeaningOk(run) && run.phase.Launching? && SizeOk(run)
    ensures MeaningOk(LaunchTool(run, tool, args, approved, turn, lib))
  {
  }

  lemma SaveMeaning(run: Run, cancelled: bool)
    requires MeaningOk(run) && SizeOk(run) && run.phase.Saving?
    ensures MeaningOk(SaveStep(run, run.phase.finished, run.phase.toolRan, cancelled))
  {
  }

  lemma CloseMeaning(run: Run)
    requires MeaningOk(run) && SizeOk(run) && run.phase.Closing?
    ensures MeaningOk(Close(run, run.phase.toolRan, run.phase.end))
  {
  }

  lemma MeaningStep(run: Run, turn: Turn, lib: Library)
    requires MeaningOk(run) && SizeOk(run)
    ensures MeaningOk(Next(run, turn, lib))
  {
    match run.phase
    case Deciding(d) => DecideMeaning(run, d, turn);
    case Launching(tool, args, approved) => LaunchMeaning(run, tool, args, approved, turn, lib);
    case Saving(_, _) => SaveMeaning(run, turn.cancel.Cancelled?);
    case Closing(_, _) => CloseMeaning(run);
    case _ =>
  }

  // ----- whole runs ------------------------------------------------------------------------------------------

  /** Everything a run keeps; `start` is the state it was admitted with and `first` its admitted authority. */
  ghost predicate RunOk(run: Run, start: AgentState, first: Permit, lib: Library)
  {
    && AuthOk(run.auth, first) && LogOk(run, first, lib) && CountOk(run, start.toolCalls, first)
    && Underway(run) && SizeOk(run) && FirstOk(run, start) && MeaningOk(run)
  }

  lemma NextKeeps(run: Run, turn: Turn, lib: Library, start: AgentState, first: Permit)
    requires RunOk(run, start, first, lib) && EncodedTurn(turn)
    ensures RunOk(Next(run, turn, lib), start, first, lib)
    ensures Below(Next(run, turn, lib).auth.effective, run.auth.effective)
  {
    AuthStep(run, turn, lib, first);
    LogStep(run, turn, lib, first);
    CountStep(run, turn, lib, start.toolCalls, first);
    SizeStep(run, turn, lib);
    FirstStep(run, turn, lib, start);
    MeaningStep(run, turn, lib);
    if !run.phase.Ended? { PhaseDecreases(run, turn, lib); }
  }

  lemma {:induction false} RunKeeps(run: Run, turns: seq<Turn>, lib: Library, start: AgentState, first: Permit)
    requires RunOk(run, start, first, lib) && forall i :: 0 <= i < |turns| ==> EncodedTurn(turns[i])
    ensures RunOk(RunAll(run, turns, lib), start, first, lib)
    ensures Below(RunAll(run, turns, lib).auth.effective, run.auth.effective)
  {
    if turns == [] {
      BelowReflexive(run.auth.effective);
    } else {
      var before := RunAll(run, turns[..|turns| - 1], lib);
      RunKeeps(run, turns[..|turns| - 1], lib, start, first);
      NextKeeps(before, turns[|turns| - 1], lib, start, first);
      BelowTransitive(RunAll(run, turns, lib).auth.effective, before.auth.effective, run.auth.effective);
    }
  }

  /** What brings a run about. */
  datatype Admission = Admission(
    setup: Setup, policy: Policy, ceiling: Option<Permit>, state: AgentState, cancelled: bool, now: int)

  ghost predicate AdmittedAs(a: Admission, run: Run)
  {
    Encoded(a.state) && Admit(a.setup, a.policy, a.ceiling, a.state, a.cancelled, a.now) == Some(run)
  }

  ghost predicate EncodedTurns(turns: seq<Turn>)
  {
    forall i :: 0 <= i < |turns| ==> EncodedTurn(turns[i])
  }

  lemma AdmittedOk(a: Admission, run: Run, lib: Library)
    requires AdmittedAs(a, run)
    ensures RunOk(run, a.state, run.auth.effective, lib)
    ensures Below(run.auth.effective, a.setup.envelope.permit)
    ensures a.ceiling.Some? ==> Below(run.auth.effective, a.ceiling.value) && !run.setup.envelope.delegation
  {
    AdmittedAuthOk(a.policy, a.setup.envelope, a.ceiling, a.now);
  }

  /**
    Over any number of reloads, what a run may do stays below its permit, below the ceiling of a migrated task, below
    what it was admitted with, and within every policy it has been under.
  */
  lemma AuthorityOnlyNarrows(a: Admission, run: Run, turns: seq<Turn>, lib: Library)
    requires AdmittedAs(a, run) && EncodedTurns(turns)
    ensures var auth := RunAll(run, turns, lib).auth;
            && Below(auth.effective, a.setup.envelope.permit)
            && (a.ceiling.Some? ==> Below(auth.effective, a.ceiling.value))
            && Below(auth.effective, run.auth.effective)
            && forall i :: 0 <= i < |Policies(auth.active)| ==> WithinPolicy(auth.effective, Policies(auth.active)[i])
  {
    AdmittedOk(a, run, lib);
    RunKeeps(run, turns, lib, a.state, run.auth.effective);
    var effective := RunAll(run, turns, lib).auth.effective;
    BelowTransitive(effective, run.auth.effective, a.setup.envelope.permit);
    if a.ceiling.Some? { BelowTransitive(effective, run.auth.effective, a.ceiling.value); }
  }

  /**
    Every tool execution of a run was within the admitted permit and its lifetime, and allowed by every policy the run
    had been under: the tool, the arguments, and an approval wherever one of them asked for it.
  */
  lemma ExecutionsAllowed(a: Admission, run: Run, turns: seq<Turn>, lib: Library, i: nat)
    requires AdmittedAs(a, run) && EncodedTurns(turns)
    requires i < |RunAll(run, turns, lib).log.executions|
    ensures var after := RunAll(run, turns, lib);
            ExecutionOk(after.log.executions[i], after.setup, run.auth.effective, lib)
  {
    AdmittedOk(a, run, lib);
    RunKeeps(run, turns, lib, a.state, run.auth.effective);
  }

  /** A task is handed on with no more than it had, by every policy's leave, and a migrated task never. */
  lemma HandoffsAllowed(a: Admission, run: Run, turns: seq<Turn>, lib: Library)
    requires AdmittedAs(a, run) && EncodedTurns(turns)
    requires RunAll(run, turns, lib).log.handoff.Some?
    ensures var after := RunAll(run, turns, lib);
            HandoffOk(after.log.handoff.value, after.setup, run.auth.effective) && a.ceiling.None?
  {
    AdmittedOk(a, run, lib);
    RunKeeps(run, turns, lib, a.state, run.auth.effective);
    SetupKept(run, turns, lib);
  }

  lemma {:induction false} SetupKept(run: Run, turns: seq<Turn>, lib: Library)
    ensures RunAll(run, turns, lib).setup == run.setup
  {
    if turns != [] {
      SetupKept(run, turns[..|turns| - 1], lib);
      SetupStep(RunAll(run, turns[..|turns| - 1], lib), turns[|turns| - 1], lib);
    }
  }

  lemma SetupStep(run: Run, turn: Turn, lib: Library)
    ensures Next(run, turn, lib).setup == run.setup
  {
  }

  /** Invocations and replays together never exceed what the admitted budget left. */
  lemma CallsBounded(a: Admission, run: Run, turns: seq<Turn>, lib: Library)
    requires AdmittedAs(a, run) && EncodedTurns(turns)
    ensures var log := RunAll(run, turns, lib).log;
            log.invocations + log.replays <= CallsLeft(a.state.toolCalls, run.auth.effective)
  {
    AdmittedOk(a, run, lib);
    RunKeeps(run, turns, lib, a.state, run.auth.effective);
  }

  /** Whatever the environment answers, the run ends. */
  lemma {:induction false} EveryRunEnds(run: Run, turns: seq<Turn>, lib: Library)
    requires Underway(run)
    ensures Underway(RunAll(run, turns, lib))
    ensures RunAll(run, turns, lib).phase.Ended? || PhasesLeft(RunAll(run, turns, lib)) + |turns| <= PhasesLeft(run)
  {
    if turns != [] {
      var before := RunAll(run, turns[..|turns| - 1], lib);
      EveryRunEnds(run, turns[..|turns| - 1], lib);
      if !before.phase.Ended? { PhaseDecreases(before, turns[|turns| - 1], lib); }
    }
  }

  /** A closing save lands exactly when the state fits, or fits emptied, or fits as a tombstone. */
  lemma CloseLands(run: Run, toolRan: bool, end: End)
    requires !end.CloseRefused?
    ensures var next := Close(run, toolRan, end);
            var emptied := Emptied(run.work.state, toolRan);
            && (next.phase == Ended(end) <==>
                  Fits(run.work.state, run.auth) || Fits(emptied, run.auth) || Fits(Tombstone(emptied), run.auth))
            && (next.phase == Ended(end) ==> next.work.saved.closed && Fits(next.work.saved.state, run.auth))
            && (next.phase != Ended(end) ==> next.phase == Ended(CloseRefused) && next.work.saved == run.work.saved)
  {
  }

  /**
    A run that ends has its checkpoint closed, or open at a wait for input that fitted; the exceptions are an
    oversized wait, and a tombstone over a ceiling that is less than seven bytes over a checkpoint that fitted.
  */
  lemma EndsClosedOrWaiting(a: Admission, run: Run, turns: seq<Turn>, lib: Library)
    requires AdmittedAs(a, run) && EncodedTurns(turns) && RunAll(run, turns, lib).phase.Ended?
    ensures var after := RunAll(run, turns, lib);
            match after.phase.end
            case Returned => after.work.saved.closed || after.work.saved.state.status.AwaitingInput?
            case Raised => after.work.saved.closed
            case AwaitRefused => after.work.state.status.AwaitingInput? && !Fits(after.work.state, after.auth)
            case CloseRefused =>
              && !Fits(Tombstone(after.work.state), after.auth)
              && Fits(after.work.fitted, after.auth)
              && after.auth.effective.budget.maxOutputBytes < Size(after.work.fitted) + 7
  {
    AdmittedOk(a, run, lib);
    RunKeeps(run, turns, lib, a.state, run.auth.effective);
    var after := RunAll(run, turns, lib);
    if after.phase.end.CloseRefused? { TombstoneBound(after.work.fitted, after.work.state); }
  }

  /**
    The stored checkpoint of a run that ended says `completed` only with what the provider completed with, or null; it
    waits for input only where the provider asked or a tool needs approval; it is `ready` only after a migration.
  */
  lemma StoredStatusIsMeant(a: Admission, run: Run, turns: seq<Turn>, lib: Library)
    requires AdmittedAs(a, run) && EncodedTurns(turns) && RunAll(run, turns, lib).phase.Ended?
    ensures var after := RunAll(run, turns, lib); StatusOk(after.work.saved.state, after.log.answer)
  {
    AdmittedOk(a, run, lib);
    RunKeeps(run, turns, lib, a.state, run.auth.effective);
  }

  // ----- exactly when a ceiling strands a task ---------------------------------------------------------------

  /**
    The largest tombstone an admission can come to: a cancelled task fails where it stands, a task without steps left
    fails after its admission was saved, and any other may complete in its first step.
  */
  function WorstTombstone(a: Admission, maxSteps: int): AgentState
  {
    if a.cancelled then Tombstone(a.state).(status := Failed)
    else if a.state.step >= maxSteps then
      Tombstone(a.state).(generation := a.state.generation + 1, status := Failed)
    else CompletedTombstone(a.state)
  }

  /**
    Over any turns and reloads, a closing save that was refused met a ceiling below that tombstone. So a ceiling with
    room for it, which a caller can check beforehand, never strands a task.
  */
  lemma RoomForTombstone(a: Admission, run: Run, turns: seq<Turn>, lib: Library)
    requires AdmittedAs(a, run) && EncodedTurns(turns) && RunAll(run, turns, lib).phase == Ended(CloseRefused)
    ensures RunAll(run, turns, lib).auth.effective.budget.maxOutputBytes <
              Size(WorstTombstone(a, run.auth.effective.budget.maxSteps))
  {
    if run.phase.Closing? {
      ClosesAtOnce(run, turns, lib);
    } else if run.work.state.step >= run.auth.effective.budget.maxSteps {
      ExhaustedAtOnce(run, turns, lib);
    } else {
      AdmittedOk(a, run, lib);
      RunKeeps(run, turns, lib, a.state, run.auth.effective);
      var after := RunAll(run, turns, lib).work;
      TombstoneBound(after.fitted, after.state);
      CompletionIsLargest(a.state, after.state);
    }
  }

  /** A run that is closing has one phase left. */
  lemma {:induction false} ClosesAtOnce(run: Run, turns: seq<Turn>, lib: Library)
    requires run.phase.Closing?
    ensures RunAll(run, turns, lib) == if turns == [] then run else Close(run, run.phase.toolRan, run.phase.end)
  {
    if turns != [] {
      ClosesAtOnce(run, turns[..|turns| - 1], lib);
    }
  }

  /** A run without steps left has two. */
  lemma {:induction false} ExhaustedAtOnce(run: Run, turns: seq<Turn>, lib: Library)
    requires run.phase.Asking? && run.work.state.step >= run.auth.effective.budget.maxSteps
    ensures var failed := FailWith(run, StepsExhausted, false, Returned);
            RunAll(run, turns, lib) ==
              if turns == [] then run else if |turns| == 1 then failed else Close(failed, false, Returned)
  {
    if turns != [] {
      ExhaustedAtOnce(run, turns[..|turns| - 1], lib);
    }
  }

  ghost predicate Steady(turns: seq<Turn>)
  {
    forall i :: 0 <= i < |turns| ==> turns[i].reload.Unchanged?
  }

  ghost predicate Strands(run: Run, turns: seq<Turn>, lib: Library)
  {
    EncodedTurns(turns) && Steady(turns) && RunAll(run, turns, lib).phase == Ended(CloseRefused)
  }

  /**
    Under an unchanged policy, some run of an admitted task is left open with its closing save refused exactly when the
    ceiling is below the admission's largest tombstone: what the tools do, how often and with what results, has no say.
  */
  lemma StrandsExactly(a: Admission, run: Run, lib: Library)
    requires AdmittedAs(a, run)
    ensures (exists turns :: Strands(run, turns, lib)) <==>
            run.auth.effective.budget.maxOutputBytes < Size(WorstTombstone(a, run.auth.effective.budget.maxSteps))
  {
    forall turns | Strands(run, turns, lib)
      ensures run.auth.effective.budget.maxOutputBytes <
                Size(WorstTombstone(a, run.auth.effective.budget.maxSteps))
    {
      RoomForTombstone(a, run, turns, lib);
      AuthSteady(run, turns, lib);
    }
    if run.auth.effective.budget.maxOutputBytes < Size(WorstTombstone(a, run.auth.effective.budget.maxSteps)) {
      var turns := StrandingTurns(a, run, lib);
      assert Strands(run, turns, lib);
    }
  }

  lemma {:induction false} AuthSteady(run: Run, turns: seq<Turn>, lib: Library)
    requires Steady(turns)
    ensures RunAll(run, turns, lib).auth == run.auth
  {
    if turns != [] {
      AuthSteady(run, turns[..|turns| - 1], lib);
      AuthUnchanged(RunAll(run, turns[..|turns| - 1], lib), turns[|turns| - 1], lib);
    }
  }

  lemma AuthUnchanged(run: Run, turn: Turn, lib: Library)
    requires turn.reload.Unchanged?
    ensures Next(run, turn, lib).auth == run.auth
  {
  }

  lemma StrandingTurns(a: Admission, run: Run, lib: Library) returns (turns: seq<Turn>)
    requires AdmittedAs(a, run)
    requires run.auth.effective.budget.maxOutputBytes < Size(WorstTombstone(a, run.auth.effective.budget.maxSteps))
    ensures Strands(run, turns, lib)
  {
    var turn := CompletingTurn(run.auth.effective.expiresAt - 1);
    if a.cancelled {
      turns := [turn];
      CancelStrands(a, run, turn, lib);
    } else if a.state.step >= run.auth.effective.budget.maxSteps {
      turns := [turn, turn];
      ExhaustionStrands(a, run, turn, lib);
    } else {
      turns := FiveTimes(turn);
      FirstStepStrands(a, run, lib);
    }
  }

  lemma CancelStrands(a: Admission, run: Run, turn: Turn, lib: Library)
    requires AdmittedAs(a, run) && a.cancelled && EncodedTurn(turn) && turn.reload.Unchanged?
    requires run.auth.effective.budget.maxOutputBytes < Size(Tombstone(a.state).(status := Failed))
    ensures Strands(run, [turn], lib)
  {
    ClosesAtOnce(run, [turn], lib);
  }

  lemma ExhaustionStrands(a: Admission, run: Run, turn: Turn, lib: Library)
    requires AdmittedAs(a, run) && !a.cancelled && a.state.step >= run.auth.effective.budget.maxSteps
    requires EncodedTurn(turn) && turn.reload.Unchanged?
    requires run.auth.effective.budget.maxOutputBytes <
               Size(Tombstone(a.state).(generation := a.state.generation + 1, status := Failed))
    ensures Strands(run, [turn, turn], lib)
  {
    ExhaustedAtOnce(run, [turn, turn], lib);
  }

  lemma FirstStepStrands(a: Admission, run: Run, lib: Library)
    requires AdmittedAs(a, run) && !a.cancelled && a.state.step < run.auth.effective.budget.maxSteps
    requires run.auth.effective.budget.maxOutputBytes < Size(CompletedTombstone(a.state))
    ensures Strands(run, FiveTimes(CompletingTurn(run.auth.effective.expiresAt - 1)), lib)
  {
    CompletionStrands(run, lib);
  }

  /** A provider that completes at once, with a short text, nothing reloaded and nothing cancelled. */
  function CompletingTurn(at: int): Turn
  {
    Turn(Unchanged, Some(Complete(Some("null"))), NotCancelled, GateRaises, LedgerRefuses, at, at)
  }

  /** One more turn of a run that has come to `before`. */
  lemma Extend(run: Run, turns: seq<Turn>, turn: Turn, lib: Library, before: Run, after: Run)
    requires RunAll(run, turns, lib) == before && Next(before, turn, lib) == after
    ensures RunAll(run, turns + [turn], lib) == after
  {
    assert (turns + [turn])[..|turns|] == turns;
  }

  function FiveTimes(turn: Turn): (turns: seq<Turn>)
    ensures |turns| == 5 && forall i :: 0 <= i < 5 ==> turns[i] == turn
  {
    [] + [turn] + [turn] + [turn] + [turn] + [turn]
  }

  /** A completion in the first step, under a ceiling below its tombstone. */
  lemma CompletionStrands(run: Run, lib: Library)
    requires run.phase.Asking? && run.log.handoff.None? && Encoded(run.work.state)
    requires run.work.state.step < run.auth.effective.budget.maxSteps
    requires run.auth.effective.budget.maxOutputBytes <
               Size(Tombstone(run.work.state).(step := run.work.state.step + 1, status := Completed))
    ensures var turn := CompletingTurn(run.auth.effective.expiresAt - 1);
            var after := RunAll(run, FiveTimes(turn), lib);
            && after.phase == Ended(CloseRefused) && after.auth == run.auth
            && after.work.saved == run.work.saved && after.work.fitted == run.work.fitted
  {
    var turn := CompletingTurn(run.auth.effective.expiresAt - 1);
    var d := Complete(Some("null"));
    var asked := run.(log := run.log.(answer := Some(d)), phase := Answered(d));
    Extend(run, [], turn, lib, run, asked);
    var deciding := asked.(phase := Deciding(d));
    Extend(run, [] + [turn], turn, lib, asked, deciding);
    var completed := run.work.state.(status := Completed, result := Content("null"));
    var saving := To(deciding, completed, Saving(true, false));
    Extend(run, [] + [turn] + [turn], turn, lib, deciding, saving);
    var stepped := completed.(step := completed.step + 1);
    var closing := To(deciding, stepped, Closing(false, Returned));
    Extend(run, [] + [turn] + [turn] + [turn], turn, lib, saving, closing);
    CloseLands(closing, false, Returned);
    Extend(run, [] + [turn] + [turn] + [turn] + [turn], turn, lib, closing, Close(closing, false, Returned));
  }

  /** A task resumed at generation and step nine, with no memory, no messages and a one-byte result. */
  const NINTH := AgentState("\"t\"", "\"g\"", 9, 9, 0, "{}", [], Running, Content("0"))

  /** Its admission under a ceiling six bytes over its checkpoint. */
  function TightAdmission(): Admission
  {
    var budget := Budget(10, 0, Size(NINTH) + 6);
    var policy := Policy("", "", map[], budget, map[], {}, {}, false, {});
    Admission(Setup(Envelope(Permit(map[], budget, 1), "", {}, false), {}), policy, None, NINTH, false, 0)
  }

  ghost predicate ReachesBound(after: Run)
  {
    after.auth.effective.budget.maxOutputBytes + 1 == Size(after.work.fitted) + 7
  }

  /** The bound of `EndsClosedOrWaiting` is reached: that task is admitted, and stranded by completing. */
  lemma SevenIsReached(lib: Library)
    ensures exists run, turns ::
              AdmittedAs(TightAdmission(), run) && Strands(run, turns, lib) && ReachesBound(RunAll(run, turns, lib))
  {
    var a := TightAdmission();
    var admitted := Admit(a.setup, a.policy, a.ceiling, a.state, a.cancelled, a.now);
    assert admitted.Some?;
    var run := admitted.value;
    assert AdmittedAs(a, run);
    assert Digits(9) == 1 && Digits(10) == 1 + Digits(1);
    var turn := CompletingTurn(run.auth.effective.expiresAt - 1);
    CompletionStrands(run, lib);
    var turns := FiveTimes(turn);
    assert Strands(run, turns, lib) && ReachesBound(RunAll(run, turns, lib));
  }
}
