/** What every run keeps: its authority, its log of executions, its tool-call count, and the size of its checkpoint. */
module RunResults {
  import opened Options
  import opened Json
  import opened Constraints
  import opened Authority
  import opened Checkpoints
  import opened RunLoop

  // ----- authority -------------------------------------------------------------------------------------------

  /** Below what the run was admitted with, and within every policy it has been under. */
  ghost predicate AuthOk(auth: Auth, first: Permit)
  {
    && Below(auth.effective, first)
    && forall i :: 0 <= i < |Policies(auth.active)| ==> WithinPolicy(auth.effective, Policies(auth.active)[i])
  }

  lemma AdmittedAuthOk(policy: Policy, envelope: Envelope, ceiling: Option<Permit>, now: int)
    requires AdmittedAuth(policy, envelope, ceiling, now).Some?
    ensures var auth := AdmittedAuth(policy, envelope, ceiling, now).value;
            && AuthOk(auth, auth.effective)
            && Below(auth.effective, envelope.permit)
            && (ceiling.Some? ==> Below(auth.effective, ceiling.value))
  {
    var auth := AdmittedAuth(policy, envelope, ceiling, now).value;
    var cut := Cut(policy, envelope);
    CutBelow(policy, envelope);
    BelowReflexive(auth.effective);
    if ceiling.Some? {
      NarrowBelow(cut, ceiling.value);
      BelowTransitive(auth.effective, cut, envelope.permit);
      WithinMonotone(auth.effective, cut, policy);
    }
  }

  /** An adopted reload narrows: below what the run had, and within the new policy. */
  lemma RecheckNarrows(auth: Auth, state: AgentState, envelope: Envelope, reload: Reload, first: Permit)
    requires AuthOk(auth, first) && Recheck(auth, state, envelope, reload).Some?
    ensures var next := Recheck(auth, state, envelope, reload).value;
            AuthOk(next, first) && Below(next.effective, auth.effective)
  {
    var next := Recheck(auth, state, envelope, reload).value;
    BelowReflexive(auth.effective);
    if next != auth {
      var cut := Cut(reload.policy, envelope);
      CutBelow(reload.policy, envelope);
      NarrowBelow(auth.effective, cut);
      BelowTransitive(next.effective, auth.effective, first);
      WithinMonotone(next.effective, cut, reload.policy);
      var before := Policies(auth.active);
      forall i | 0 <= i < |Policies(next.active)| ensures WithinPolicy(next.effective, Policies(next.active)[i]) {
        if i < |before| {
          assert Policies(next.active)[i] == before[i];
          WithinMonotone(next.effective, auth.effective, before[i]);
        }
      }
    }
  }

  /** Where the authority of the next phase comes from. */
  lemma AuthSource(run: Run, turn: Turn, lib: Library)
    ensures var auth := Next(run, turn, lib).auth;
            auth == run.auth || Recheck(run.auth, run.work.state, run.setup.envelope, turn.reload) == Some(auth)
  {
  }

  lemma AuthStep(run: Run, turn: Turn, lib: Library, first: Permit)
    requires AuthOk(run.auth, first)
    ensures AuthOk(Next(run, turn, lib).auth, first) && Below(Next(run, turn, lib).auth.effective, run.auth.effective)
  {
    AuthSource(run, turn, lib);
    BelowReflexive(run.auth.effective);
    if Next(run, turn, lib).auth != run.auth {
      RecheckNarrows(run.auth, run.work.state, run.setup.envelope, turn.reload, first);
    }
  }

  // ----- executions and handoffs -----------------------------------------------------------------------------

  /** One policy allowed this execution: the tool, the arguments, and the approval it asks for. */
  ghost predicate AllowedBy(e: Execution, policy: Policy, sideEffecting: set<string>, lib: Library)
  {
    && e.tool in PolicyGrants(policy)
    && Admits(PolicyGrants(policy)[e.tool].constraints, e.args, lib)
    && (PolicyRequiresApproval(policy, e.tool, e.tool in sideEffecting) ==> e.approved)
  }

  /** Within the admitted authority and its lifetime, and allowed by every policy the run had been under. */
  ghost predicate ExecutionOk(e: Execution, setup: Setup, first: Permit, lib: Library)
  {
    && e.at < first.expiresAt
    && e.tool in first.grants && Admits(first.grants[e.tool].constraints, e.args, lib)
    && forall i :: 0 <= i < |Policies(e.under)| ==> AllowedBy(e, Policies(e.under)[i], setup.sideEffecting, lib)
  }

  ghost predicate HandoffOk(h: Handoff, setup: Setup, first: Permit)
  {
    && AuthOk(Auth(h.under, h.permit), first)
    && setup.envelope.delegation
    && forall i :: 0 <= i < |Policies(h.under)| ==> PolicyAuthorizesMigration(Policies(h.under)[i], true, h.destination)
  }

  ghost predicate LogOk(run: Run, first: Permit, lib: Library)
  {
    && (forall i :: 0 <= i < |run.log.executions| ==> ExecutionOk(run.log.executions[i], run.setup, first, lib))
    && (run.log.handoff.Some? ==> HandoffOk(run.log.handoff.value, run.setup, first))
    && (run.phase.Launching? && !run.phase.approved ==>
          !RequiresApproval(run.auth.active, run.phase.tool, run.phase.tool in run.setup.sideEffecting))
  }

  lemma InvokedIsOk(auth: Auth, setup: Setup, e: Execution, first: Permit, lib: Library)
    requires AuthOk(auth, first)
    requires e.tool in auth.effective.grants && Admits(auth.effective.grants[e.tool].constraints, e.args, lib)
    requires e.at < auth.effective.expiresAt && e.under == auth.active
    requires !e.approved ==> !RequiresApproval(auth.active, e.tool, e.tool in setup.sideEffecting)
    ensures ExecutionOk(e, setup, first, lib)
  {
    assert GrantBelow(auth.effective.grants[e.tool], first.grants[e.tool]);
    ApprovalIsSticky(auth.active, e.tool, e.tool in setup.sideEffecting);
    forall i | 0 <= i < |Policies(e.under)| ensures AllowedBy(e, Policies(e.under)[i], setup.sideEffecting, lib) {
      var policy := Policies(e.under)[i];
      assert WithinPolicy(auth.effective, policy);
      assert GrantBelow(auth.effective.grants[e.tool], PolicyGrants(policy)[e.tool]);
    }
  }

  lemma InvokeLog(run: Run, tool: string, args: map<string, Json>, approved: bool, at: int, outcome: ToolOutcome,
                  first: Permit, lib: Library)
    requires AuthOk(run.auth, first) && LogOk(run, first, lib) && run.phase == Launching(tool, args, approved)
    requires at < run.auth.effective.expiresAt
    ensures LogOk(Invoke(run, tool, args, approved, at, outcome, lib), first, lib)
  {
    var after := Invoke(run, tool, args, approved, at, outcome, lib);
    if after.log.executions != run.log.executions {
      var e := Execution(tool, args, at, approved, run.auth.active);
      InvokedIsOk(run.auth, run.setup, e, first, lib);
      assert after.log.executions == run.log.executions + [e];
    }
  }

  lemma LaunchLog(run: Run, turn: Turn, first: Permit, lib: Library)
    requires AuthOk(run.auth, first) && LogOk(run, first, lib) && run.phase.Launching?
    ensures LogOk(LaunchTool(run, run.phase.tool, run.phase.args, run.phase.approved, turn, lib), first, lib)
  {
    if turn.launch.Launches? && turn.launchAt < run.auth.effective.expiresAt {
      InvokeLog(run, run.phase.tool, run.phase.args, run.phase.approved, turn.launchAt, turn.launch.outcome, first,
                lib);
    }
  }

  lemma MigrationLog(run: Run, d: Decision, first: Permit, lib: Library)
    requires AuthOk(run.auth, first) && LogOk(run, first, lib) && d.Migrate?
    ensures LogOk(DecideMigration(run, d), first, lib)
  {
    var checked := if d.preflight.Some? then Recheck(run.auth, run.work.state, run.setup.envelope, d.preflight.value)
                   else Some(run.auth);
    if checked.Some? {
      if d.preflight.Some? {
        RecheckNarrows(run.auth, run.work.state, run.setup.envelope, d.preflight.value, first);
      }
      MigrationNeedsAll(checked.value.active, run.setup.envelope.delegation, d.destination);
      assert |Policies(checked.value.active)| > 0;
    }
  }

  /** The log is carried over, apart from a handoff that a cancellation withdraws. */
  ghost predicate LogCarried(run: Run, next: Run)
  {
    && next.setup == run.setup && next.log.executions == run.log.executions
    && (next.log.handoff == run.log.handoff || next.log.handoff == None)
    && (next.phase.Launching? && !next.phase.approved ==>
          !RequiresApproval(next.auth.active, next.phase.tool, next.phase.tool in next.setup.sideEffecting))
  }

  lemma LogCarriedOk(run: Run, next: Run, first: Permit, lib: Library)
    requires LogOk(run, first, lib) && LogCarried(run, next)
    ensures LogOk(next, first, lib)
  {
  }

  lemma DecideLog(run: Run, d: Decision, turn: Turn, first: Permit, lib: Library)
    requires AuthOk(run.auth, first) && LogOk(run, first, lib) && !run.phase.Launching?
    ensures LogOk(Decide(run, d, turn), first, lib)
  {
    if d.Migrate? {
      MigrationLog(run, d, first, lib);
    } else {
      LogCarriedOk(run, Decide(run, d, turn), first, lib);
    }
  }

  lemma LogStep(run: Run, turn: Turn, lib: Library, first: Permit)
    requires AuthOk(run.auth, first) && LogOk(run, first, lib)
    ensures LogOk(Next(run, turn, lib), first, lib)
  {
    match run.phase
    case Launching(_, _, _) => LaunchLog(run, turn, first, lib);
    case Deciding(d) => DecideLog(run, d, turn, first, lib);
    case Ended(_) =>
    case _ => LogCarriedOk(run, Next(run, turn, lib), first, lib);
  }

  // ----- tool calls and termination ----------------------------------------------------------------------------

  function CallsLeft(calls: nat, first: Permit): nat
  {
    if first.budget.maxToolCalls > calls then first.budget.maxToolCalls - calls else 0
  }

  function Calls(log: Log): nat { log.invocations + log.replays }

  /** `calls` is the counter the run started from. */
  ghost predicate CountOk(run: Run, calls: nat, first: Permit)
  {
    var counted := run.work.state.toolCalls == calls + Calls(run.log);
    && Calls(run.log) <= CallsLeft(calls, first) && run.work.state.toolCalls <= calls + Calls(run.log)
    && match run.phase
       case Launching(_, _, _) => counted && run.work.state.toolCalls < first.budget.maxToolCalls
       case Saving(finished, _) => finished || counted
       case Closing(_, _) => true
       case Ended(_) => true
       case _ => counted
  }

  lemma InvokeCount(run: Run, tool: string, args: map<string, Json>, approved: bool, at: int, outcome: ToolOutcome,
                    calls: nat, first: Permit, lib: Library)
    requires CountOk(run, calls, first) && run.phase.Launching?
    ensures CountOk(Invoke(run, tool, args, approved, at, outcome, lib), calls, first)
  {
  }

  lemma LaunchCount(run: Run, tool: string, args: map<string, Json>, approved: bool, turn: Turn, calls: nat,
                    first: Permit, lib: Library)
    requires CountOk(run, calls, first) && run.phase.Launching?
    ensures CountOk(LaunchTool(run, tool, args, approved, turn, lib), calls, first)
  {
    if turn.launch.Launches? && turn.at < run.auth.effective.expiresAt && turn.launchAt < run.auth.effective.expiresAt {
      InvokeCount(run, tool, args, approved, turn.launchAt, turn.launch.outcome, calls, first, lib);
    }
  }

  lemma DecideCount(run: Run, d: Decision, turn: Turn, calls: nat, first: Permit)
    requires CountOk(run, calls, first) && run.phase == Deciding(d)
    requires run.auth.effective.budget.maxToolCalls <= first.budget.maxToolCalls
    ensures CountOk(Decide(run, d, turn), calls, first)
  {
  }

  lemma CountStep(run: Run, turn: Turn, lib: Library, calls: nat, first: Permit)
    requires AuthOk(run.auth, first) && CountOk(run, calls, first)
    ensures CountOk(Next(run, turn, lib), calls, first)
  {
    match run.phase
    case Launching(tool, args, approved) => LaunchCount(run, tool, args, approved, turn, calls, first, lib);
    case Deciding(d) => DecideCount(run, d, turn, calls, first);
    case Saving(finished, toolRan) => SaveCount(run, turn.cancel.Cancelled?, calls, first);
    case _ =>
  }

  lemma SaveCount(run: Run, cancelled: bool, calls: nat, first: Permit)
    requires CountOk(run, calls, first) && run.phase.Saving?
    ensures CountOk(SaveStep(run, run.phase.finished, run.phase.toolRan, cancelled), calls, first)
  {
  }

  function Rank(phase: Phase): nat
  {
    match phase
    case Asking => 6
    case Answered(_) => 5
    case Deciding(_) => 4
    case Launching(_, _, _) => 3
    case Saving(_, _) => 2
    case Closing(_, _) => 1
    case Ended(_) => 0
  }

  predicate InStep(phase: Phase) { phase.Answered? || phase.Deciding? || phase.Launching? || phase.Saving? }

  /** Inside a step the step counter is under the budget. */
  predicate Underway(run: Run) { InStep(run.phase) ==> run.work.state.step < run.auth.effective.budget.maxSteps }

  /** An upper bound on the phases still to come. */
  function PhasesLeft(run: Run): nat
  {
    var steps := run.auth.effective.budget.maxSteps - run.work.state.step;
    if run.phase.Ended? then 0 else 6 * (if steps > 0 then steps else 0) + Rank(run.phase)
  }

  lemma LaunchMoves(run: Run, tool: string, args: map<string, Json>, approved: bool, turn: Turn, lib: Library)
    ensures var next := LaunchTool(run, tool, args, approved, turn, lib);
            && next.auth == run.auth && next.work.state.step == run.work.state.step
            && (next.phase.Saving? || next.phase.Closing?)
  {
  }

  lemma DecideMoves(run: Run, d: Decision, turn: Turn)
    ensures var next := Decide(run, d, turn);
            && next.auth == run.auth && next.work.state.step == run.work.state.step
            && (next.phase.Launching? || next.phase.Saving? || next.phase.Closing?)
  {
  }

  lemma SaveMoves(run: Run, finished: bool, toolRan: bool, cancelled: bool)
    ensures var next := SaveStep(run, finished, toolRan, cancelled);
            && next.auth == run.auth && next.work.state.step == run.work.state.step + 1
            && (next.phase.Asking? || next.phase.Closing? || next.phase.Ended?)
  {
  }

  /** The run only moves forward: the step counter never falls, and the phase order or the counter moves on. */
  lemma Progress(run: Run, turn: Turn, lib: Library)
    requires Underway(run) && !run.phase.Ended?
    ensures var next := Next(run, turn, lib);
            && Underway(next)
            && next.auth.effective.budget.maxSteps <= run.auth.effective.budget.maxSteps
            && ((next.work.state.step == run.work.state.step && Rank(next.phase) < Rank(run.phase))
                || (run.phase.Saving? && next.work.state.step == run.work.state.step + 1))
  {
    match run.phase
    case Launching(tool, args, approved) => LaunchMoves(run, tool, args, approved, turn, lib);
    case Deciding(d) => DecideMoves(run, d, turn);
    case Saving(finished, toolRan) => SaveMoves(run, finished, toolRan, turn.cancel.Cancelled?);
    case _ =>
  }

  lemma PhaseDecreases(run: Run, turn: Turn, lib: Library)
    requires Underway(run) && !run.phase.Ended?
    ensures Underway(Next(run, turn, lib)) && PhasesLeft(Next(run, turn, lib)) < PhasesLeft(run)
  {
    Progress(run, turn, lib);
  }
}
