/** Every interleaving of runs, drain and shutdown: each lock-protected block is one step. */
module Shutdown {
  import opened Options
  import opened RunProgress

  /** A run as the tracker knows it; `begun` is every operation it ever got to begin. */
  datatype Run = Run(progress: Progress, finished: bool, begun: seq<(Phase, Option<string>)>, report: Option<Snapshot>)

  datatype Waiter =
    | NotWaiting
    | Abandoning(left: set<nat>)  // the wait is over; these runs are still to be abandoned
    | Returned

  datatype World = World(runs: map<nat, Run>, draining: bool, waiter: Waiter)

  const EMPTY_WORLD := World(map[], false, NotWaiting)

  datatype Step =
    | Start(id: nat)
    | Begin(id: nat, operation: Phase, effect: Option<string>)
    | Note(id: nat, task: Option<string>, generation: Option<int>, mark: Option<Phase>)
    | Finish(id: nat)
    | Drain
    | StopWaiting       // idle, or the grace has passed
    | Abandon(id: nat)
    | Return

  function Active(w: World): set<nat> { set id | id in w.runs && !w.runs[id].finished }

  function With(w: World, id: nat, run: Run): World { w.(runs := w.runs[id := run]) }

  /** Steps that do not apply change nothing. */
  function Next(w: World, step: Step): World
  {
    match step
    case Start(id) => if w.draining || id in w.runs then w else With(w, id, Run(FRESH, false, [], None))
    case Begin(id, operation, effect) =>
      if id !in w.runs then w
      else
        var run := w.runs[id];
        (match Begun(run.progress, operation, effect)
         case None => w
         case Some(progress) => With(w, id, run.(progress := progress, begun := run.begun + [(operation, effect)])))
    case Note(id, task, generation, mark) =>
      if id !in w.runs then w
      else With(w, id, w.runs[id].(progress := Noted(w.runs[id].progress, task, generation, mark)))
    case Finish(id) => if id !in w.runs then w else With(w, id, w.runs[id].(finished := true))
    case Drain => w.(draining := true)
    case StopWaiting => if w.draining && w.waiter.NotWaiting? then w.(waiter := Abandoning(Active(w))) else w
    case Abandon(id) =>
      if !w.waiter.Abandoning? || id !in w.waiter.left || id !in w.runs then w
      else
        var run := w.runs[id];
        With(w, id, run.(progress := run.progress.(abandoned := true), report := Some(run.progress.now)))
          .(waiter := Abandoning(w.waiter.left - {id}))
    case Return => if w.waiter == Abandoning({}) then w.(waiter := Returned) else w
  }

  function RunAll(w: World, steps: seq<Step>): World
  {
    if steps == [] then w else Next(RunAll(w, steps[..|steps| - 1]), steps[|steps| - 1])
  }

  // ----- the invariant ---------------------------------------------------------------------------------------

  ghost predicate Distinct(s: seq<string>) { forall i, j :: 0 <= i < j < |s| ==> s[i] != s[j] }

  /** The effect the run began last. */
  function InFlight(begun: seq<(Phase, Option<string>)>): Option<string>
  {
    if begun == [] then None else begun[|begun| - 1].1
  }

  /** The effects a run began, each once, in the order they first began. */
  function Firsts(begun: seq<(Phase, Option<string>)>): seq<string>
  {
    if begun == [] then []
    else
      var before, effect := Firsts(begun[..|begun| - 1]), begun[|begun| - 1].1;
      if effect.None? || effect.value in before then before else before + [effect.value]
  }

  /** What the record of such a run lists. */
  function Listed(begun: seq<(Phase, Option<string>)>): seq<string>
  {
    if begun == [] then [] else WithEffect(Listed(begun[..|begun| - 1]), begun[|begun| - 1].1)
  }

  /** The `k`th operation began an effect again after sixteen others had begun since. */
  predicate ReturnsAt(begun: seq<(Phase, Option<string>)>, k: nat)
    requires k < |begun|
  {
    var before, effect := Firsts(begun[..k]), begun[k].1;
    effect.Some? && effect.value in before && effect.value !in LastOf(before, MAX_EFFECTS)
  }

  ghost predicate NoneReturns(begun: seq<(Phase, Option<string>)>)
  {
    forall k :: 0 <= k < |begun| ==> !ReturnsAt(begun, k)
  }

  /** A record of its own run: at most sixteen distinct effects, the one in flight among them. */
  ghost predicate SnapshotOk(s: Snapshot, begun: seq<(Phase, Option<string>)>)
  {
    && s.effects == Listed(begun)
    && |s.effects| <= MAX_EFFECTS && Distinct(s.effects)
    && (s.phase.Operation() ==> begun != [] && begun[|begun| - 1].0 == s.phase)
    && (s.phase.Operation() && InFlight(begun).Some? ==> InFlight(begun).value in s.effects)
  }

  ghost predicate RunOk(run: Run)
  {
    && SnapshotOk(run.progress.now, run.begun)
    && (run.report.Some? <==> run.progress.abandoned)
    && (run.report.Some? ==> SnapshotOk(run.report.value, run.begun))
  }

  ghost predicate Inv(w: World)
  {
    RunsOk(w) && WaiterOk(w)
  }

  ghost predicate RunsOk(w: World) { forall id :: id in w.runs ==> RunOk(w.runs[id]) }

  /** Once the wait is over, every run is finished, abandoned or still to be abandoned. */
  ghost predicate WaiterOk(w: World)
  {
    && (!w.waiter.NotWaiting? ==> w.draining)
    && (w.waiter.Abandoning? ==>
          forall id :: id in w.runs ==> w.runs[id].finished || w.runs[id].progress.abandoned || id in w.waiter.left)
    && (w.waiter.Returned? ==> forall id :: id in w.runs ==> w.runs[id].finished || w.runs[id].progress.abandoned)
    && (forall id :: id in w.runs && w.runs[id].progress.abandoned ==> !w.waiter.NotWaiting?)
  }

  lemma EffectKept(effects: seq<string>, effect: Option<string>)
    requires |effects| <= MAX_EFFECTS && Distinct(effects)
    ensures var more := WithEffect(effects, effect);
            |more| <= MAX_EFFECTS && Distinct(more) && (effect.Some? ==> effect.value in more)
  {
    if effect.Some? && effect.value !in effects {
      var all := effects + [effect.value];
      assert all[|all| - 1] == effect.value;
      if |all| > MAX_EFFECTS {
        var kept := all[|all| - MAX_EFFECTS..];
        assert kept[|kept| - 1] == effect.value;
      }
    }
  }

  lemma BeginKeeps(run: Run, operation: Phase, effect: Option<string>)
    requires RunOk(run) && Begun(run.progress, operation, effect).Some?
    ensures var progress := Begun(run.progress, operation, effect).value;
            RunOk(run.(progress := progress, begun := run.begun + [(operation, effect)]))
  {
    EffectKept(run.progress.now.effects, effect);
    assert (run.begun + [(operation, effect)])[..|run.begun|] == run.begun;
  }

  lemma NextKeeps(w: World, step: Step)
    requires Inv(w)
    ensures Inv(Next(w, step))
  {
    NextRunsOk(w, step);
    NextWaiterOk(w, step);
  }

  lemma NextRunsOk(w: World, step: Step)
    requires RunsOk(w)
    ensures RunsOk(Next(w, step))
  {
    if step.Begin? && step.id in w.runs && Begun(w.runs[step.id].progress, step.operation, step.effect).Some? {
      BeginKeeps(w.runs[step.id], step.operation, step.effect);
    }
  }

  lemma NextWaiterOk(w: World, step: Step)
    requires WaiterOk(w)
    ensures WaiterOk(Next(w, step))
  {
  }

  lemma {:induction false} RunKeeps(w: World, steps: seq<Step>)
    requires Inv(w)
    ensures Inv(RunAll(w, steps))
  {
    if steps != [] {
      RunKeeps(w, steps[..|steps| - 1]);
      NextKeeps(RunAll(w, steps[..|steps| - 1]), steps[|steps| - 1]);
    }
  }

  // ----- the results -----------------------------------------------------------------------------------------

  /** Once draining has begun no run starts, whatever happens after. */
  lemma {:induction false} NoStartAfterDrain(w: World, steps: seq<Step>)
    requires w.draining
    ensures RunAll(w, steps).draining && RunAll(w, steps).runs.Keys == w.runs.Keys
  {
    if steps != [] { NoStartAfterDrain(w, steps[..|steps| - 1]); }
  }

  /** The run stays abandoned with the same operations begun and the same report. */
  ghost predicate Settled(w: World, id: nat, before: Run)
  {
    && id in w.runs && w.runs[id].progress.abandoned
    && w.runs[id].begun == before.begun && w.runs[id].report == before.report
    && !w.waiter.NotWaiting? && (w.waiter.Abandoning? ==> id !in w.waiter.left)
  }

  lemma SettledStep(w: World, step: Step, id: nat, before: Run)
    requires Settled(w, id, before)
    ensures Settled(Next(w, step), id, before)
  {
  }

  /** Once a run is abandoned it begins no operation, and its report never changes. */
  lemma {:induction false} NothingBeginsAfterAbandonment(w: World, steps: seq<Step>, id: nat)
    requires id in w.runs && Settled(w, id, w.runs[id])
    ensures Settled(RunAll(w, steps), id, w.runs[id])
  {
    if steps != [] {
      NothingBeginsAfterAbandonment(w, steps[..|steps| - 1], id);
      SettledStep(RunAll(w, steps[..|steps| - 1]), steps[|steps| - 1], id, w.runs[id]);
    }
  }

  /** And that is the state the step of abandoning it leaves. */
  lemma AbandonSettles(w: World, id: nat)
    requires Inv(w) && w.waiter.Abandoning? && id in w.waiter.left && id in w.runs
    ensures var after := Next(w, Abandon(id));
            && Settled(after, id, after.runs[id])
            && after.runs[id].report == Some(w.runs[id].progress.now)
  {
  }

  /** When the wait has returned, every run that ever started is finished or abandoned. */
  lemma ReturnedMeansDone(steps: seq<Step>, id: nat)
    requires RunAll(EMPTY_WORLD, steps).waiter.Returned? && id in RunAll(EMPTY_WORLD, steps).runs
    ensures var run := RunAll(EMPTY_WORLD, steps).runs[id]; run.finished || run.progress.abandoned
  {
    RunKeeps(EMPTY_WORLD, steps);
  }

  /** The listed effects were begun by this run. */
  lemma {:induction false} ListedWereBegun(begun: seq<(Phase, Option<string>)>, effect: string)
    requires effect in Listed(begun)
    ensures effect in Firsts(begun) && exists i :: 0 <= i < |begun| && begun[i].1 == Some(effect)
  {
    var before, last := begun[..|begun| - 1], begun[|begun| - 1];
    if effect in Listed(before) {
      ListedWereBegun(before, effect);
      var i :| 0 <= i < |before| && before[i].1 == Some(effect);
      assert begun[i].1 == Some(effect);
    } else {
      assert last.1 == Some(effect);
    }
  }

  /** The list over the first `k` operations is their last sixteen effects. */
  ghost predicate LastSixteen(begun: seq<(Phase, Option<string>)>, k: nat)
    requires k <= |begun|
  {
    Listed(begun[..k]) == LastOf(Firsts(begun[..k]), MAX_EFFECTS)
  }

  lemma OneMoreListed(begun: seq<(Phase, Option<string>)>, k: nat)
    requires k < |begun| && LastSixteen(begun, k)
    ensures LastSixteen(begun, k + 1) <==> !ReturnsAt(begun, k)
  {
    assert begun[..k + 1][..k] == begun[..k];
    var firsts, listed, effect := Firsts(begun[..k]), Listed(begun[..k]), begun[k].1;
    if effect.Some? && effect.value !in listed {
      var more := LastOf(listed + [effect.value], MAX_EFFECTS);
      assert more[|more| - 1] == effect.value;
      if effect.value in firsts { assert firsts != []; } else { LastOfSnoc(firsts, effect.value); }
    }
  }

  lemma LastOfSnoc(s: seq<string>, e: string)
    ensures LastOf(LastOf(s, MAX_EFFECTS) + [e], MAX_EFFECTS) == LastOf(s + [e], MAX_EFFECTS)
  {
  }

  lemma {:induction false} LastSixteenSoFar(begun: seq<(Phase, Option<string>)>, n: nat)
    requires n <= |begun| && forall k :: 0 <= k < n ==> !ReturnsAt(begun, k)
    ensures forall k :: 0 <= k <= n ==> LastSixteen(begun, k)
  {
    if n > 0 {
      LastSixteenSoFar(begun, n - 1);
      OneMoreListed(begun, n - 1);
    } else {
      assert begun[..0] == [];
    }
  }

  /**
    All through a run its record lists exactly the last sixteen effects it began, in the order they first began, if and
    only if no effect begins again once sixteen others have begun since.
  */
  lemma ListsTheLastSixteen(begun: seq<(Phase, Option<string>)>)
    ensures (forall k :: 0 <= k <= |begun| ==> LastSixteen(begun, k)) <==> NoneReturns(begun)
  {
    if NoneReturns(begun) {
      LastSixteenSoFar(begun, |begun|);
    } else {
      var k :| 0 <= k < |begun| && ReturnsAt(begun, k);
      if LastSixteen(begun, k) { OneMoreListed(begun, k); }
    }
  }

  function Name(k: nat): string { seq(k, _ => 'e') }

  function Rising(n: nat): seq<(Phase, Option<string>)>
  {
    if n == 0 then [] else Rising(n - 1) + [(SideEffectingTool, Some(Name(n - 1)))]
  }

  lemma {:induction false} RisingFirsts(n: nat)
    ensures |Rising(n)| == n && |Firsts(Rising(n))| == n
    ensures forall k :: 0 <= k < n ==> Firsts(Rising(n))[k] == Name(k)
  {
    if n > 0 {
      RisingFirsts(n - 1);
      assert Rising(n)[..n - 1] == Rising(n - 1);
      assert Name(n - 1) !in Firsts(Rising(n - 1));
    }
  }

  /** Which can happen: seventeen effects, and then the first again, which the record takes for a new one. */
  lemma FirstReturns()
    ensures !NoneReturns(Rising(17) + [(SideEffectingTool, Some(Name(0)))])
  {
    RisingFirsts(17);
    var begun := Rising(17) + [(SideEffectingTool, Some(Name(0)))];
    assert begun[..17] == Rising(17);
    var kept := LastOf(Firsts(Rising(17)), MAX_EFFECTS);
    assert forall k :: 0 <= k < |kept| ==> kept[k] == Name(k + 1);
    assert Firsts(Rising(17))[0] == Name(0);
    assert ReturnsAt(begun, 17);
  }

  /**
    A report names the phase at the moment of abandonment: when that is an operation it is the last the run ever
    began, and the effect it began with is among the at most sixteen distinct effects named. Every effect named was
    begun by that run, and they are its last sixteen unless one began again after dropping out.
  */
  lemma ReportNamesTheLastOperation(steps: seq<Step>, id: nat)
    requires id in RunAll(EMPTY_WORLD, steps).runs && RunAll(EMPTY_WORLD, steps).runs[id].report.Some?
    ensures var run := RunAll(EMPTY_WORLD, steps).runs[id];
            && run.progress.abandoned && SnapshotOk(run.report.value, run.begun)
            && (forall e :: e in run.report.value.effects ==> e in Firsts(run.begun))
            && (NoneReturns(run.begun) ==> run.report.value.effects == LastOf(Firsts(run.begun), MAX_EFFECTS))
  {
    RunKeeps(EMPTY_WORLD, steps);
    var run := RunAll(EMPTY_WORLD, steps).runs[id];
    forall e | e in run.report.value.effects ensures e in Firsts(run.begun) { ListedWereBegun(run.begun, e); }
    ListsTheLastSixteen(run.begun);
    if NoneReturns(run.begun) {
      assert LastSixteen(run.begun, |run.begun|);
      assert run.begun[..|run.begun|] == run.begun;
    }
  }
}
