/** The progress record of a run, the tracker of the runs of a server, and the fence between them at shutdown. */
module RunProgress {
  import opened Options

  const MAX_EFFECTS := 16

  /** The first five are operations, which a run begins; the rest are marks, which start nothing. */
  datatype Phase =
    | Deciding | Approving | Tool | SideEffectingTool | Persisting
    | Admitting | ToolReturned | Persisted
  {
    predicate Operation() { Deciding? || Approving? || Tool? || SideEffectingTool? || Persisting? }
  }

  /** What a shutdown report says of a run. */
  datatype Snapshot = Snapshot(task: Option<string>, generation: Option<int>, phase: Phase, effects: seq<string>)

  datatype Progress = Progress(now: Snapshot, abandoned: bool)

  const FRESH := Progress(Snapshot(None, None, Admitting, []), false)

  function LastOf(s: seq<string>, n: nat): seq<string> { if |s| <= n then s else s[|s| - n..] }

  function WithEffect(effects: seq<string>, effect: Option<string>): seq<string>
  {
    if effect.None? || effect.value in effects then effects else LastOf(effects + [effect.value], MAX_EFFECTS)
  }

  /** None when the step is refused: the run was abandoned, or this is no operation. */
  function Begun(p: Progress, operation: Phase, effect: Option<string>): Option<Progress>
  {
    if !operation.Operation() || p.abandoned then None
    else Some(p.(now := p.now.(phase := operation, effects := WithEffect(p.now.effects, effect))))
  }

  /** Identifiers and marks are recorded whether or not the run is abandoned; an operation is not a mark. */
  function Noted(p: Progress, task: Option<string>, generation: Option<int>, mark: Option<Phase>): Progress
  {
    if mark.Some? && mark.value.Operation() then p
    else p.(now := Snapshot(if task.Some? then task else p.now.task,
                            if generation.Some? then generation else p.now.generation,
                            if mark.Some? then mark.value else p.now.phase, p.now.effects))
  }

  class RunRecord {
    var now: Snapshot
    var abandoned: bool

    function View(): Progress
      reads this
    {
      Progress(now, abandoned)
    }

    constructor ()
      ensures View() == FRESH
    {
      now, abandoned := FRESH.now, false;
    }

    /** One atomic step: refuse, or record the operation as the one in flight. */
    method Begin(operation: Phase, effect: Option<string>) returns (ok: bool)
      modifies this
      ensures ok == Begun(old(View()), operation, effect).Some?
      ensures View() == if ok then Begun(old(View()), operation, effect).value else old(View())
    {
      if !operation.Operation() || abandoned { return false; }
      now := now.(phase := operation);
      if effect.Some? && effect.value !in now.effects {
        now := now.(effects := now.effects + [effect.value]);
        if |now.effects| > MAX_EFFECTS {
          now := now.(effects := now.effects[|now.effects| - MAX_EFFECTS..]);
        }
      }
      return true;
    }

    /** Abandon the run and take its report in one step. */
    method Abandon() returns (report: Snapshot)
      modifies this
      ensures View() == old(View()).(abandoned := true) && report == old(now)
    {
      abandoned := true;
      return now;
    }

    method Note(task: Option<string>, generation: Option<int>, mark: Option<Phase>) returns (ok: bool)
      modifies this
      ensures ok == !(mark.Some? && mark.value.Operation())
      ensures View() == Noted(old(View()), task, generation, mark)
    {
      if mark.Some? && mark.value.Operation() { return false; }
      if task.Some? { now := now.(task := task); }
      if generation.Some? { now := now.(generation := generation); }
      if mark.Some? { now := now.(phase := mark.value); }
      return true;
    }
  }

  class RunTracker {
    var active: set<RunRecord>
    var drainStarted: Option<real>

    constructor ()
      ensures active == {} && drainStarted == None
    {
      active, drainStarted := {}, None;
    }

    /** The grace is measured from the first call. */
    method BeginDrain(monotonic: real)
      modifies this`drainStarted
      ensures drainStarted == if old(drainStarted).None? then Some(monotonic) else old(drainStarted)
    {
      if drainStarted.None? { drainStarted := Some(monotonic); }
    }

    method TryStart() returns (run: Option<RunRecord>)
      modifies this`active
      ensures run.None? <==> drainStarted.Some?
      ensures run.None? ==> active == old(active)
      ensures run.Some? ==> fresh(run.value) && run.value.View() == FRESH && active == old(active) + {run.value}
    {
      if drainStarted.Some? { return None; }
      var record := new RunRecord();
      active := active + {record};
      return Some(record);
    }

    method Finish(record: RunRecord)
      modifies this`active
      ensures active == old(active) - {record}
    {
      active := active - {record};
    }
  }

  /** The last line of `wait_until_idle`: every run still active is abandoned, each with its own report. */
  method AbandonAll(leftovers: seq<RunRecord>) returns (reports: seq<Snapshot>)
    requires forall i, j :: 0 <= i < j < |leftovers| ==> leftovers[i] != leftovers[j]
    modifies leftovers
    ensures |reports| == |leftovers|
    ensures forall i :: 0 <= i < |leftovers| ==>
              leftovers[i].View() == old(leftovers[i].View()).(abandoned := true) && reports[i] == old(leftovers[i].now)
  {
    reports := [];
    for n := 0 to |leftovers|
      invariant |reports| == n
      invariant forall i :: 0 <= i < n ==>
                  && leftovers[i].View() == old(leftovers[i].View()).(abandoned := true)
                  && reports[i] == old(leftovers[i].now)
      invariant forall i :: n <= i < |leftovers| ==> leftovers[i].View() == old(leftovers[i].View())
    {
      var report := leftovers[n].Abandon();
      reports := reports + [report];
    }
  }
}
