/**
  The trusted clock: a wall clock judged against a monotonic baseline. Clock readings come in as reals (None for a
  reading that is not finite); a call of `now` reads both clocks and judges them in one step.
*/
module TrustedClocks {
  import opened Options

  const MAX_TOLERANCE := 3600

  datatype Clock = Clock(
    tolerance: int, wallBase: real, monotonicBase: real, rolledBackBy: Option<real>, forwardJumps: nat)
  {
    /** Where the wall clock should be when the monotonic clock reads `elapsed`. */
    function Expected(elapsed: real): real { wallBase + (elapsed - monotonicBase) }
  }

  /** `int`: towards zero. */
  function Truncated(x: real): int { if x >= 0.0 then x.Floor else -((-x).Floor) }

  function MaxReal(a: real, b: real): real { if a >= b then a else b }

  predicate ValidTolerance(seconds: int) { 1 <= seconds <= MAX_TOLERANCE }

  /** A bad tolerance raises and changes nothing. */
  function SetTolerance(c: Clock, seconds: int): Clock
  {
    if ValidTolerance(seconds) then c.(tolerance := seconds) else c
  }

  /** The clock after a call of `now`. */
  function Judged(c: Clock, wall: Option<real>, elapsed: real): Clock
  {
    if wall.None? then c
    else
      var drift := wall.value - c.Expected(elapsed);
      if c.rolledBackBy.Some? || drift < -(c.tolerance as real) then
        c.(rolledBackBy := Some(MaxReal(if c.rolledBackBy.Some? then c.rolledBackBy.value else 0.0, -drift)))
      else if drift > c.tolerance as real then
        c.(wallBase := wall.value, monotonicBase := elapsed, forwardJumps := c.forwardJumps + 1)
      else c
  }

  /** Whether a call of `now` answers rather than raising. */
  predicate Answers(c: Clock, wall: Option<real>, elapsed: real)
  {
    wall.Some? && c.rolledBackBy.None? && wall.value >= c.Expected(elapsed) - c.tolerance as real
  }

  class TrustedClock {
    var tolerance: int
    var wallBase: real
    var monotonicBase: real
    var rolledBackBy: Option<real>
    var forwardJumps: nat

    function View(): Clock
      reads this
    {
      Clock(tolerance, wallBase, monotonicBase, rolledBackBy, forwardJumps)
    }

    constructor (seconds: int, wall: real, elapsed: real)
      requires ValidTolerance(seconds)
      ensures View() == Clock(seconds, wall, elapsed, None, 0)
    {
      tolerance, wallBase, monotonicBase, rolledBackBy, forwardJumps := seconds, wall, elapsed, None, 0;
    }

    method ChangeTolerance(seconds: int) returns (ok: bool)
      modifies this`tolerance
      ensures ok == ValidTolerance(seconds) && View() == SetTolerance(old(View()), seconds)
    {
      ok := 1 <= seconds <= MAX_TOLERANCE;
      if ok { tolerance := seconds; }
    }

    /** `now`; None is ClockRollbackError. */
    method Now(wall: Option<real>, elapsed: real) returns (time: Option<int>)
      modifies this
      ensures View() == Judged(old(View()), wall, elapsed)
      ensures time == if Answers(old(View()), wall, elapsed) then Some(Truncated(wall.value)) else None
    {
      if wall.None? { return None; }
      var expected := wallBase + (elapsed - monotonicBase);
      var drift := wall.value - expected;
      if rolledBackBy.Some? || drift < -(tolerance as real) {
        var before := if rolledBackBy.Some? then rolledBackBy.value else 0.0;
        rolledBackBy := Some(MaxReal(before, -drift));
        return None;
      }
      if drift > tolerance as real {
        forwardJumps := forwardJumps + 1;
        wallBase, monotonicBase := wall.value, elapsed;
      }
      return Some(Truncated(wall.value));
    }
  }

  // ----- runs ------------------------------------------------------------------------------------------------

  datatype Event = Read(wall: Option<real>, elapsed: real) | Retune(seconds: int)

  /** `walls` are the wall clocks of the calls that answered; `latest` is the monotonic clock's last reading. */
  datatype Trace = Trace(clock: Clock, walls: seq<real>, latest: real)

  function Next(t: Trace, event: Event): Trace
  {
    match event
    case Retune(seconds) => t.(clock := SetTolerance(t.clock, seconds))
    case Read(wall, elapsed) =>
      Trace(Judged(t.clock, wall, elapsed),
            if Answers(t.clock, wall, elapsed) then t.walls + [wall.value] else t.walls, elapsed)
  }

  function Run(t: Trace, events: seq<Event>): Trace
  {
    if events == [] then t else Next(Run(t, events[..|events| - 1]), events[|events| - 1])
  }

  /** The monotonic clock never falls. */
  ghost predicate Monotonic(t: Trace, events: seq<Event>)
  {
    events == [] || (Monotonic(t, events[..|events| - 1])
                     && var last := events[|events| - 1];
                        last.Read? ==> last.elapsed >= Run(t, events[..|events| - 1]).latest)
  }

  /** No tolerance above `most` is ever in force. */
  ghost predicate Tuned(events: seq<Event>, most: int)
  {
    forall i :: 0 <= i < |events| && events[i].Retune? && ValidTolerance(events[i].seconds) ==>
        events[i].seconds <= most
  }

  /** Every answer so far is at most one tolerance ahead of the baseline as it stands. */
  ghost predicate Bounded(t: Trace, most: int)
  {
    && 0 <= t.clock.tolerance <= most
    && forall i :: 0 <= i < |t.walls| ==> t.walls[i] <= t.clock.Expected(t.latest) + most as real
  }

  /** Every answer is at most two tolerances before any earlier one. */
  ghost predicate Steady(t: Trace, most: int)
  {
    forall i, j :: 0 <= i < j < |t.walls| ==> t.walls[j] >= t.walls[i] - 2.0 * most as real
  }

  lemma NextBounded(t: Trace, event: Event, most: int)
    requires Bounded(t, most) && Steady(t, most)
    requires event.Read? ==> event.elapsed >= t.latest
    requires event.Retune? && ValidTolerance(event.seconds) ==> event.seconds <= most
    ensures Bounded(Next(t, event), most) && Steady(Next(t, event), most)
  {
    if event.Read? && event.wall.Some? {
      var next := Next(t, event);
      assert next.clock.Expected(event.elapsed) >= t.clock.Expected(event.elapsed) >= t.clock.Expected(t.latest);
      if Answers(t.clock, event.wall, event.elapsed) {
        assert event.wall.value <= next.clock.Expected(event.elapsed) + most as real;
        forall i | 0 <= i < |t.walls| ensures event.wall.value >= t.walls[i] - 2.0 * most as real {}
      }
    }
  }

  lemma {:induction false} RunBounded(t: Trace, events: seq<Event>, most: int)
    requires Bounded(t, most) && Steady(t, most) && Monotonic(t, events) && Tuned(events, most)
    ensures Bounded(Run(t, events), most) && Steady(Run(t, events), most)
  {
    if events != [] {
      assert Tuned(events[..|events| - 1], most);
      RunBounded(t, events[..|events| - 1], most);
      NextBounded(Run(t, events[..|events| - 1]), events[|events| - 1], most);
    }
  }

  lemma FloorShift(x: real, y: real, n: int)
    requires y >= x - n as real
    ensures y.Floor >= x.Floor - n
  {
    assert y >= x.Floor as real - n as real;
  }

  lemma TruncatedShift(x: real, y: real, n: nat)
    requires y >= x - n as real
    ensures Truncated(y) >= Truncated(x) - n
  {
    if x >= 0.0 && y >= 0.0 {
      FloorShift(x, y, n);
    } else if x < 0.0 && y < 0.0 {
      FloorShift(-y, -x, n);
    } else if x >= 0.0 {
      assert -y <= n as real - x;
      assert (-y).Floor as real <= n as real - x.Floor as real;
    }
  }

  function Fresh(seconds: int, wall: real, elapsed: real): Trace
  {
    Trace(Clock(seconds, wall, elapsed, None, 0), [], elapsed)
  }

  /** Later answers are at most twice the largest tolerance before earlier ones, through jumps and retuning. */
  lemma AnswersHardlyFall(seconds: int, wall: real, elapsed: real, events: seq<Event>, most: int, i: nat, j: nat)
    requires ValidTolerance(seconds) && seconds <= most && Tuned(events, most)
    requires Monotonic(Fresh(seconds, wall, elapsed), events)
    requires i < j < |Run(Fresh(seconds, wall, elapsed), events).walls|
    ensures var walls := Run(Fresh(seconds, wall, elapsed), events).walls;
            Truncated(walls[j]) >= Truncated(walls[i]) - 2 * most
  {
    RunBounded(Fresh(seconds, wall, elapsed), events, most);
    var walls := Run(Fresh(seconds, wall, elapsed), events).walls;
    TruncatedShift(walls[i], walls[j], 2 * most);
  }

  /** And twice is needed: a step ahead within the tolerance, then a step back within it. */
  lemma TwiceIsReached(seconds: int)
    requires ValidTolerance(seconds)
    ensures var s := seconds as real;
            var t := Next(Next(Fresh(seconds, 5000.0, 0.0), Read(Some(5000.0 + s), 0.0)), Read(Some(5000.0 - s), 0.0));
            |t.walls| == 2 && Truncated(t.walls[1]) == Truncated(t.walls[0]) - 2 * seconds
  {
    var s := seconds as real;
    assert (5000.0 + s).Floor == 5000 + seconds && (5000.0 - s).Floor == 5000 - seconds;
  }

  /** A rollback, once seen, is never forgiven. */
  lemma {:induction false} RollbackIsSticky(t: Trace, events: seq<Event>)
    requires t.clock.rolledBackBy.Some?
    ensures Run(t, events).clock.rolledBackBy.Some? && Run(t, events).walls == t.walls
  {
    if events != [] { RollbackIsSticky(t, events[..|events| - 1]); }
  }

  // ----- the durable floor -----------------------------------------------------------------------------------

  datatype FloorRefusal = ClockBehindFloor | DatabaseBehindFloor | ClocksDisagree

  function Abs(x: int): int { if x >= 0 then x else -x }

  /** `check_time_floor`, given the clock's answer; `database` is the database clock where there is one. */
  function CheckFloor(now: int, tolerance: int, stored: int, mirrored: int, database: Option<int>): Option<FloorRefusal>
  {
    if now + tolerance < (if stored >= mirrored then stored else mirrored) then Some(ClockBehindFloor)
    else if database.Some? && database.value + tolerance < stored then Some(DatabaseBehindFloor)
    else if database.Some? && Abs(now - database.value) > tolerance then Some(ClocksDisagree)
    else None
  }

  /** Once the floor was accepted, no later answer is more than three tolerances below it. */
  lemma FloorHolds(seconds: int, wall: real, elapsed: real, events: seq<Event>, most: int, i: nat, j: nat,
                   tolerance: int, stored: int, mirrored: int, database: Option<int>)
    requires ValidTolerance(seconds) && seconds <= most && tolerance <= most && Tuned(events, most)
    requires Monotonic(Fresh(seconds, wall, elapsed), events)
    requires i <= j < |Run(Fresh(seconds, wall, elapsed), events).walls|
    requires CheckFloor(Truncated(Run(Fresh(seconds, wall, elapsed), events).walls[i]), tolerance, stored, mirrored,
                        database).None?
    ensures var later := Truncated(Run(Fresh(seconds, wall, elapsed), events).walls[j]);
            later >= stored - 3 * most && later >= mirrored - 3 * most
  {
    if i < j { AnswersHardlyFall(seconds, wall, elapsed, events, most, i, j); }
  }

  /** And three are needed: a floor one tolerance above the answer that accepted it, and the two of `TwiceIsReached`. */
  lemma ThriceIsReached(seconds: int)
    requires ValidTolerance(seconds)
    ensures var s := seconds as real;
            var t := Next(Next(Fresh(seconds, 5000.0, 0.0), Read(Some(5000.0 + s), 0.0)), Read(Some(5000.0 - s), 0.0));
            && |t.walls| == 2
            && var floor := Truncated(t.walls[0]) + seconds;
               && CheckFloor(Truncated(t.walls[0]), seconds, floor, floor, None).None?
               && Truncated(t.walls[1]) == floor - 3 * seconds
  {
    TwiceIsReached(seconds);
  }
}
