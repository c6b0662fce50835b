/** When renewals begin, over whole runs of the refresher. A tick at time `t` works with `now == t.Floor`. */
module TokenSchedule {
  import opened Options
  import opened TokenRefresh

  /** From here on the worker refuses a token that expires at `expires`. */
  function RefusalPoint(expires: int): real { (expires - MARGIN) as real }

  /** Less than five seconds into the slack. */
  predicate InTime(t: real, cost: real, expires: int) { t < (expires - MARGIN - Slack(cost) + MIN_SLEEP) as real }

  /** What renewing other servers may take within a tick without delaying this one. */
  function Spare(cost: real): real { (Slack(cost) - MIN_SLEEP) as real }

  lemma SlackBounds(cost: real)
    ensures MIN_SLACK <= Slack(cost) <= MAX_SLACK
    ensures cost <= MAX_SLACK as real / 2.0 - 0.5 ==> Slack(cost) as real > 2.0 * cost - 1.0
  {
  }

  lemma SlackGrows(cost: real, more: real)
    requires cost <= more
    ensures Slack(cost) <= Slack(more)
  {
  }

  // ----- from one tick to the next ---------------------------------------------------------------------------

  /** A tick that holds a renewal back is followed by one less than five seconds into the slack. */
  lemma HeldIsInTime(r: Record, expires: int, ahead: int, t: real, wait: int)
    requires !Unmaintainable(r, expires) && Held(r, expires, ahead, t.Floor) > 0
    requires wait <= Max(MIN_SLEEP, Held(r, expires, ahead, t.Floor))
    ensures InTime(t + wait as real, r.cost, expires)
  {
    SlackBounds(r.cost);
    assert t < (t.Floor + 1) as real;
  }

  /**
    A token that can be maintained from its renewal on: the first tick after the renewal is in time. The renewal
    started at a tick at `t` and took `elapsed`; its completion is dated by rounding up.
  */
  lemma FirstTickInTime(t: real, elapsed: real, cost: real, expires: int, ahead: int, wait: int)
    requires elapsed >= 0.0
    requires !Unmaintainable(Record(Some(t.Floor + Ceiling(elapsed)), cost), expires)
    requires var completed := t.Floor + Ceiling(elapsed);
             wait <= Max(MIN_SLEEP, Held(Record(Some(completed), cost), expires, ahead, completed))
    ensures InTime(t + elapsed + wait as real, cost, expires)
  {
    var completed := t.Floor + Ceiling(elapsed);
    assert t + elapsed < (completed + 1) as real by {
      assert (-elapsed).Floor as real <= -elapsed;
      assert t < (t.Floor + 1) as real;
    }
    SlackBounds(cost);
  }

  // ----- what other servers may take -------------------------------------------------------------------------

  /**
    After a tick at `t` that held this renewal back, with `others` spent on other servers, the next is not too late.
  */
  ghost predicate NextIsInTime(r: Record, expires: int, ahead: int, t: real, others: real)
  {
    !Unmaintainable(r, expires) && Held(r, expires, ahead, t.Floor) > 0 ==>
      t + others + Max(MIN_SLEEP, Held(r, expires, ahead, t.Floor)) as real < RefusalPoint(expires)
  }

  /**
    A tick reads the clock once, so what it spends on other servers comes on top of the wait. Every server with renewals
    of this cost is asked about again before its token is refused exactly when that is at most the slack less five
    seconds: nothing at all, for a server whose renewals are quick.
  */
  lemma OthersMayTake(cost: real, others: real)
    requires others >= 0.0
    ensures (forall last, expires, ahead, t :: NextIsInTime(Record(last, cost), expires, ahead, t, others)) <==>
            others <= Spare(cost)
  {
    SlackBounds(cost);
    forall last, expires, ahead, t | others <= Spare(cost)
      ensures NextIsInTime(Record(last, cost), expires, ahead, t, others)
    {
      var r := Record(last, cost);
      if !Unmaintainable(r, expires) && Held(r, expires, ahead, t.Floor) > 0 {
        HeldIsInTime(r, expires, ahead, t, Max(MIN_SLEEP, Held(r, expires, ahead, t.Floor)));
      }
    }
    if others > Spare(cost) {
      var t := NeighbourDelays(cost, others, 0, 0);
      assert Book(map[], map["b" := 0 - 4], map["b" := cost]).Of("b") == Record(Some(-4), cost);
      assert !NextIsInTime(Record(Some(-4), cost), 61 + Slack(cost), 0, t, others);
    }
  }

  /** Two servers: the token of `a` has run out and an hour's is to be had, and `b` was renewed four seconds ago. */
  function Neighbours(cost: real, others: real, ahead: int, now: int): map<string, Server>
  {
    var renewed := Stored(now + Ceiling(others) + 3600, "", false);
    map["a" := Server(Stored(now + Min(0, ahead), "", false), Renews(others, renewed)),
        "b" := Server(Stored(now + 61 + Slack(cost), "", false), FailsForNow)]
  }

  /** The tick that makes `b` late: it renews `a`, holds `b` back, and the next one comes at or after `b`'s refusal. */
  lemma NeighbourDelays(cost: real, others: real, ahead: int, now: int) returns (t: real)
    requires others >= 0.0 && others > Spare(cost)
    ensures t.Floor == now
    ensures var book := Book(map[], map["b" := now - 4], map["b" := cost]);
            var servers := Neighbours(cost, others, ahead, now);
            var done := TickAll(book, ["a", "b"], servers, ahead, t.Floor);
            && !Unmaintainable(book.Of("b"), servers["b"].store.expires) && done.renewed == {"a"}
            && Held(book.Of("b"), servers["b"].store.expires, ahead, t.Floor) == done.soonest == 1
            && t + others + Max(MIN_SLEEP, done.soonest) as real >= RefusalPoint(servers["b"].store.expires)
  {
    SlackBounds(cost);
    var late := (Slack(cost) - 4) as real - others;
    t := now as real + if late > 0.0 then late else 0.0;
    var book := Book(map[], map["b" := now - 4], map["b" := cost]);
    var servers := Neighbours(cost, others, ahead, now);
    var first := Visited(book, "a", servers["a"], ahead, now);
    assert first.renewed && first.wait >= MIN_INTERVAL by { SlackBounds(if others > 0.0 then others else 0.0); }
    OthersUntouched(book, "a", servers["a"], ahead, now, "b", servers["b"].store);
    var second := Visited(first.book, "b", servers["b"], ahead, now);
    assert !second.renewed && second.wait == 1;
    TwoServers(book, servers, ahead, now);
  }

  lemma TwoServers(book: Book, servers: map<string, Server>, ahead: int, now: int)
    requires "a" in servers && "b" in servers
    ensures var first := Visited(book, "a", servers["a"], ahead, now);
            var second := Visited(first.book, "b", servers["b"], ahead, now);
            TickAll(book, ["a", "b"], servers, ahead, now) ==
              Ticked(second.book, Min(Min(MAX_SLEEP, first.wait), second.wait),
                     (if first.renewed then {"a"} else {}) + (if second.renewed then {"b"} else {}))
  {
    assert ["a", "b"][..1] == ["a"] && ["a"][..0] == [];
    assert TickAll(book, ["a"], servers, ahead, now).book == Visited(book, "a", servers["a"], ahead, now).book;
  }

  // ----- what a renewal is worth -----------------------------------------------------------------------------

  /** A renewal that is taken up asks the server for a token. */
  ghost predicate AsksWhenDue(r: Record, expires: int, ahead: int, now: int)
  {
    Held(r, expires, ahead, now) == 0 ==> Asks(Stored(expires, "", false), ahead, now)
  }

  /**
    Every renewal that is taken up asks for a new token exactly when the configured margin covers the worker's and the
    slack. With less, the deadline comes while the token still counts as fresh.
  */
  lemma AheadMustCoverTheSlack(cost: real, ahead: int)
    ensures (forall last, expires, now :: AsksWhenDue(Record(last, cost), expires, ahead, now)) <==>
            ahead >= MARGIN + Slack(cost)
  {
    if ahead < MARGIN + Slack(cost) {
      assert !AsksWhenDue(Record(None, cost), MARGIN + Slack(cost), ahead, 0);
    }
  }

  /**
    What less costs: such a renewal is booked as a success, the token is as old as before, and from then on no schedule
    seems able to keep it usable. It is never renewed again.
  */
  lemma EmptyRenewalIsTheLast(book: Book, name: string, server: Server, ahead: int, now: int, later: int)
    requires Due(book, name, server.store, ahead, now) && !Asks(server.store, ahead, now)
    requires !server.outcome.FailsForNow? && (server.outcome.Renews? ==> server.outcome.elapsed >= 0.0)
    ensures var after := Visited(book, name, server, ahead, now);
            && after.renewed && after.book.Of(name).last.Some? && after.book.Of(name).last.value >= now
            && Unmaintainable(after.book.Of(name), server.store.expires)
            && !Due(after.book, name, server.store, ahead, later)
  {
    var r := book.Of(name);
    var after := Visited(book, name, server, ahead, now).book.Of(name);
    SlackGrows(r.cost, after.cost);
  }

  /** Ten seconds ahead, with a 75-second token: the first renewal is such a one. */
  lemma TenAheadIsTooFew(digest: string, elapsed: real, later: int)
    requires elapsed >= 0.0
    ensures var book, store := Book(map[], map["b" := 0], map["b" := 0.0]), Stored(75, digest, false);
            && Due(book, "b", store, 10, 10)
            && !Due(Visited(book, "b", Server(store, Renews(elapsed, store)), 10, 10).book, "b", store, 10, later)
  {
    var book, store := Book(map[], map["b" := 0], map["b" := 0.0]), Stored(75, digest, false);
    EmptyRenewalIsTheLast(book, "b", Server(store, Renews(elapsed, store)), 10, 10, later);
  }

  // ----- runs of the refresher -------------------------------------------------------------------------------

  /** A tick: when it started, what it started from, and what all its renewals took. */
  datatype Tick = Tick(t: real, book: Book, servers: map<string, Server>, spent: real)

  predicate Listed(names: seq<string>, servers: map<string, Server>)
  {
    && (forall i :: 0 <= i < |names| ==> names[i] in servers)
    && (forall i, j :: 0 <= i < j < |names| ==> names[i] != names[j])
  }

  /** The renewal of `name` in this tick, if there was one. */
  function Renewed(tick: Tick, name: string, ahead: int): Option<Outcome>
    requires name in tick.servers
  {
    var server := tick.servers[name];
    if Due(tick.book, name, server.store, ahead, tick.t.Floor) then Some(Answer(server, ahead, tick.t.Floor)) else None
  }

  /** A renewal that succeeded. */
  predicate Succeeded(renewal: Option<Outcome>)
  {
    renewal.Some? && renewal.value.Renews? && renewal.value.elapsed >= 0.0
  }

  /** What the tick spent on other servers than `name`. */
  function Others(tick: Tick, name: string, ahead: int): real
    requires name in tick.servers
  {
    var renewal := Renewed(tick, name, ahead);
    if Succeeded(renewal) then tick.spent - renewal.value.elapsed else tick.spent
  }

  /** `next` is the tick after `tick`; the store of `name` holds what `tick` left there. */
  ghost predicate Follows(tick: Tick, next: Tick, names: seq<string>, name: string, ahead: int)
  {
    && Listed(names, tick.servers) && Listed(names, next.servers) && name in names && tick.spent >= 0.0
    && var done := TickAll(tick.book, names, tick.servers, ahead, tick.t.Floor);
       var renewal := Renewed(tick, name, ahead);
       && next.book == done.book
       && next.t == tick.t + tick.spent + Max(MIN_SLEEP, done.soonest) as real
       && next.servers[name].store == (if Succeeded(renewal) then renewal.value.after else tick.servers[name].store)
  }

  /** A token that was not refused and that a schedule can keep usable. */
  predicate Kept(tick: Tick, name: string)
    requires name in tick.servers
  {
    var store := tick.servers[name].store;
    store.Stored? && !tick.book.Dead(name, store) && !Unmaintainable(tick.book.Of(name), store.expires)
  }

  /** The worker still takes the token of `name`. */
  predicate Usable(tick: Tick, name: string)
    requires name in tick.servers
  {
    tick.servers[name].store.Stored? && tick.t < RefusalPoint(tick.servers[name].store.expires)
  }

  /** A tick that holds `name` back leaves it as it was, to be asked about before its token is refused. */
  lemma AfterHolding(tick: Tick, next: Tick, names: seq<string>, name: string, ahead: int)
    requires Follows(tick, next, names, name, ahead) && Kept(tick, name) && Renewed(tick, name, ahead).None?
    requires tick.spent <= Spare(next.book.Of(name).cost)
    ensures next.book.Of(name) == tick.book.Of(name) && next.servers[name].store == tick.servers[name].store
    ensures Kept(next, name) && Usable(next, name) && next.t >= tick.t + 5.0
  {
    var store := tick.servers[name].store;
    TickIsFair(tick.book, names, tick.servers, ahead, tick.t.Floor, name, store);
    var done := TickAll(tick.book, names, tick.servers, ahead, tick.t.Floor);
    HeldIsInTime(tick.book.Of(name), store.expires, ahead, tick.t, Max(MIN_SLEEP, done.soonest));
  }

  /** After a renewal that succeeded, the next tick comes before the new token is refused, if it can be kept at all. */
  lemma AfterRenewing(tick: Tick, next: Tick, names: seq<string>, name: string, ahead: int)
    requires Follows(tick, next, names, name, ahead) && Succeeded(Renewed(tick, name, ahead)) && Kept(next, name)
    requires Others(tick, name, ahead) <= Spare(next.book.Of(name).cost)
    ensures Usable(next, name)
  {
    var store := next.servers[name].store;
    TickIsFair(tick.book, names, tick.servers, ahead, tick.t.Floor, name, store);
    var done := TickAll(tick.book, names, tick.servers, ahead, tick.t.Floor);
    var elapsed := Renewed(tick, name, ahead).value.elapsed;
    FirstTickInTime(tick.t, elapsed, next.book.Of(name).cost, store.expires, ahead, Max(MIN_SLEEP, done.soonest));
  }

  /** Ticks one after the other, each spending on other servers no more than `name` can spare. */
  ghost predicate RunOk(ticks: seq<Tick>, names: seq<string>, name: string, ahead: int)
  {
    && ticks != []
    && (forall k :: 0 <= k < |ticks| ==> Listed(names, ticks[k].servers) && name in names)
    && (forall k {:trigger Linked(ticks, k, names, name, ahead)} :: 0 <= k < |ticks| - 1 ==>
          Linked(ticks, k, names, name, ahead))
  }

  ghost predicate Linked(ticks: seq<Tick>, k: nat, names: seq<string>, name: string, ahead: int)
    requires k + 1 < |ticks|
  {
    && Follows(ticks[k], ticks[k + 1], names, name, ahead)
    && Others(ticks[k], name, ahead) <= Spare(ticks[k + 1].book.Of(name).cost)
  }

  /** Nothing was renewed for `name` before tick `k`. */
  ghost predicate HeldUntil(ticks: seq<Tick>, k: nat, name: string, ahead: int)
    requires k <= |ticks| && forall i :: 0 <= i < |ticks| ==> name in ticks[i].servers
  {
    forall i :: 0 <= i < k ==> Renewed(ticks[i], name, ahead).None?
  }

  lemma {:induction false} HeldInTime(ticks: seq<Tick>, k: nat, names: seq<string>, name: string, ahead: int)
    requires RunOk(ticks, names, name, ahead) && k < |ticks| && HeldUntil(ticks, k, name, ahead)
    requires Kept(ticks[0], name) && Usable(ticks[0], name)
    ensures Kept(ticks[k], name) && Usable(ticks[k], name) && ticks[k].t >= ticks[0].t + 5.0 * k as real
    ensures ticks[k].servers[name].store == ticks[0].servers[name].store
        && ticks[k].book.Of(name) == ticks[0].book.Of(name)
  {
    if k > 0 {
      HeldInTime(ticks, k - 1, names, name, ahead);
      assert Linked(ticks, k - 1, names, name, ahead);
      AfterHolding(ticks[k - 1], ticks[k], names, name, ahead);
    }
  }

  /** The tick at which a renewal of the token the run started with begins. */
  ghost predicate BeginsAt(ticks: seq<Tick>, k: nat, name: string, ahead: int)
    requires k < |ticks| && forall i :: 0 <= i < |ticks| ==> name in ticks[i].servers
  {
    && HeldUntil(ticks, k, name, ahead) && Renewed(ticks[k], name, ahead).Some?
    && ticks[k].servers[name].store == ticks[0].servers[name].store && Usable(ticks[k], name)
    && (ahead >= MARGIN + Slack(ticks[0].book.Of(name).cost) ==>
        Asks(ticks[k].servers[name].store, ahead, ticks[k].t.Floor))
  }

  lemma FirstBeginsInTime(ticks: seq<Tick>, names: seq<string>, name: string, ahead: int)
    requires RunOk(ticks, names, name, ahead) && Kept(ticks[0], name) && Usable(ticks[0], name)
    requires 5.0 * (|ticks| - 1) as real >= RefusalPoint(ticks[0].servers[name].store.expires) - ticks[0].t
    ensures exists k :: 0 <= k < |ticks| && BeginsAt(ticks, k, name, ahead)
  {
    if HeldUntil(ticks, |ticks|, name, ahead) {
      HeldInTime(ticks, |ticks| - 1, names, name, ahead);
    } else {
      var k := FirstRenewal(ticks, |ticks|, name, ahead);
      HeldInTime(ticks, k, names, name, ahead);
      assert BeginsAt(ticks, k, name, ahead);
    }
  }

  /**
    In every run of the refresher, over any servers, a token that can be kept has its renewal begin before the worker
    starts refusing it, as soon as the run has lasted that long; and the server is asked for a new one if the margin
    covers the worker's and the slack. So it is for the token the run starts with and for every one a renewal wrote.
  */
  lemma RenewalsBeginInTime(ticks: seq<Tick>, from: nat, names: seq<string>, name: string, ahead: int)
    requires RunOk(ticks, names, name, ahead) && from < |ticks| && Kept(ticks[from], name)
    requires if from == 0 then Usable(ticks[0], name) else Succeeded(Renewed(ticks[from - 1], name, ahead))
    requires 5.0 * (|ticks| - 1 - from) as real >= RefusalPoint(ticks[from].servers[name].store.expires) - ticks[from].t
    ensures exists k :: 0 <= k < |ticks[from..]| && BeginsAt(ticks[from..], k, name, ahead)
  {
    if from > 0 {
      assert Linked(ticks, from - 1, names, name, ahead);
      AfterRenewing(ticks[from - 1], ticks[from], names, name, ahead);
    }
    var suffix := ticks[from..];
    forall k | 0 <= k < |suffix| - 1 ensures Linked(suffix, k, names, name, ahead) {
      assert Linked(ticks, from + k, names, name, ahead);
    }
    FirstBeginsInTime(suffix, names, name, ahead);
  }

  lemma {:induction false} FirstRenewal(ticks: seq<Tick>, n: nat, name: string, ahead: int) returns (k: nat)
    requires n <= |ticks| && forall i :: 0 <= i < |ticks| ==> name in ticks[i].servers
    requires !HeldUntil(ticks, n, name, ahead)
    ensures k < n && HeldUntil(ticks, k, name, ahead) && Renewed(ticks[k], name, ahead).Some?
  {
    if HeldUntil(ticks, n - 1, name, ahead) {
      k := n - 1;
    } else {
      k := FirstRenewal(ticks, n - 1, name, ahead);
    }
  }
}
