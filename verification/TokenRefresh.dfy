/**
  The background renewal of access tokens. The worker refuses a token from 60 seconds before its expiry; the refresher
  has to begin renewing before that. Waits are whole seconds; the time a tick starts, and what a renewal takes, are
  reals.
*/
module TokenRefresh {
  import opened Options

  const MARGIN := 60        // the worker's own margin
  const RETRY := 30
  const MIN_SLEEP := 5
  const MAX_SLEEP := 300
  const MIN_INTERVAL := 30
  const MIN_SLACK := 5
  const MAX_SLACK := 30

  function Max(a: int, b: int): int { if a >= b then a else b }

  function Min(a: int, b: int): int { if a <= b then a else b }

  function Ceiling(x: real): int { -((-x).Floor) }

  /** What is known of a server's renewals: when it was last renewed, and the longest one took. */
  datatype Record = Record(last: Option<int>, cost: real)

  /** `_slack_for`: at least the constant and twice the longest renewal, up to a cap. */
  function Slack(cost: real): int
  {
    if 2.0 * cost >= MAX_SLACK as real then MAX_SLACK
    else if 2.0 * cost <= MIN_SLACK as real then MIN_SLACK
    else (2.0 * cost).Floor
  }

  /** The politeness floor: what is left of the least interval between two renewals. */
  function Floor(r: Record, now: int): int
  {
    if r.last.None? then 0 else Max(0, MIN_INTERVAL - (now - r.last.value))
  }

  /** No schedule can keep such a token usable. */
  predicate Unmaintainable(r: Record, expires: int)
  {
    r.last.Some? && expires - r.last.value < MARGIN + Slack(r.cost) + MIN_SLEEP
  }

  /** The last moment a renewal should start, from now. */
  function Deadline(r: Record, expires: int, now: int): int { expires - MARGIN - Slack(r.cost) - now }

  /** `_wait_before_renewing`; 0 is to renew now. */
  function Held(r: Record, expires: int, ahead: int, now: int): int
  {
    var floor := Floor(r, now);
    if Unmaintainable(r, expires) then (if floor != 0 then floor else MIN_INTERVAL)
    else Max(0, Min(Max(expires - ahead - now, floor), Deadline(r, expires, now)))
  }

  // ----- one server's decision -------------------------------------------------------------------------------

  /**
    Exactly when a renewal begins: never for a token that cannot be maintained; otherwise at the deadline, or before
    it once the configured margin is reached and the politeness floor has passed.
  */
  lemma RenewsExactly(r: Record, expires: int, ahead: int, now: int)
    ensures Held(r, expires, ahead, now) == 0 <==>
              && !Unmaintainable(r, expires)
              && (Deadline(r, expires, now) <= 0 || (expires - ahead <= now && Floor(r, now) == 0))
  {
  }

  /** Within the least interval of the last renewal, only the deadline makes the floor yield. */
  lemma FloorYieldsOnlyToDeadline(r: Record, expires: int, ahead: int, now: int)
    requires r.last.Some? && now - r.last.value < MIN_INTERVAL && Held(r, expires, ahead, now) == 0
    ensures expires - MARGIN - Slack(r.cost) <= now
  {
  }

  // ----- the refresher ---------------------------------------------------------------------------------------

  /** A server's token store as a tick reads it; `digest` identifies the refresh token, `blank` is no access token. */
  datatype Store = Unreadable | Absent | Stored(expires: int, digest: string, blank: bool)

  /** How a renewal goes when the server is asked; `after` is the store as read back. */
  datatype Outcome = RefusedByServer | FailsForNow | Renews(elapsed: real, after: Store)

  datatype Server = Server(store: Store, outcome: Outcome)

  /** There is no access token, or it has no more than `ahead` left: only then is the server asked for a new one. */
  predicate Asks(store: Store, ahead: int, now: int)
    requires store.Stored?
  {
    store.blank || store.expires - ahead <= now
  }

  /**
    `current_access_token`: a token with more than `ahead` left is handed back as it is, with no server asked. The
    refresher cannot tell: to it the call returned, and the store reads back as it was.
  */
  function Answer(server: Server, ahead: int, now: int): Outcome
    requires server.store.Stored?
  {
    if Asks(server.store, ahead, now) || server.outcome.FailsForNow? then server.outcome
    else Renews(if server.outcome.Renews? then server.outcome.elapsed else 0.0, server.store)
  }

  /** What the refresher remembers of every server. */
  datatype Book = Book(refused: map<string, string>, last: map<string, int>, cost: map<string, real>)
  {
    function Of(name: string): Record
    {
      Record(if name in last then Some(last[name]) else None, if name in cost then cost[name] else 0.0)
    }

    /** Still carrying the authorization that was refused. */
    predicate Dead(name: string, store: Store)
    {
      store.Stored? && name in refused && refused[name] == store.digest
    }
  }

  /** `renewed`: a renewal was taken up. */
  datatype Visit = Visit(book: Book, wait: int, renewed: bool)

  /** `_renew`: a success is timed from its completion, and the token just written decides the next wait. */
  function Renewal(book: Book, name: string, server: Server, ahead: int, now: int): Visit
    requires server.store.Stored?
  {
    match Answer(server, ahead, now)
    case RefusedByServer => Visit(book.(refused := book.refused[name := server.store.digest]), MAX_SLEEP, true)
    case FailsForNow => Visit(book, RETRY, true)
    case Renews(elapsed, after) =>
      var completed := now + Ceiling(elapsed);
      var cost := book.Of(name).cost;
      var noted := book.(last := book.last[name := completed],
                         cost := book.cost[name := if cost >= elapsed then cost else elapsed]);
      Visit(noted, if after.Stored? then Held(noted.Of(name), after.expires, ahead, completed) else RETRY, true)
  }

  /** One server's turn in a tick. A new authorization lifts a refusal; the refused one is left alone. */
  function Visited(book: Book, name: string, server: Server, ahead: int, now: int): Visit
  {
    match server.store
    case Unreadable => Visit(book, RETRY, false)
    case Absent => Visit(book, MAX_SLEEP, false)
    case Stored(expires, digest, _) =>
      if book.Dead(name, server.store) then Visit(book, MAX_SLEEP, false)
      else
        var live := book.(refused := book.refused - {name});
        var held := Held(live.Of(name), expires, ahead, now);
        if held > 0 then Visit(live, held, false) else Renewal(live, name, server, ahead, now)
  }

  datatype Ticked = Ticked(book: Book, soonest: int, renewed: set<string>)

  /** The tick with one more server. */
  function Extended(before: Ticked, name: string, server: Server, ahead: int, now: int): Ticked
  {
    var visit := Visited(before.book, name, server, ahead, now);
    Ticked(visit.book, Min(before.soonest, visit.wait),
           if visit.renewed then before.renewed + {name} else before.renewed)
  }

  function TickAll(book: Book, names: seq<string>, servers: map<string, Server>, ahead: int, now: int): Ticked
    requires forall i :: 0 <= i < |names| ==> names[i] in servers
  {
    if names == [] then Ticked(book, MAX_SLEEP, {})
    else
      var name := names[|names| - 1];
      var before := TickAll(book, names[..|names| - 1], servers, ahead, now);
      Extended(before, name, servers[name], ahead, now)
  }

  class TokenRefresher {
    const ahead: int
    var refused: map<string, string>
    var lastRenewal: map<string, int>
    var renewalCost: map<string, real>

    constructor (ahead: int)
      ensures this.ahead == ahead && View() == Book(map[], map[], map[])
    {
      this.ahead := ahead;
      refused, lastRenewal, renewalCost := map[], map[], map[];
    }

    function View(): Book
      reads this
    {
      Book(refused, lastRenewal, renewalCost)
    }

    method Renew(name: string, server: Server, now: int) returns (wait: int)
      requires server.store.Stored?
      modifies this
      ensures Visit(View(), wait, true) == Renewal(old(View()), name, server, ahead, now)
    {
      var outcome := server.outcome;
      if !outcome.FailsForNow? && !server.store.blank && server.store.expires - ahead > now {
        outcome := Renews(if outcome.Renews? then outcome.elapsed else 0.0, server.store);
      }
      match outcome {
        case RefusedByServer =>
          refused := refused[name := server.store.digest];
          return MAX_SLEEP;
        case FailsForNow =>
          return RETRY;
        case Renews(elapsed, after) =>
          var before := if name in renewalCost then renewalCost[name] else 0.0;
          renewalCost := renewalCost[name := if before >= elapsed then before else elapsed];
          var completed := now + Ceiling(elapsed);
          lastRenewal := lastRenewal[name := completed];
          if !after.Stored? { return RETRY; }
          return Held(View().Of(name), after.expires, ahead, completed);
      }
    }

    method Turn(name: string, server: Server, now: int) returns (wait: int, renewed: bool)
      modifies this
      ensures Visit(View(), wait, renewed) == Visited(old(View()), name, server, ahead, now)
    {
      match server.store {
        case Unreadable => return RETRY, false;
        case Absent => return MAX_SLEEP, false;
        case Stored(expires, digest, _) =>
          if name in refused {
            if refused[name] == digest { return MAX_SLEEP, false; }
            refused := refused - {name};
          }
          assert refused == old(refused) - {name};
          wait := Held(View().Of(name), expires, ahead, now);
          if wait > 0 { return wait, false; }
          wait := Renew(name, server, now);
          return wait, true;
      }
    }

    /** `tick`: every server has its turn, and the shortest wait any of them asked for is the answer. */
    method Tick(names: seq<string>, servers: map<string, Server>, now: int) returns (wait: int, renewed: set<string>)
      requires forall i :: 0 <= i < |names| ==> names[i] in servers
      modifies this
      ensures var done := TickAll(old(View()), names, servers, ahead, now);
              View() == done.book && wait == Max(MIN_SLEEP, done.soonest) && renewed == done.renewed
    {
      var soonest := MAX_SLEEP;
      renewed := {};
      for i := 0 to |names|
        invariant Ticked(View(), soonest, renewed) == TickAll(old(View()), names[..i], servers, ahead, now)
      {
        assert names[..i + 1][..i] == names[..i];
        var next, did := Turn(names[i], servers[names[i]], now);
        soonest := Min(soonest, next);
        if did { renewed := renewed + {names[i]}; }
      }
      assert names[..|names|] == names;
      wait := Max(MIN_SLEEP, soonest);
    }
  }

  // ----- what a tick promises each server --------------------------------------------------------------------

  /** Due: it has a token that was not refused, and nothing holds its renewal back. */
  predicate Due(book: Book, name: string, store: Store, ahead: int, now: int)
  {
    store.Stored? && !book.Dead(name, store) && Held(book.Of(name), store.expires, ahead, now) == 0
  }

  /** A turn leaves every other server as it was. */
  lemma OthersUntouched(book: Book, name: string, server: Server, ahead: int, now: int, other: string, store: Store)
    requires other != name
    ensures var after := Visited(book, name, server, ahead, now).book;
            after.Of(other) == book.Of(other) && after.Dead(other, store) == book.Dead(other, store)
  {
  }

  lemma {:induction false} UntouchedSoFar(book: Book, names: seq<string>, servers: map<string, Server>, ahead: int,
                                          now: int, other: string, store: Store)
    requires forall i :: 0 <= i < |names| ==> names[i] in servers
    requires other !in names
    ensures var after := TickAll(book, names, servers, ahead, now).book;
            after.Of(other) == book.Of(other) && after.Dead(other, store) == book.Dead(other, store)
  {
    if names != [] {
      var n := |names| - 1;
      UntouchedSoFar(book, names[..n], servers, ahead, now, other, store);
      OthersUntouched(TickAll(book, names[..n], servers, ahead, now).book, names[n], servers[names[n]], ahead, now,
                      other, store);
    }
  }

  lemma RenewalIsOwn(book: Book, other: Book, name: string, server: Server, ahead: int, now: int, store: Store)
    requires server.store.Stored? && book.Of(name) == other.Of(name)
    requires name !in book.refused && name !in other.refused
    ensures var one, two := Renewal(book, name, server, ahead, now), Renewal(other, name, server, ahead, now);
            && one.wait == two.wait && one.renewed == two.renewed && one.book.Of(name) == two.book.Of(name)
            && one.book.Dead(name, store) == two.book.Dead(name, store)
  {
  }

  /** What a turn makes of a server depends on what is remembered of it alone. */
  lemma TurnIsOwn(book: Book, other: Book, name: string, server: Server, ahead: int, now: int, store: Store)
    requires book.Of(name) == other.Of(name) && book.Dead(name, server.store) == other.Dead(name, server.store)
    ensures var one, two := Visited(book, name, server, ahead, now), Visited(other, name, server, ahead, now);
            && one.wait == two.wait && one.renewed == two.renewed && one.book.Of(name) == two.book.Of(name)
            && (server.store.Stored? ==> one.book.Dead(name, store) == two.book.Dead(name, store))
  {
    if server.store.Stored? {
      RenewalIsOwn(book.(refused := book.refused - {name}), other.(refused := other.refused - {name}), name, server,
                   ahead, now, store);
    }
  }

  /** What a tick made of `name` is what a turn of its own would have made of it. */
  ghost predicate Fair(done: Ticked, book: Book, name: string, server: Server, ahead: int, now: int, later: Store)
  {
    var alone := Visited(book, name, server, ahead, now);
    && (name in done.renewed <==> Due(book, name, server.store, ahead, now))
    && done.soonest <= alone.wait && done.soonest <= MAX_SLEEP
    && done.book.Of(name) == alone.book.Of(name)
    && (server.store.Stored? ==> done.book.Dead(name, later) == alone.book.Dead(name, later))
  }

  lemma OwnTurnIsFair(before: Ticked, book: Book, name: string, server: Server, ahead: int, now: int, later: Store)
    requires before.book.Of(name) == book.Of(name)
        && before.book.Dead(name, server.store) == book.Dead(name, server.store)
    requires name !in before.renewed && before.soonest <= MAX_SLEEP
    ensures Fair(Extended(before, name, server, ahead, now), book, name, server, ahead, now, later)
  {
    TurnIsOwn(before.book, book, name, server, ahead, now, later);
    RenewedWhenDue(book, name, server, ahead, now);
  }

  lemma RenewedWhenDue(book: Book, name: string, server: Server, ahead: int, now: int)
    ensures Visited(book, name, server, ahead, now).renewed <==> Due(book, name, server.store, ahead, now)
  {
    assert server.store.Stored? ==> book.(refused := book.refused - {name}).Of(name) == book.Of(name);
  }

  lemma OtherTurnsAreFair(before: Ticked, book: Book, name: string, server: Server, ahead: int, now: int, later: Store,
                          other: string, next: Server)
    requires Fair(before, book, name, server, ahead, now, later) && other != name
    ensures Fair(Extended(before, other, next, ahead, now), book, name, server, ahead, now, later)
  {
    OthersUntouched(before.book, other, next, ahead, now, name, later);
  }

  /**
    A tick gives every server the turn it would have had alone: it is renewed exactly when it is due, it is remembered
    the same, and it is asked about again no later than it asked for, or than five seconds.
  */
  lemma {:induction false} TickIsFair(book: Book, names: seq<string>, servers: map<string, Server>, ahead: int,
                                      now: int, name: string, later: Store)
    requires forall i :: 0 <= i < |names| ==> names[i] in servers
    requires forall i, j :: 0 <= i < j < |names| ==> names[i] != names[j]
    requires name in names
    ensures Fair(TickAll(book, names, servers, ahead, now), book, name, servers[name], ahead, now, later)
  {
    var n := |names| - 1;
    var rest := names[..n];
    var before := TickAll(book, rest, servers, ahead, now);
    if name == names[n] {
      assert name !in rest;
      RenewedListed(book, rest, servers, ahead, now);
      SoonestCapped(book, rest, servers, ahead, now);
      UntouchedSoFar(book, rest, servers, ahead, now, name, servers[name].store);
      OwnTurnIsFair(before, book, name, servers[name], ahead, now, later);
    } else {
      assert names == rest + [names[n]];
      TickIsFair(book, rest, servers, ahead, now, name, later);
      OtherTurnsAreFair(before, book, name, servers[name], ahead, now, later, names[n], servers[names[n]]);
    }
  }

  lemma {:induction false} RenewedListed(book: Book, names: seq<string>, servers: map<string, Server>, ahead: int,
                                         now: int)
    requires forall i :: 0 <= i < |names| ==> names[i] in servers
    ensures forall n :: n in TickAll(book, names, servers, ahead, now).renewed ==> n in names
  {
    if names != [] {
      RenewedListed(book, names[..|names| - 1], servers, ahead, now);
      assert names == names[..|names| - 1] + [names[|names| - 1]];
    }
  }

  lemma {:induction false} SoonestCapped(book: Book, names: seq<string>, servers: map<string, Server>, ahead: int,
                                         now: int)
    requires forall i :: 0 <= i < |names| ==> names[i] in servers
    ensures TickAll(book, names, servers, ahead, now).soonest <= MAX_SLEEP
  {
    if names != [] { SoonestCapped(book, names[..|names| - 1], servers, ahead, now); }
  }

  /** A refused authorization is offered by no tick, and stays refused, until the stored one changes. */
  lemma RefusedIsLeftAlone(book: Book, names: seq<string>, servers: map<string, Server>, ahead: int, now: int,
                           name: string)
    requires forall i :: 0 <= i < |names| ==> names[i] in servers
    requires forall i, j :: 0 <= i < j < |names| ==> names[i] != names[j]
    requires name in names && book.Dead(name, servers[name].store)
    ensures var done := TickAll(book, names, servers, ahead, now);
            name !in done.renewed && done.book.Dead(name, servers[name].store)
  {
    TickIsFair(book, names, servers, ahead, now, name, servers[name].store);
  }
}
