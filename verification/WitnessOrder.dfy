/**
  Exactly when an advance is accepted, why nothing the witness confirmed ever goes down inside an epoch, and
  how the start-up verdict over a database's last receipt relates to the verdict on its next advance.
*/
module WitnessOrder {
  import opened Options
  import opened WitnessRules
  import opened WitnessChain

  /** `offered` may replace `witnessed`: a later sequence, or the very same head. */
  predicate Dominates(offered: Head, witnessed: Head)
  {
    offered.sequence > witnessed.sequence || offered == witnessed
  }

  predicate RegistryAtLeast(offered: Option<Registry>, witnessed: Option<Registry>)
  {
    witnessed.Some? ==>
      offered.Some? && (offered.value.version > witnessed.value.version || offered == witnessed)
  }

  // ----- when an advance is accepted --------------------------------------------------------------------

  /** The tables as they stand once the advance named by `prev` counts as committed. */
  function Basis(s: Server, prev: Option<Receipt>): Derived
  {
    var p := s.host.pending;
    if p.Some? && prev == Some(p.value.receipt) then
      Derived(HostState(s.host.epoch, p.value.hostSeq, prev, None, HigherRegistry(s.host.registry, p.value.registry),
                        s.host.timeFloor),
              s.heads + HeadMap(p.value.heads))
    else Derived(s.host.(pending := None), s.heads)
  }

  predicate Extends(basis: Derived, body: Advance)
  {
    && body.prev == basis.host.confirmed
    && body.hostSeq == basis.host.confirmedSeq + 1
    && (forall e :: e in body.heads && e.task in basis.heads ==> Dominates(e.head, basis.heads[e.task]))
    && RegistryAtLeast(body.registry, basis.host.registry)
  }

  lemma {:induction false} CheckHeadsExact(entries: seq<HeadEntry>, confirm: Option<Pending>, heads: map<string, Head>)
    ensures CheckHeads(entries, confirm, heads).None? <==>
            forall e :: e in entries && Witnessed(confirm, heads, e.task).Some? ==>
                          Dominates(e.head, Witnessed(confirm, heads, e.task).value)
  {
    if entries != [] {
      CheckHeadsExact(entries[1..], confirm, heads);
      assert entries == [entries[0]] + entries[1..];
      assert forall e :: e in entries <==> e == entries[0] || e in entries[1..];
    }
  }

  /**
    The witness accepts an advance exactly when it is not a retry of the pending one and extends the tables as
    they stand after the receipt it builds on: the next sequence, no head older than or different from the
    witnessed one, and no older, different or missing registry.
  */
  lemma AcceptedExactly(s: Server, body: Advance)
    requires StateOk(s.host)
    ensures DecideAdvance(s.host, s.heads, s.log, body).Accept? <==>
            && !(s.host.pending.Some? && body == s.host.pending.value.request)
            && Named(s.host, body.prev)
            && Extends(Basis(s, body.prev), body)
  {
    CheckHeadsExact(body.heads, s.host.pending, s.heads);
    CheckHeadsExact(body.heads, None, s.heads);
    var p := s.host.pending;
    if p.Some? {
      var merged := s.heads + HeadMap(p.value.heads);
      assert forall t :: Witnessed(p, s.heads, t) == if t in merged then Some(merged[t]) else None;
    }
  }

  /**
    An advance on a receipt the witness names, with the next sequence and no head going back, can fail only on its
    registry.
  */
  lemma OnlyRegistryLeft(s: Server, body: Advance)
    requires StateOk(s.host) && Named(s.host, body.prev)
    requires body.hostSeq == Basis(s, body.prev).host.confirmedSeq + 1
    requires forall e :: e in body.heads && e.task in Basis(s, body.prev).heads ==>
                           Dominates(e.head, Basis(s, body.prev).heads[e.task])
    ensures var d := DecideAdvance(s.host, s.heads, s.log, body);
            d.Refuse? ==> d.code.RegistryMissing? || d.code.RegistryRolledBack? || d.code.RegistryForked?
  {
    var p := s.host.pending;
    if p.Some? && body.prev == Some(p.value.receipt) {
      CheckHeadsExact(body.heads, p, s.heads);
      var merged := s.heads + HeadMap(p.value.heads);
      assert forall t :: Witnessed(p, s.heads, t) == if t in merged then Some(merged[t]) else None;
    } else {
      CheckHeadsExact(body.heads, None, s.heads);
    }
  }

  /** What an issued answer means, whether the advance was accepted now or is a retry of the pending one. */
  lemma IssuedShape(s: Server, body: Advance, at: int)
    requires StateOk(s.host)
    ensures var (s', answer) := Handle(s, AdvanceRequest(body), at);
            && (answer.Refused? ==> s' == s)
            && (answer.Issued? ==>
                  && Named(s.host, body.prev)
                  && s'.host.confirmed == body.prev
                  && s'.host.pending.Some?
                  && s'.host.pending.value.receipt == answer.receipt
                  && s'.host.pending.value.heads == body.heads
                  && s'.heads == Basis(s, body.prev).heads
                  && answer.receipt.Seq() == body.hostSeq)
  {
  }

  /** A retry of the pending advance gets the same receipt again and changes nothing. */
  lemma RetryIsIdempotent(s: Server, body: Advance, at: int, again: int)
    requires ChainInv(s) && WellFormed(AdvanceRequest(body))
    requires DecideAdvance(s.host, s.heads, s.log, body).Accept?
    ensures var (s', a) := Handle(s, AdvanceRequest(body), at);
            Handle(s', AdvanceRequest(body), again) == (s', a)
  {
  }

  // ----- nothing confirmed goes down within an epoch -----------------------------------------------------

  /** The pending advance already dominates the confirmed tables it may later become. */
  ghost predicate OrderInv(s: Server)
  {
    s.host.pending.Some? ==>
      && PendingHeadsDominate(HeadMap(s.host.pending.value.heads), s.heads)
      && RegistryAtLeast(s.host.pending.value.registry, s.host.registry)
  }

  ghost predicate PendingHeadsDominate(pending: map<string, Head>, heads: map<string, Head>)
  {
    forall t :: t in pending && t in heads ==> Dominates(pending[t], heads[t])
  }

  ghost predicate HeadsNotBelow(later: map<string, Head>, earlier: map<string, Head>)
  {
    forall t :: t in earlier ==> t in later && Dominates(later[t], earlier[t])
  }

  /**
    Between two states of one epoch no head, registry or time floor went down, and equal numbers keep their content.
  */
  ghost predicate NotBelow(later: Server, earlier: Server)
  {
    && later.host.epoch >= earlier.host.epoch
    && (later.host.epoch == earlier.host.epoch ==>
          && HeadsNotBelow(later.heads, earlier.heads)
          && RegistryAtLeast(later.host.registry, earlier.host.registry)
          && later.host.timeFloor >= earlier.host.timeFloor)
  }

  lemma {:induction false} HeadMapEntries(entries: seq<HeadEntry>, t: string)
    requires t in HeadMap(entries)
    ensures HeadEntry(t, HeadMap(entries)[t]) in entries
  {
    var last := entries[|entries| - 1];
    if t == last.task {
      assert HeadEntry(t, last.head) == last;
    } else {
      HeadMapEntries(entries[..|entries| - 1], t);
    }
  }

  /** An accepted advance becomes a pending one that dominates the tables after its confirmation. */
  lemma AcceptedDominates(s: Server, body: Advance, at: int)
    requires StateOk(s.host) && WellFormed(AdvanceRequest(body))
    requires DecideAdvance(s.host, s.heads, s.log, body).Accept?
    ensures OrderInv(Handle(s, AdvanceRequest(body), at).0)
  {
    AcceptedExactly(s, body);
    var s' := Handle(s, AdvanceRequest(body), at).0;
    var offered := HeadMap(body.heads);
    assert s'.heads == Basis(s, body.prev).heads;
    forall t | t in offered && t in s'.heads ensures Dominates(offered[t], s'.heads[t]) {
      HeadMapEntries(body.heads, t);
      assert HeadEntry(t, offered[t]) in body.heads;
    }
  }

  lemma AdvanceOrdered(s: Server, body: Advance, at: int)
    requires StateOk(s.host) && OrderInv(s)
    requires WellFormed(AdvanceRequest(body)) && DecideAdvance(s.host, s.heads, s.log, body).Accept?
    ensures OrderInv(Handle(s, AdvanceRequest(body), at).0)
    ensures NotBelow(Handle(s, AdvanceRequest(body), at).0, s)
  {
    AcceptedDominates(s, body, at);
  }

  lemma StepOrdered(s: Server, req: Request, at: int)
    requires StateOk(s.host) && OrderInv(s)
    ensures OrderInv(Handle(s, req, at).0)
    ensures NotBelow(Handle(s, req, at).0, s)
  {
    if WellFormed(req) && req.AdvanceRequest? {
      if DecideAdvance(s.host, s.heads, s.log, req.body).Accept? { AdvanceOrdered(s, req.body, at); }
    }
  }

  lemma NotBelowTransitive(a: Server, b: Server, c: Server)
    requires NotBelow(b, a) && NotBelow(c, b)
    ensures NotBelow(c, a)
  {
  }

  lemma {:induction false} RunOrdered(s: Server, trace: seq<Arrival>)
    requires ChainInv(s) && OrderInv(s)
    ensures ChainInv(RunFrom(s, trace)) && OrderInv(RunFrom(s, trace))
    ensures NotBelow(RunFrom(s, trace), s)
  {
    if trace != [] {
      var t := trace[..|trace| - 1];
      RunOrdered(s, t);
      var mid := RunFrom(s, t);
      StepKeeps(mid, trace[|trace| - 1].request, trace[|trace| - 1].at);
      StepOrdered(mid, trace[|trace| - 1].request, trace[|trace| - 1].at);
      NotBelowTransitive(s, mid, RunFrom(s, trace));
    }
  }

  /**
    Whatever requests arrive, in any order and from any number of copies: from any reachable state to any later
    one of the same epoch, each task's confirmed head, the registry and the time floor never decrease, and an
    equal sequence or version keeps the same hash or digest.
  */
  lemma NothingConfirmedGoesDown(before: seq<Arrival>, after: seq<Arrival>)
    ensures var s := RunFrom(EMPTY_SERVER, before);
            var s' := RunFrom(s, after);
            NotBelow(s', s)
  {
    EmptyOk();
    RunOrdered(EMPTY_SERVER, before);
    RunOrdered(RunFrom(EMPTY_SERVER, before), after);
  }

  // ----- what a confirmation and a rebaseline leave behind -----------------------------------------------

  lemma {:induction false} HeadMapLookup(entries: seq<HeadEntry>, k: nat)
    requires WellFormedHeads(entries) && k < |entries|
    ensures entries[k].task in HeadMap(entries) && HeadMap(entries)[entries[k].task] == entries[k].head
  {
    if k < |entries| - 1 {
      var rest := entries[..|entries| - 1];
      HeadMapLookup(rest, k);
      assert rest[k] == entries[k];
    }
  }

  /**
    An advance built on the pending receipt records exactly what that one carried: its heads replace those of
    the same tasks and no other, and the registry and time floor end at the higher of the two.
  */
  lemma ConfirmationLands(s: Server, body: Advance, at: int)
    requires ChainInv(s) && OrderInv(s) && WellFormed(AdvanceRequest(body))
    requires s.host.pending.Some? && body.prev == Some(s.host.pending.value.receipt)
    requires DecideAdvance(s.host, s.heads, s.log, body).Accept?
    ensures var p := s.host.pending.value;
            var s' := Handle(s, AdvanceRequest(body), at).0;
            && (forall e :: e in p.heads ==> e.task in s'.heads && s'.heads[e.task] == e.head)
            && (forall t :: t in s'.heads && t !in HeadMap(p.heads) ==> t in s.heads && s'.heads[t] == s.heads[t])
            && s'.heads.Keys == s.heads.Keys + HeadMap(p.heads).Keys
            && RegistryAtLeast(s'.host.registry, s.host.registry)
            && RegistryAtLeast(s'.host.registry, p.registry)
            && (s'.host.registry == s.host.registry || s'.host.registry == p.registry)
            && s'.host.timeFloor >= s.host.timeFloor && s'.host.timeFloor >= p.timeFloor
            && (s'.host.timeFloor == s.host.timeFloor || s'.host.timeFloor == p.timeFloor)
  {
    var p := s.host.pending.value;
    var s' := Handle(s, AdvanceRequest(body), at).0;
    forall e | e in p.heads ensures e.task in s'.heads && s'.heads[e.task] == e.head {
      var k :| 0 <= k < |p.heads| && p.heads[k] == e;
      HeadMapLookup(p.heads, k);
    }
  }

  /**
    An accepted rebaseline starts the next epoch from the operator's tables alone, above every sequence used so
    far, and cuts off every receipt held before it: a database that does not hold the new one is refused for good.
  */
  lemma RebaselineCutsOff(s: Server, order: Rebaseline, operator: string, at: int,
                          held: Option<Receipt>, trace: seq<Arrival>)
    requires ChainInv(s) && Held(s, held)
    requires WellFormed(RebaselineRequest(order, operator)) && !IsRebaselineRetry(s, order)
    requires order.expectedLast == s.host.LastReceipt()
    ensures var (s', a) := Handle(s, RebaselineRequest(order, operator), at);
            && a.Issued?
            && s'.host.epoch == s.host.epoch + 1
            && s'.host.confirmed == Some(a.receipt) && s'.host.pending.None?
            && s'.host.confirmedSeq > s.host.LastSeq()
            && s'.host.registry == order.registry && s'.host.timeFloor == order.timeFloor
            && (forall e :: e in order.heads ==> e.task in s'.heads && s'.heads[e.task] == e.head)
            && (forall t :: t in s'.heads ==> HeadEntry(t, s'.heads[t]) in order.heads)
            && !Named(RunFrom(s', trace).host, held)
  {
    var req := RebaselineRequest(order, operator);
    var s' := Handle(s, req, at).0;
    StepKeeps(s, req, at);
    StepIssues(s, req, at);
    forall e | e in order.heads ensures e.task in s'.heads && s'.heads[e.task] == e.head {
      var k :| 0 <= k < |order.heads| && order.heads[k] == e;
      HeadMapLookup(order.heads, k);
    }
    forall t | t in s'.heads ensures HeadEntry(t, s'.heads[t]) in order.heads { HeadMapEntries(order.heads, t); }
    RefusedStaysRefused(s', trace, held);
  }

  // ----- the start-up verdict ----------------------------------------------------------------------------

  datatype BootCode = BootRolledBack | BootForked | WitnessBehind

  /** `classify_boot`: the verdict for a database's last receipt against the witness state. None means start. */
  function ClassifyBoot(database: Option<Receipt>, st: HostState): Option<BootCode>
  {
    if st.confirmed.None? && st.pending.None? then
      if database.None? then None else Some(WitnessBehind)
    else if database.None? then
      if st.confirmed.None? then None else Some(BootRolledBack)
    else if Named(st, database) then None
    else if st.confirmed.Some? && database.value.Seq() < st.confirmedSeq then Some(BootRolledBack)
    else if database.value.Seq() > st.LastSeq() then Some(WitnessBehind)
    else Some(BootForked)
  }

  /** A live receipt the next advance may not build on lies below the confirmed one. */
  lemma LiveBelow(st: HostState, log: seq<LogRow>, r: Receipt)
    requires StateOk(st) && LogOk(st, log)
    requires r in Live(log) && !Named(st, Some(r))
    ensures st.confirmed.Some? && r.Seq() < st.confirmedSeq
  {
    var l := Live(log);
    var i :| 0 <= i < |l| && l[i] == r;
    var c := if st.pending.Some? then |l| - 2 else |l| - 1;
    assert i < c;
    LinkedDistinct(l, c);
  }

  /**
    For a database holding no receipt or one this witness issued: it starts exactly when its next advance would
    not be refused for its `prev`; the witness is never found to be behind; and the two verdicts name the same
    fault unless the receipt was discarded and lies below the confirmed one, where start-up says rolled-back and
    the advance says forked.
  */
  lemma BootAgreesWithAdvance(s: Server, database: Option<Receipt>)
    requires ChainInv(s) && Held(s, database)
    ensures var verdict := ClassifyBoot(database, s.host);
            && (verdict.None? <==> Named(s.host, database))
            && verdict != Some(WitnessBehind)
            && (verdict.Some? ==>
                  var advance := ClassifyPrev(s.log, database);
                  (verdict.value.BootRolledBack? <==> advance == RolledBack) <==>
                  !(database.Some? && DiscardedIn(s.log, database.value) && database.value.Seq() < s.host.confirmedSeq))
  {
    if database.Some? && !Named(s.host, database) {
      var r := database.value;
      IssuedMembers(s.log, r);
      if !DiscardedIn(s.log, r) { LiveBelow(s.host, s.log, r); }
    }
  }
}
