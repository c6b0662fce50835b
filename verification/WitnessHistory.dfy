/**
  What a receipt builds on within its epoch. The witness never loses what it confirmed: every receipt of the epoch was
  built on a confirmed one, and the confirmed heads are those the confirmed receipt and its predecessors carried.
*/
module WitnessHistory {
  import opened Options
  import opened WitnessRules
  import opened WitnessChain
  import opened WitnessOrder

  /** The epoch of a database's last receipt; a database without one is where the first epoch starts. */
  function EpochOf(receipt: Option<Receipt>): int { if receipt.None? then 1 else receipt.value.Epoch() }

  /** `top` is `base`, or was built on it by advances alone. */
  ghost predicate BuiltOn(top: Option<Receipt>, base: Option<Receipt>)
    decreases top
  {
    top == base || (top.Some? && top.value.Advanced? && BuiltOn(top.value.prev, base))
  }

  /** What the last advance was built on; the start of an epoch was built on nothing of it. */
  function Settled(receipt: Option<Receipt>): Option<Receipt>
  {
    if receipt.Some? && receipt.value.Advanced? then receipt.value.prev else receipt
  }

  /** The heads a receipt and everything it was built on carried, the newest for each task. */
  function CarriedHeads(receipt: Option<Receipt>): map<string, Head>
    decreases receipt
  {
    match receipt
    case None => map[]
    case Some(Advanced(_, _, prev, request, _, _, _)) => CarriedHeads(prev) + HeadMap(request.heads)
    case Some(Rebaselined(_, _, _, order, _, _)) => HeadMap(order.heads)
    case Some(Foreign(_)) => map[]
  }

  lemma {:induction false} BuiltOnTransitive(a: Option<Receipt>, b: Option<Receipt>, c: Option<Receipt>)
    requires BuiltOn(a, b) && BuiltOn(b, c)
    ensures BuiltOn(a, c)
    decreases a
  {
    if a != b { BuiltOnTransitive(a.value.prev, b, c); }
  }

  // ----- what every request keeps ----------------------------------------------------------------------------

  /** A receipt of the current epoch was built on a confirmed one; none is of a later epoch, or built across two. */
  ghost predicate Rooted(st: HostState, r: Receipt)
  {
    && EpochOf(Settled(Some(r))) == r.Epoch()
    && r.Epoch() <= st.epoch && (r.Epoch() == st.epoch ==> BuiltOn(st.confirmed, Settled(Some(r))))
  }

  ghost predicate AllRooted(st: HostState, issued: seq<Receipt>)
  {
    forall r :: r in issued ==> Rooted(st, r)
  }

  /** A rebaseline row and its receipt carry the same order. */
  ghost predicate OrdersKept(log: seq<LogRow>)
  {
    forall i :: 0 <= i < |log| && log[i].RebaselineRow? ==>
        log[i].receipt.Rebaselined? && log[i].receipt.order == log[i].order
  }

  ghost predicate HistoryInv(s: Server)
  {
    && ChainInv(s)
    && AllRooted(s.host, IssuedReceipts(s.log))
    && (s.host.epoch == 1 ==> BuiltOn(s.host.confirmed, None))
    && s.heads == CarriedHeads(s.host.confirmed)
    && OrdersKept(s.log)
  }

  lemma EmptyHistoryOk()
    ensures HistoryInv(EMPTY_SERVER)
  {
    EmptyOk();
  }

  /** Within an epoch the confirmed receipt only moves up to one built on it. */
  lemma RootedUp(st: HostState, st': HostState, issued: seq<Receipt>)
    requires AllRooted(st, issued) && st'.epoch == st.epoch && BuiltOn(st'.confirmed, st.confirmed)
    ensures AllRooted(st', issued)
  {
    forall r | r in issued ensures Rooted(st', r) {
      assert Rooted(st, r);
      if r.Epoch() == st.epoch { BuiltOnTransitive(st'.confirmed, st.confirmed, Settled(Some(r))); }
    }
  }

  /** What an accepted advance makes of the tables. */
  lemma AcceptedMoves(s: Server, body: Advance, at: int)
    requires StateOk(s.host) && s.heads == CarriedHeads(s.host.confirmed)
    ensures var (s', a) := HandleAdvance(s, body, at);
            s' != s ==>
              && a.Issued? && a.receipt.Advanced? && a.receipt.prev == s'.host.confirmed
              && a.receipt.epoch == s'.host.epoch == s.host.epoch
              && BuiltOn(s'.host.confirmed, s.host.confirmed)
              && s'.heads == CarriedHeads(s'.host.confirmed)
  {
    var p := s.host.pending;
    if p.Some? { assert BuiltOn(Some(p.value.receipt), s.host.confirmed); }
  }

  lemma OrdersSnoc(log: seq<LogRow>, gone: seq<LogRow>, row: LogRow)
    requires OrdersKept(log) && |gone| <= 1 && (|gone| == 1 ==> gone[0].DiscardRow?)
    requires row.RebaselineRow? ==> row.receipt.Rebaselined? && row.receipt.order == row.order
    ensures OrdersKept(log + gone + [row])
  {
  }

  lemma AdvanceKeepsHistory(s: Server, body: Advance, at: int)
    requires HistoryInv(s) && WellFormed(AdvanceRequest(body))
    ensures HistoryInv(HandleAdvance(s, body, at).0)
  {
    var (s', a) := HandleAdvance(s, body, at);
    if s' != s {
      StepKeeps(s, AdvanceRequest(body), at);
      StepIssues(s, AdvanceRequest(body), at);
      AcceptedMoves(s, body, at);
      AdvanceKeepsOrders(s, body, at);
      HistoryGrows(s, s', a.receipt);
    }
  }

  lemma AdvanceKeepsOrders(s: Server, body: Advance, at: int)
    requires OrdersKept(s.log)
    ensures OrdersKept(HandleAdvance(s, body, at).0.log)
  {
    var (s', a) := HandleAdvance(s, body, at);
    if s' != s {
      var d := DecideAdvance(s.host, s.heads, s.log, body);
      OrdersSnoc(s.log, DiscardRows(s.host, d.discard), AdvanceRow(s.host.epoch, body.hostSeq, a.receipt, body));
    }
  }

  /** One more receipt, built on what is confirmed now, in an epoch whose confirmed receipt moved up or stayed. */
  lemma HistoryGrows(s: Server, s': Server, r: Receipt)
    requires HistoryInv(s) && ChainInv(s') && OrdersKept(s'.log)
    requires IssuedReceipts(s'.log) == IssuedReceipts(s.log) + [r]
    requires r.Advanced? && r.prev == s'.host.confirmed && r.epoch == s'.host.epoch == s.host.epoch
    requires BuiltOn(s'.host.confirmed, s.host.confirmed) && s'.heads == CarriedHeads(s'.host.confirmed)
    ensures HistoryInv(s')
  {
    assert StateOk(s'.host);
    RootedUp(s.host, s'.host, IssuedReceipts(s.log));
    assert Rooted(s'.host, r);
    if s.host.epoch == 1 { BuiltOnTransitive(s'.host.confirmed, s.host.confirmed, None); }
  }

  lemma RebaselineKeepsHistory(s: Server, order: Rebaseline, operator: string, at: int)
    requires HistoryInv(s) && WellFormed(RebaselineRequest(order, operator))
    ensures HistoryInv(HandleRebaseline(s, order, operator, at).0)
  {
    var (s', a) := HandleRebaseline(s, order, operator, at);
    if s' != s {
      StepKeeps(s, RebaselineRequest(order, operator), at);
      StepIssues(s, RebaselineRequest(order, operator), at);
      forall r | r in IssuedReceipts(s.log) ensures Rooted(s'.host, r) { assert Rooted(s.host, r); }
      assert Rooted(s'.host, a.receipt);
      OrdersSnoc(s.log, DiscardRows(s.host, s.host.pending),
                 RebaselineRow(s'.host.epoch, s'.host.confirmedSeq, a.receipt, order));
    }
  }

  lemma StepKeepsHistory(s: Server, req: Request, at: int)
    requires HistoryInv(s)
    ensures HistoryInv(Handle(s, req, at).0)
  {
    if WellFormed(req) {
      match req
      case AdvanceRequest(body) => AdvanceKeepsHistory(s, body, at);
      case RebaselineRequest(order, operator) => RebaselineKeepsHistory(s, order, operator, at);
    }
  }

  // ----- what it means for two receipts ----------------------------------------------------------------------

  /**
    Whatever a receipt of the current epoch was built on, both receipts the witness names were built on too: of what
    the holder of one saved and another holder does not have, there is at most the last commit.
  */
  lemma NamedIsBuiltOn(s: Server, top: Option<Receipt>, held: Option<Receipt>)
    requires HistoryInv(s) && Named(s.host, top) && Held(s, held) && EpochOf(held) == s.host.epoch
    ensures BuiltOn(top, Settled(held))
  {
    assert StateOk(s.host);
    if held.Some? { assert Rooted(s.host, held.value); }
    assert BuiltOn(s.host.confirmed, Settled(held));
  }

  /** What a held receipt was built on is of its own epoch. */
  lemma SettledEpoch(s: Server, held: Option<Receipt>)
    requires HistoryInv(s) && Held(s, held)
    ensures EpochOf(Settled(held)) == EpochOf(held)
  {
    if held.Some? { assert Rooted(s.host, held.value); }
  }

  /** And what a live receipt was built on is live, and of its epoch. */
  lemma {:induction false} HistoryIsLive(s: Server, top: Option<Receipt>, base: Option<Receipt>)
    requires ChainInv(s) && BuiltOn(top, base) && (top.Some? ==> top.value in Live(s.log))
    ensures (base.Some? ==> base.value in Live(s.log)) && EpochOf(base) == EpochOf(top)
    decreases top
  {
    if top != base {
      var l := Live(s.log);
      var k :| 0 <= k < |l| && l[k] == top.value;
      assert LinkedAt(l, k);
      HistoryIsLive(s, top.value.prev, base);
    }
  }

  /** An advance that was issued is the receipt of that very request, accepted now or before. */
  lemma IssuedForBody(s: Server, body: Advance, at: int)
    requires StateOk(s.host)
    ensures var a := Handle(s, AdvanceRequest(body), at).1;
            a.Issued? ==> a.receipt.Advanced? && a.receipt.prev == body.prev && a.receipt.request == body
  {
  }

  /** A rebaseline that was issued is the receipt of that very order. */
  lemma IssuedForOrder(s: Server, order: Rebaseline, operator: string, at: int)
    requires OrdersKept(s.log)
    ensures var a := Handle(s, RebaselineRequest(order, operator), at).1;
            a.Issued? ==> a.receipt.Rebaselined? && a.receipt.order == order
  {
  }
}
