/**
  What every run of requests at the witness keeps: no receipt is issued twice, the receipts that were not
  discarded form one unbranched chain, a copy refused for its `prev` stays refused, and the derived tables
  equal what the log alone rebuilds.
*/
module WitnessChain {
  import opened Options
  import opened WitnessRules

  // ----- issued and live receipts of a log ------------------------------------------------------------

  /** Every receipt the log issued, oldest first. */
  ghost function IssuedReceipts(log: seq<LogRow>): seq<Receipt>
  {
    if log == [] then []
    else
      var rest := IssuedReceipts(log[..|log| - 1]);
      if log[|log| - 1].DiscardRow? then rest else rest + [log[|log| - 1].receipt]
  }

  ghost function Without(l: seq<Receipt>, r: Receipt): seq<Receipt>
  {
    if l == [] then []
    else
      var rest := Without(l[..|l| - 1], r);
      if l[|l| - 1] == r then rest else rest + [l[|l| - 1]]
  }

  /** The issued receipts that no later row discarded, oldest first. */
  ghost function Live(log: seq<LogRow>): seq<Receipt>
  {
    if log == [] then []
    else
      var rest := Live(log[..|log| - 1]);
      if log[|log| - 1].DiscardRow? then Without(rest, log[|log| - 1].receipt)
      else rest + [log[|log| - 1].receipt]
  }

  /** How deeply a receipt nests the receipts it names. A receipt is never part of itself, so this is finite. */
  ghost function Depth(r: Receipt): nat
  {
    match r
    case Advanced(_, _, prev, _, _, _, discarded) =>
      if DepthOf(prev) > DepthOf(discarded) then DepthOf(prev) else DepthOf(discarded)
    case Rebaselined(_, _, prev, _, _, _) => DepthOf(prev)
    case Foreign(_) => 0
  }

  ghost function DepthOf(o: Option<Receipt>): nat
  {
    match o
    case None => 0
    case Some(r) => Depth(r) + 1
  }

  ghost predicate Increasing(l: seq<Receipt>)
  {
    forall i, j :: 0 <= i < j < |l| ==> Depth(l[i]) < Depth(l[j])
  }

  // ----- the chain --------------------------------------------------------------------------------------

  /** `r` comes right after `before` on the chain: the next link of its epoch, or the receipt that opens one. */
  ghost predicate Follows(before: Option<Receipt>, r: Receipt)
  {
    if before.Some? && before.value.Epoch() == r.Epoch() then
      r.Advanced? && r.prev == before && r.hostSeq == before.value.Seq() + 1
    else if r.Advanced? then
      before.None? && r.epoch == 1 && r.prev.None? && r.hostSeq == 1
    else
      && r.Rebaselined?
      && (before.Some? ==> r.epoch == before.value.Epoch() + 1 && r.hostSeq > before.value.Seq())
  }

  ghost function Before(l: seq<Receipt>, i: nat): Option<Receipt>
    requires i <= |l|
  {
    if i == 0 then None else Some(l[i - 1])
  }

  ghost predicate LinkedAt(l: seq<Receipt>, i: nat)
    requires i < |l|
  {
    Follows(Before(l, i), l[i])
  }

  ghost predicate Linked(l: seq<Receipt>)
  {
    forall i :: 0 <= i < |l| ==> LinkedAt(l, i)
  }

  /** The receipts a next advance may build on. */
  predicate Named(st: HostState, prev: Option<Receipt>)
  {
    prev == st.confirmed || (st.pending.Some? && prev == Some(st.pending.value.receipt))
  }

  ghost predicate StateOk(st: HostState)
  {
    && st.epoch >= 1
    && st.confirmedSeq >= 0
    && (st.confirmed.None? ==> st.confirmedSeq == 0 && st.epoch == 1)
    && (st.confirmed.Some? ==>
          && !st.confirmed.value.Foreign?
          && st.confirmed.value.Seq() == st.confirmedSeq
          && st.confirmed.value.Epoch() == st.epoch)
    && (st.pending.Some? ==> PendingOk(st, st.pending.value))
  }

  ghost predicate PendingOk(st: HostState, p: Pending)
  {
    && p.hostSeq == st.confirmedSeq + 1
    && p.receipt.Advanced?
    && p.receipt.epoch == st.epoch
    && p.receipt.hostSeq == p.hostSeq
    && p.receipt.prev == st.confirmed
    && p.receipt.request == p.request
    && p.request.prev == st.confirmed
    && p.request.hostSeq == p.hostSeq
    && p.heads == p.request.heads
    && WellFormedHeads(p.heads)
  }

  /** The confirmed receipt and then the pending one end the live chain. */
  ghost predicate EndsLive(st: HostState, live: seq<Receipt>)
  {
    && (st.pending.Some? ==> |live| >= 1 && live[|live| - 1] == st.pending.value.receipt)
    && var settled := if st.pending.Some? then live[..|live| - 1] else live;
       && (st.confirmed.None? <==> settled == [])
       && (st.confirmed.Some? ==> settled[|settled| - 1] == st.confirmed.value)
  }

  ghost predicate EndsIssued(st: HostState, issued: seq<Receipt>)
  {
    && (st.LastReceipt().None? <==> issued == [])
    && (st.LastReceipt().Some? ==> issued[|issued| - 1] == st.LastReceipt().value)
  }

  /** Every discarded receipt was issued before. */
  ghost predicate DiscardsIssued(log: seq<LogRow>)
  {
    forall r :: DiscardedIn(log, r) ==> r in IssuedReceipts(log)
  }

  ghost predicate LiveExact(log: seq<LogRow>)
  {
    forall r :: r in Live(log) <==> r in IssuedReceipts(log) && !DiscardedIn(log, r)
  }

  ghost predicate SeqsWithin(l: seq<Receipt>, bound: int)
  {
    forall r :: r in l ==> !r.Foreign? && 1 <= r.Seq() <= bound
  }

  /** What the log says about the receipts, and how the newest ones tie it to the state. */
  ghost predicate LogOk(st: HostState, log: seq<LogRow>)
  {
    && Increasing(IssuedReceipts(log))
    && EndsIssued(st, IssuedReceipts(log))
    && Linked(Live(log))
    && EndsLive(st, Live(log))
    && LiveExact(log)
    && DiscardsIssued(log)
    && SeqsWithin(IssuedReceipts(log), st.LastSeq())
  }

  ghost predicate ChainInv(s: Server)
  {
    && StateOk(s.host)
    && LogOk(s.host, s.log)
    && FoldLog(s.log) == Derived(s.host, s.heads)
  }

  // ----- small facts about logs -------------------------------------------------------------------------

  lemma AppendRow(log: seq<LogRow>, row: LogRow)
    ensures IssuedReceipts(log + [row]) ==
            if row.DiscardRow? then IssuedReceipts(log) else IssuedReceipts(log) + [row.receipt]
    ensures Live(log + [row]) ==
            if row.DiscardRow? then Without(Live(log), row.receipt) else Live(log) + [row.receipt]
    ensures FoldLog(log + [row]) == FoldRow(FoldLog(log), row)
    ensures forall r :: DiscardedIn(log + [row], r) <==>
                        DiscardedIn(log, r) || (row.DiscardRow? && row.receipt == r)
  {
    assert (log + [row])[..|log|] == log;
    forall r
      ensures DiscardedIn(log + [row], r) <==> DiscardedIn(log, r) || (row.DiscardRow? && row.receipt == r)
    {
      DiscardedSnoc(log, row, r);
    }
  }

  lemma DiscardedSnoc(log: seq<LogRow>, row: LogRow, r: Receipt)
    ensures DiscardedIn(log + [row], r) <==> DiscardedIn(log, r) || (row.DiscardRow? && row.receipt == r)
  {
    if DiscardedIn(log, r) {
      var i :| 0 <= i < |log| && log[i].DiscardRow? && log[i].receipt == r;
      assert (log + [row])[i] == log[i];
    }
    if row.DiscardRow? && row.receipt == r {
      assert (log + [row])[|log|] == row;
    }
  }

  lemma {:induction false} IssuedMembers(log: seq<LogRow>, r: Receipt)
    ensures r in IssuedReceipts(log) <==> IssuedIn(log, r)
  {
    if log != [] {
      var rest := log[..|log| - 1];
      IssuedMembers(rest, r);
      if IssuedIn(rest, r) {
        var i :| 0 <= i < |rest| && !rest[i].DiscardRow? && rest[i].receipt == r;
        assert log[i] == rest[i];
      }
      if IssuedIn(log, r) {
        var i :| 0 <= i < |log| && !log[i].DiscardRow? && log[i].receipt == r;
        if i < |rest| { assert rest[i] == log[i]; }
      }
    }
  }

  lemma {:induction false} WithoutAbsent(l: seq<Receipt>, r: Receipt)
    requires r !in l
    ensures Without(l, r) == l
  {
    if l != [] { WithoutAbsent(l[..|l| - 1], r); }
  }

  lemma WithoutLast(l: seq<Receipt>, r: Receipt)
    requires r !in l
    ensures Without(l + [r], r) == l
  {
    assert (l + [r])[..|l|] == l;
    WithoutAbsent(l, r);
  }

  lemma {:induction false} LiveIsIssued(log: seq<LogRow>, r: Receipt)
    requires r in Live(log)
    ensures r in IssuedReceipts(log)
  {
    var rest := log[..|log| - 1];
    if log[|log| - 1].DiscardRow? {
      WithoutMembers(Live(rest), log[|log| - 1].receipt, r);
      LiveIsIssued(rest, r);
    } else if r in Live(rest) {
      LiveIsIssued(rest, r);
    }
  }

  lemma {:induction false} WithoutMembers(l: seq<Receipt>, gone: Receipt, r: Receipt)
    ensures r in Without(l, gone) <==> r in l && r != gone
  {
    if l != [] { WithoutMembers(l[..|l| - 1], gone, r); }
  }

  lemma IncreasingAppend(l: seq<Receipt>, r: Receipt)
    requires Increasing(l)
    requires l != [] ==> Depth(l[|l| - 1]) < Depth(r)
    ensures Increasing(l + [r]) && r !in l
  {
  }

  lemma LinkedAppend(l: seq<Receipt>, r: Receipt)
    requires Linked(l)
    requires Follows(Before(l, |l|), r)
    ensures Linked(l + [r])
  {
    forall i | 0 <= i < |l + [r]| ensures LinkedAt(l + [r], i) {
      if i < |l| {
        assert LinkedAt(l, i);
        assert Before(l + [r], i) == Before(l, i);
      }
    }
  }

  lemma LinkedPrefix(l: seq<Receipt>, r: Receipt)
    requires Linked(l + [r])
    ensures Linked(l)
  {
    forall i | 0 <= i < |l| ensures LinkedAt(l, i) {
      assert LinkedAt(l + [r], i);
      assert Before(l + [r], i) == Before(l, i);
    }
  }

  // ----- one step keeps the chain -----------------------------------------------------------------------

  /** Dropping the pending receipt leaves exactly the confirmed chain, and the fold over the log unmoved. */
  lemma DiscardKeeps(log: seq<LogRow>, row: LogRow, settled: seq<Receipt>)
    requires row.DiscardRow?
    requires Live(log) == settled + [row.receipt]
    requires Linked(Live(log)) && LiveExact(log) && DiscardsIssued(log)
    ensures IssuedReceipts(log + [row]) == IssuedReceipts(log)
    ensures FoldLog(log + [row]) == FoldLog(log)
    ensures Live(log + [row]) == settled && Linked(settled)
    ensures LiveExact(log + [row]) && DiscardsIssued(log + [row])
  {
    AppendRow(log, row);
    var live := Live(log);
    LinkedDistinct(live, |settled|);
    assert live[..|settled|] == settled;
    WithoutLast(settled, row.receipt);
    LinkedPrefix(settled, row.receipt);
  }

  /** Sequences rise along a chain, so no receipt repeats on it. */
  lemma {:induction false} LinkedDistinct(l: seq<Receipt>, k: nat)
    requires Linked(l)
    requires k < |l|
    ensures forall i :: 0 <= i < k ==> l[i].Seq() < l[k].Seq()
    ensures l[k] !in l[..k]
  {
    if k > 0 {
      LinkedDistinct(l, k - 1);
      assert LinkedAt(l, k);
    }
  }

  /** Appending the row of a newly issued receipt that nests the newest one. */
  lemma IssueKeeps(log: seq<LogRow>, row: LogRow, last: Option<Receipt>)
    requires !row.DiscardRow? && !row.receipt.Foreign?
    requires Increasing(IssuedReceipts(log)) && Linked(Live(log))
    requires last.None? <==> IssuedReceipts(log) == []
    requires last.Some? ==> IssuedReceipts(log)[|IssuedReceipts(log)| - 1] == last.value
    requires last.Some? ==> Depth(last.value) < Depth(row.receipt)
    requires Follows(Before(Live(log), |Live(log)|), row.receipt)
    requires LiveExact(log) && DiscardsIssued(log)
    ensures Increasing(IssuedReceipts(log + [row])) && Linked(Live(log + [row]))
    ensures IssuedReceipts(log + [row]) == IssuedReceipts(log) + [row.receipt]
    ensures Live(log + [row]) == Live(log) + [row.receipt]
    ensures LiveExact(log + [row]) && DiscardsIssued(log + [row])
    ensures row.receipt !in IssuedReceipts(log)
  {
    AppendRow(log, row);
    IncreasingAppend(IssuedReceipts(log), row.receipt);
    LinkedAppend(Live(log), row.receipt);
  }

  /** What the log looks like once the pending receipt, if any, was dropped. */
  lemma Settle(st: HostState, log: seq<LogRow>, log': seq<LogRow>)
    requires LogOk(st, log)
    requires log' == log + DiscardRows(st, st.pending)
    ensures IssuedReceipts(log') == IssuedReceipts(log)
    ensures FoldLog(log') == FoldLog(log)
    ensures Linked(Live(log')) && LiveExact(log') && DiscardsIssued(log')
    ensures Before(Live(log'), |Live(log')|) == st.confirmed
  {
    if st.pending.None? {
      assert log' == log;
    } else {
      var live := Live(log);
      var row := DiscardRows(st, st.pending)[0];
      assert live == live[..|live| - 1] + [row.receipt];
      DiscardKeeps(log, row, live[..|live| - 1]);
    }
  }

  lemma IssuedTies(issued: seq<Receipt>, r: Receipt, st: HostState, st': HostState)
    requires SeqsWithin(issued, st.LastSeq()) && !r.Foreign?
    requires st'.LastReceipt() == Some(r) && r.Seq() == st'.LastSeq() >= st.LastSeq() && r.Seq() >= 1
    ensures EndsIssued(st', issued + [r]) && SeqsWithin(issued + [r], st'.LastSeq())
  {
  }

  lemma LiveTies(live: seq<Receipt>, r: Receipt, st: HostState)
    requires st.LastReceipt() == Some(r)
    requires st.pending.Some? ==> Before(live, |live|) == st.confirmed
    ensures EndsLive(st, live + [r])
  {
    assert (live + [r])[..|live|] == live;
  }

  /** Issuing `row` re-establishes everything about the log; `st` had the newest receipt before, `st'` has it now. */
  lemma Issue(st: HostState, log: seq<LogRow>, row: LogRow, st': HostState)
    requires Increasing(IssuedReceipts(log)) && EndsIssued(st, IssuedReceipts(log))
    requires SeqsWithin(IssuedReceipts(log), st.LastSeq())
    requires Linked(Live(log)) && LiveExact(log) && DiscardsIssued(log)
    requires !row.DiscardRow? && !row.receipt.Foreign?
    requires st'.pending.Some? ==> Before(Live(log), |Live(log)|) == st'.confirmed
    requires Follows(Before(Live(log), |Live(log)|), row.receipt)
    requires st.LastReceipt().Some? ==> Depth(st.LastReceipt().value) < Depth(row.receipt)
    requires st'.LastReceipt() == Some(row.receipt)
    requires row.receipt.Seq() == st'.LastSeq() >= st.LastSeq() && row.receipt.Seq() >= 1
    ensures LogOk(st', log + [row])
  {
    IssueKeeps(log, row, st.LastReceipt());
    IssuedTies(IssuedReceipts(log), row.receipt, st, st');
    LiveTies(Live(log), row.receipt, st');
  }

  lemma ConfirmKeeps(s: Server, body: Advance, at: int)
    requires ChainInv(s) && WellFormedHeads(body.heads)
    requires var d := DecideAdvance(s.host, s.heads, s.log, body); d.Accept? && d.confirm.Some?
    ensures ChainInv(HandleAdvance(s, body, at).0)
  {
    var s' := HandleAdvance(s, body, at).0;
    var receipt := ReceiptBody(s.host, body, DecideAdvance(s.host, s.heads, s.log, body), at);
    var row := AdvanceRow(s.host.epoch, body.hostSeq, receipt, body);
    assert s'.log == s.log + [row];
    Issue(s.host, s.log, row, s'.host);
    AppendRow(s.log, row);
  }

  lemma ReplaceKeeps(s: Server, body: Advance, at: int)
    requires ChainInv(s) && WellFormedHeads(body.heads)
    requires var d := DecideAdvance(s.host, s.heads, s.log, body); d.Accept? && d.confirm.None?
    ensures ChainInv(HandleAdvance(s, body, at).0)
  {
    var s' := HandleAdvance(s, body, at).0;
    var receipt := ReceiptBody(s.host, body, DecideAdvance(s.host, s.heads, s.log, body), at);
    var row := AdvanceRow(s.host.epoch, body.hostSeq, receipt, body);
    var log' := s.log + DiscardRows(s.host, s.host.pending);
    assert s'.log == log' + [row];
    Settle(s.host, s.log, log');
    ReplacedStateOk(s, body, at);
    ReplacedFolds(s, body, at, log', row);
    Issue(s.host, log', row, s'.host);
  }

  lemma ReplacedStateOk(s: Server, body: Advance, at: int)
    requires StateOk(s.host) && WellFormedHeads(body.heads)
    requires var d := DecideAdvance(s.host, s.heads, s.log, body); d.Accept? && d.confirm.None?
    ensures StateOk(HandleAdvance(s, body, at).0.host)
  {
  }

  lemma ReplacedFolds(s: Server, body: Advance, at: int, log: seq<LogRow>, row: LogRow)
    requires var d := DecideAdvance(s.host, s.heads, s.log, body); d.Accept? && d.confirm.None?
    requires FoldLog(log) == Derived(s.host, s.heads)
    requires row == AdvanceRow(s.host.epoch, body.hostSeq,
                               ReceiptBody(s.host, body, DecideAdvance(s.host, s.heads, s.log, body), at), body)
    ensures FoldLog(log + [row]) == Derived(HandleAdvance(s, body, at).0.host, HandleAdvance(s, body, at).0.heads)
  {
    assert (log + [row])[..|log|] == log;
  }

  lemma AdvanceKeeps(s: Server, body: Advance, at: int)
    requires ChainInv(s) && WellFormedHeads(body.heads)
    ensures ChainInv(HandleAdvance(s, body, at).0)
  {
    var d := DecideAdvance(s.host, s.heads, s.log, body);
    if d.Accept? {
      if d.confirm.Some? { ConfirmKeeps(s, body, at); } else { ReplaceKeeps(s, body, at); }
    }
  }

  lemma RebaselineKeeps(s: Server, order: Rebaseline, operator: string, at: int)
    requires ChainInv(s)
    ensures ChainInv(HandleRebaseline(s, order, operator, at).0)
  {
    if !IsRebaselineRetry(s, order) && order.expectedLast == s.host.LastReceipt() {
      var s' := HandleRebaseline(s, order, operator, at).0;
      var receipt := RebaselineBody(s.host, order, operator, at);
      var row := RebaselineRow(receipt.epoch, receipt.hostSeq, receipt, order);
      var log' := s.log + DiscardRows(s.host, s.host.pending);
      Settle(s.host, s.log, log');
      assert s'.log == log' + [row];
      Issue(s.host, log', row, s'.host);
      AppendRow(log', row);
    }
  }

  lemma StepKeeps(s: Server, req: Request, at: int)
    requires ChainInv(s)
    ensures ChainInv(Handle(s, req, at).0)
  {
    if WellFormed(req) {
      match req
      case AdvanceRequest(body) => AdvanceKeeps(s, body, at);
      case RebaselineRequest(order, operator) => RebaselineKeeps(s, order, operator, at);
    }
  }

  lemma {:induction false} RunKeeps(s: Server, trace: seq<Arrival>)
    requires ChainInv(s)
    ensures ChainInv(RunFrom(s, trace))
  {
    if trace != [] {
      RunKeeps(s, trace[..|trace| - 1]);
      StepKeeps(RunFrom(s, trace[..|trace| - 1]), trace[|trace| - 1].request, trace[|trace| - 1].at);
    }
  }

  // ----- the results ------------------------------------------------------------------------------------

  lemma EmptyOk()
    ensures ChainInv(EMPTY_SERVER)
  {
  }

  /** Over every run of requests, no receipt is ever issued twice. */
  lemma NoReceiptTwice(trace: seq<Arrival>)
    ensures var issued := IssuedReceipts(RunFrom(EMPTY_SERVER, trace).log);
            forall i, j :: 0 <= i < j < |issued| ==> issued[i] != issued[j]
  {
    EmptyOk();
    RunKeeps(EMPTY_SERVER, trace);
  }

  /** The receipts that were never discarded form one unbranched chain with contiguous sequences per epoch. */
  lemma OneChain(trace: seq<Arrival>)
    ensures var s := RunFrom(EMPTY_SERVER, trace);
            var l := Live(s.log);
            && (forall r :: r in l <==> IssuedIn(s.log, r) && !DiscardedIn(s.log, r))
            && (forall i, j :: 0 <= i < j < |l| ==> l[i].Seq() < l[j].Seq())
            && (forall i :: 0 < i < |l| && l[i].Epoch() == Before(l, i).value.Epoch() ==>
                  l[i].Prev() == Before(l, i) && l[i].Seq() == Before(l, i).value.Seq() + 1)
            && (forall i, j :: 0 <= i < j < |l| && l[i].Advanced? && l[j].Advanced? ==> l[i].prev != l[j].prev)
            && EndsLive(s.host, l)
            && (s.host.pending.Some? ==> s.host.pending.value.hostSeq == s.host.confirmedSeq + 1)
  {
    EmptyOk();
    RunKeeps(EMPTY_SERVER, trace);
    var s := RunFrom(EMPTY_SERVER, trace);
    var l := Live(s.log);
    forall r ensures r in l <==> IssuedIn(s.log, r) && !DiscardedIn(s.log, r) {
      IssuedMembers(s.log, r);
    }
    forall i, j | 0 <= i < j < |l| ensures l[i].Seq() < l[j].Seq() { LinkedDistinct(l, j); }
    forall i | 0 < i < |l| && l[i].Epoch() == Before(l, i).value.Epoch()
      ensures l[i].Prev() == Before(l, i) && l[i].Seq() == Before(l, i).value.Seq() + 1
    {
      assert LinkedAt(l, i);
    }
    forall i, j | 0 <= i < j < |l| && l[i].Advanced? && l[j].Advanced? ensures l[i].prev != l[j].prev {
      assert LinkedAt(l, i) && LinkedAt(l, j);
      if i > 0 { LinkedDistinct(l, j - 1); }
    }
  }

  /** The derived tables always equal what `fold_log` rebuilds from the append-only log alone. */
  lemma LogRebuildsState(trace: seq<Arrival>)
    ensures var s := RunFrom(EMPTY_SERVER, trace);
            FoldLog(s.log) == Derived(s.host, s.heads)
  {
    EmptyOk();
    RunKeeps(EMPTY_SERVER, trace);
  }

  /** A receipt a database can hold: none yet, or one this witness issued. */
  ghost predicate Held(s: Server, prev: Option<Receipt>)
  {
    prev.None? || prev.value in IssuedReceipts(s.log)
  }

  lemma StepRefuses(s: Server, req: Request, at: int, prev: Option<Receipt>)
    requires ChainInv(s) && Held(s, prev) && !Named(s.host, prev)
    ensures Held(Handle(s, req, at).0, prev) && !Named(Handle(s, req, at).0.host, prev)
  {
    if Handle(s, req, at).0 != s {
      StepIssues(s, req, at);
      NamesAfter(s, req, at, prev);
    }
  }

  /** Nothing is named after a step but the receipt it issued and what was named before. */
  lemma NamesAfter(s: Server, req: Request, at: int, prev: Option<Receipt>)
    ensures var (s', a) := Handle(s, req, at);
            s' != s && Named(s'.host, prev) ==> Named(s.host, prev) || (a.Issued? && prev == Some(a.receipt))
  {
  }

  /** A step either changes nothing or issues exactly one receipt, which was not issued before. */
  lemma StepIssues(s: Server, req: Request, at: int)
    requires ChainInv(s)
    ensures var (s', a) := Handle(s, req, at);
            s' != s ==>
              && a == Issued(s'.host.LastReceipt().value)
              && IssuedReceipts(s'.log) == IssuedReceipts(s.log) + [a.receipt]
              && a.receipt !in IssuedReceipts(s.log)
  {
    var (s', a) := Handle(s, req, at);
    if s' != s {
      StepKeeps(s, req, at);
      match req {
        case AdvanceRequest(body) => AdvanceIssues(s, body, at);
        case RebaselineRequest(order, operator) => RebaselineIssues(s, order, operator, at);
      }
      LastIsNew(IssuedReceipts(s.log), a.receipt);
    }
  }

  lemma AdvanceIssues(s: Server, body: Advance, at: int)
    ensures var (s', a) := HandleAdvance(s, body, at);
            s' != s ==>
              && a.Issued? && s'.host.LastReceipt() == Some(a.receipt)
              && IssuedReceipts(s'.log) == IssuedReceipts(s.log) + [a.receipt]
  {
    var (s', a) := HandleAdvance(s, body, at);
    if s' != s {
      var d := DecideAdvance(s.host, s.heads, s.log, body);
      IssuedAfter(s.log, DiscardRows(s.host, d.discard), AdvanceRow(s.host.epoch, body.hostSeq, a.receipt, body));
    }
  }

  lemma RebaselineIssues(s: Server, order: Rebaseline, operator: string, at: int)
    ensures var (s', a) := HandleRebaseline(s, order, operator, at);
            s' != s ==>
              && a.Issued? && s'.host.LastReceipt() == Some(a.receipt)
              && IssuedReceipts(s'.log) == IssuedReceipts(s.log) + [a.receipt]
  {
    var (s', a) := HandleRebaseline(s, order, operator, at);
    if s' != s {
      var row := RebaselineRow(s'.host.epoch, s'.host.confirmedSeq, a.receipt, order);
      IssuedAfter(s.log, DiscardRows(s.host, s.host.pending), row);
    }
  }

  lemma LastIsNew(issued: seq<Receipt>, r: Receipt)
    requires Increasing(issued + [r])
    ensures r !in issued
  {
    var all := issued + [r];
    forall i | 0 <= i < |issued| ensures issued[i] != r {
      assert all[i] == issued[i] && all[|issued|] == r;
    }
  }

  lemma IssuedAfter(log: seq<LogRow>, gone: seq<LogRow>, row: LogRow)
    requires |gone| <= 1 && (|gone| == 1 ==> gone[0].DiscardRow?)
    requires !row.DiscardRow?
    ensures IssuedReceipts(log + gone + [row]) == IssuedReceipts(log) + [row.receipt]
  {
    IssuedSnoc(log + gone, row);
    if |gone| == 1 {
      IssuedSnoc(log, gone[0]);
      assert log + gone == log + [gone[0]];
    } else {
      assert log + gone == log;
    }
  }

  lemma IssuedSnoc(log: seq<LogRow>, row: LogRow)
    ensures IssuedReceipts(log + [row]) ==
            if row.DiscardRow? then IssuedReceipts(log) else IssuedReceipts(log) + [row.receipt]
  {
    assert (log + [row])[..|log|] == log;
  }

  /** Once refused for its `prev`, a copy stays refused: over every later run nothing builds on it again. */
  lemma {:induction false} RefusedStaysRefused(s: Server, trace: seq<Arrival>, prev: Option<Receipt>)
    requires ChainInv(s) && Held(s, prev) && !Named(s.host, prev)
    ensures ChainInv(RunFrom(s, trace))
    ensures Held(RunFrom(s, trace), prev) && !Named(RunFrom(s, trace).host, prev)
  {
    if trace != [] {
      var t := trace[..|trace| - 1];
      RefusedStaysRefused(s, t, prev);
      StepKeeps(RunFrom(s, t), trace[|trace| - 1].request, trace[|trace| - 1].at);
      StepRefuses(RunFrom(s, t), trace[|trace| - 1].request, trace[|trace| - 1].at, prev);
    }
  }

  /** What not being named means to the holder: no advance on that receipt is accepted, whatever else it says. */
  lemma UnnamedIsRefused(s: Server, body: Advance, at: int)
    requires ChainInv(s) && !Named(s.host, body.prev)
    requires WellFormed(AdvanceRequest(body))
    ensures Handle(s, AdvanceRequest(body), at) == (s, Refused(ClassifyPrev(s.log, body.prev)))
  {
  }

  /**
    Two copies of the host hold different receipts. Once an advance built on `a` is accepted, every advance
    built on `b` is refused from then on: they can never both be accepted.
  */
  lemma ClonesDiverge(s: Server, body: Advance, at: int, b: Option<Receipt>, trace: seq<Arrival>,
                      next: Advance, nextAt: int)
    requires ChainInv(s) && Held(s, b) && b != body.prev
    requires WellFormed(AdvanceRequest(body)) && DecideAdvance(s.host, s.heads, s.log, body).Accept?
    requires WellFormed(AdvanceRequest(next)) && next.prev == b
    ensures var later := RunFrom(Handle(s, AdvanceRequest(body), at).0, trace);
            Handle(later, AdvanceRequest(next), nextAt).1.Refused?
  {
    var s' := Handle(s, AdvanceRequest(body), at).0;
    StepKeeps(s, AdvanceRequest(body), at);
    StepIssues(s, AdvanceRequest(body), at);
    assert s'.host.confirmed == body.prev;
    if b.Some? { assert b.value != s'.host.pending.value.receipt; }
    assert Held(s', b) && !Named(s'.host, b);
    RefusedStaysRefused(s', trace, b);
    UnnamedIsRefused(RunFrom(s', trace), next, nextAt);
  }
}
