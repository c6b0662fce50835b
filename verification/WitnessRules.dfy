/**
  The remote witness of one host: the chain rules for one advance or one operator rebaseline, and the
  server step that applies them to the derived state, the confirmed task heads and the append-only log.

  Receipt hashes are receipts: the digest is taken to be injective, so a hash IS the body it digests, and a
  hash no receipt body has is `Foreign`. The digest of a request body is the body itself for the same reason.
  Signatures are ideal: only requests that passed authentication reach this module.
*/
module WitnessRules {
  import opened Options

  // ----- request bodies and receipts -----------------------------------------------------------------

  datatype Head = Head(sequence: int, hash: string)

  /** One item of the `heads` object of a request, listed in canonical order. */
  datatype HeadEntry = HeadEntry(task: string, head: Head)

  datatype Registry = Registry(version: int, digest: string)

  datatype Advance = Advance(hostSeq: int, prev: Option<Receipt>, heads: seq<HeadEntry>,
                             registry: Option<Registry>, timeFloor: int)

  datatype Rebaseline = Rebaseline(expectedLast: Option<Receipt>, nonce: string, reason: string,
                                   heads: seq<HeadEntry>, registry: Option<Registry>, timeFloor: int)

  datatype Receipt =
    | Advanced(epoch: int, hostSeq: int, prev: Option<Receipt>, request: Advance, acceptedAt: int,
               confirmed: Option<Receipt>, discarded: Option<Receipt>)
    | Rebaselined(epoch: int, hostSeq: int, prev: Option<Receipt>, order: Rebaseline, acceptedAt: int,
                  operator: string)
    | Foreign(text: string)
  {
    function Epoch(): int { if Foreign? then 0 else epoch }
    function Seq(): int { if Foreign? then 0 else hostSeq }
    function Prev(): Option<Receipt> { if Foreign? then None else prev }
  }

  /** The `heads` object as a mapping. */
  function HeadMap(entries: seq<HeadEntry>): map<string, Head>
  {
    if entries == [] then map[]
    else
      var last := entries[|entries| - 1];
      HeadMap(entries[..|entries| - 1])[last.task := last.head]
  }

  const MAX_HEADS := 10_000

  /** A JSON object names each task once (duplicate keys do not parse), and every sequence is at least 1. */
  predicate WellFormedHeads(entries: seq<HeadEntry>)
  {
    && |entries| <= MAX_HEADS
    && (forall i, j :: 0 <= i < j < |entries| ==> entries[i].task != entries[j].task)
    && (forall i :: 0 <= i < |entries| ==> entries[i].head.sequence >= 1)
  }

  predicate WellFormedRegistry(registry: Option<Registry>)
  {
    registry.Some? ==> registry.value.version >= 1
  }

  // ----- what the witness remembers ------------------------------------------------------------------

  datatype Pending = Pending(hostSeq: int, receipt: Receipt, request: Advance, heads: seq<HeadEntry>,
                             registry: Option<Registry>, timeFloor: int)

  datatype HostState = HostState(epoch: int, confirmedSeq: int, confirmed: Option<Receipt>,
                                 pending: Option<Pending>, registry: Option<Registry>, timeFloor: int)
  {
    function LastReceipt(): Option<Receipt> {
      if pending.Some? then Some(pending.value.receipt) else confirmed
    }
    function LastSeq(): int {
      if pending.Some? then pending.value.hostSeq else confirmedSeq
    }
  }

  datatype LogRow =
    | AdvanceRow(epoch: int, hostSeq: int, receipt: Receipt, request: Advance)
    | DiscardRow(epoch: int, hostSeq: int, receipt: Receipt)
    | RebaselineRow(epoch: int, hostSeq: int, receipt: Receipt, order: Rebaseline)

  datatype Server = Server(host: HostState, heads: map<string, Head>, log: seq<LogRow>)

  const EMPTY_SERVER := Server(HostState(1, 0, None, None, None, 0), map[], [])

  predicate IssuedIn(log: seq<LogRow>, r: Receipt)
  {
    exists i :: 0 <= i < |log| && !log[i].DiscardRow? && log[i].receipt == r
  }

  predicate DiscardedIn(log: seq<LogRow>, r: Receipt)
  {
    exists i :: 0 <= i < |log| && log[i].DiscardRow? && log[i].receipt == r
  }

  // ----- the chain rules -----------------------------------------------------------------------------

  datatype Code = RolledBack | Forked | SequenceMismatch | RegistryMissing | RegistryRolledBack
                | RegistryForked | StaleRebaseline | Malformed

  datatype Decision =
    | Accept(confirm: Option<Pending>, discard: Option<Pending>)
    | Replay
    | Refuse(code: Code)

  function HigherRegistry(first: Option<Registry>, second: Option<Registry>): Option<Registry>
  {
    if first.None? then second
    else if second.None? then first
    else if second.value.version > first.value.version then second
    else first
  }

  function ClassifyPrev(log: seq<LogRow>, prev: Option<Receipt>): Code
  {
    if prev.None? then RolledBack
    else if !IssuedIn(log, prev.value) then Forked
    else if DiscardedIn(log, prev.value) then Forked
    else RolledBack
  }

  /** The head an offered one is compared with: the advance being confirmed first, then the confirmed table. */
  function Witnessed(confirm: Option<Pending>, heads: map<string, Head>, task: string): Option<Head>
  {
    if confirm.Some? && task in HeadMap(confirm.value.heads) then Some(HeadMap(confirm.value.heads)[task])
    else if task in heads then Some(heads[task])
    else None
  }

  function CheckHeads(entries: seq<HeadEntry>, confirm: Option<Pending>, heads: map<string, Head>): Option<Code>
  {
    if entries == [] then None
    else
      var witnessed := Witnessed(confirm, heads, entries[0].task);
      if witnessed.Some? && entries[0].head.sequence < witnessed.value.sequence then Some(RolledBack)
      else if && witnessed.Some?
              && entries[0].head.sequence == witnessed.value.sequence
              && entries[0].head.hash != witnessed.value.hash then Some(Forked)
      else CheckHeads(entries[1..], confirm, heads)
  }

  function CheckRegistry(offered: Option<Registry>, registry: Option<Registry>): Option<Code>
  {
    if registry.None? then None
    else if offered.None? then Some(RegistryMissing)
    else if offered.value.version < registry.value.version then Some(RegistryRolledBack)
    else if offered.value.version == registry.value.version && offered.value.digest != registry.value.digest
      then Some(RegistryForked)
    else None
  }

  /** The rules after `prev` was matched: `confirm` is the pending advance it confirms, `discard` the one it drops. */
  function Judge(st: HostState, heads: map<string, Head>, body: Advance,
                 confirm: Option<Pending>, discard: Option<Pending>, baseSeq: int): Decision
  {
    if body.hostSeq != baseSeq + 1 then Refuse(SequenceMismatch)
    else
      var badHead := CheckHeads(body.heads, confirm, heads);
      if badHead.Some? then Refuse(badHead.value)
      else
        var registry := HigherRegistry(st.registry, if confirm.Some? then confirm.value.registry else None);
        var badRegistry := CheckRegistry(body.registry, registry);
        if badRegistry.Some? then Refuse(badRegistry.value)
        else Accept(confirm, discard)
  }

  function DecideAdvance(st: HostState, heads: map<string, Head>, log: seq<LogRow>, body: Advance): Decision
  {
    if st.pending.Some? && body == st.pending.value.request then Replay
    else if st.pending.Some? && body.prev == Some(st.pending.value.receipt) then
      Judge(st, heads, body, st.pending, None, st.pending.value.hostSeq)
    else if body.prev == st.confirmed then
      Judge(st, heads, body, None, st.pending, st.confirmedSeq)
    else Refuse(ClassifyPrev(log, body.prev))
  }

  function ReceiptOf(p: Option<Pending>): Option<Receipt>
  {
    if p.Some? then Some(p.value.receipt) else None
  }

  function ReceiptBody(st: HostState, body: Advance, d: Decision, at: int): Receipt
    requires d.Accept?
  {
    Advanced(st.epoch, body.hostSeq, body.prev, body, at, ReceiptOf(d.confirm), ReceiptOf(d.discard))
  }

  function ApplyAdvance(st: HostState, body: Advance, confirm: Option<Pending>, receipt: Receipt): HostState
  {
    var pending := Pending(body.hostSeq, receipt, body, body.heads, body.registry, body.timeFloor);
    if confirm.None? then st.(pending := Some(pending))
    else
      HostState(st.epoch, confirm.value.hostSeq, Some(confirm.value.receipt), Some(pending),
                HigherRegistry(st.registry, confirm.value.registry),
                if confirm.value.timeFloor > st.timeFloor then confirm.value.timeFloor else st.timeFloor)
  }

  function RebaselineBody(st: HostState, body: Rebaseline, operator: string, at: int): Receipt
  {
    Rebaselined(st.epoch + 1, st.LastSeq() + 1, st.LastReceipt(), body, at, operator)
  }

  function ApplyRebaseline(body: Rebaseline, receipt: Receipt): HostState
  {
    HostState(receipt.Epoch(), receipt.Seq(), Some(receipt), None, body.registry, body.timeFloor)
  }

  // ----- one request at the server -------------------------------------------------------------------

  datatype Request = AdvanceRequest(body: Advance) | RebaselineRequest(order: Rebaseline, operator: string)

  datatype Answer = Issued(receipt: Receipt) | Refused(code: Code)

  predicate WellFormed(req: Request)
  {
    match req
    case AdvanceRequest(b) =>
      b.hostSeq >= 1 && WellFormedHeads(b.heads) && WellFormedRegistry(b.registry) && b.timeFloor >= 0
    case RebaselineRequest(b, _) =>
      WellFormedHeads(b.heads) && WellFormedRegistry(b.registry) && b.timeFloor >= 0
  }

  function DiscardRows(st: HostState, p: Option<Pending>): seq<LogRow>
  {
    if p.Some? then [DiscardRow(st.epoch, p.value.hostSeq, p.value.receipt)] else []
  }

  function HandleAdvance(s: Server, body: Advance, at: int): (Server, Answer)
  {
    var d := DecideAdvance(s.host, s.heads, s.log, body);
    match d
    case Replay =>
      // `Replay` is decided only when something is pending; the same receipt goes back.
      (s, if s.host.pending.Some? then Issued(s.host.pending.value.receipt) else Refused(Malformed))
    case Refuse(code) => (s, Refused(code))
    case Accept(confirm, discard) =>
      var receipt := ReceiptBody(s.host, body, d, at);
      (Server(ApplyAdvance(s.host, body, confirm, receipt),
              if confirm.Some? then s.heads + HeadMap(confirm.value.heads) else s.heads,
              s.log + DiscardRows(s.host, discard) + [AdvanceRow(s.host.epoch, body.hostSeq, receipt, body)]),
       Issued(receipt))
  }

  /** An order that was already carried out, sent once more before any advance was built on it. */
  predicate IsRebaselineRetry(s: Server, order: Rebaseline)
  {
    && s.host.pending.None?
    && s.host.confirmed.Some?
    && exists i :: 0 <= i < |s.log| && s.log[i].RebaselineRow?
        && s.log[i].receipt == s.host.confirmed.value && s.log[i].order == order
  }

  function HandleRebaseline(s: Server, order: Rebaseline, operator: string, at: int): (Server, Answer)
  {
    if IsRebaselineRetry(s, order) && s.host.confirmed.Some? then (s, Issued(s.host.confirmed.value))
    else if order.expectedLast != s.host.LastReceipt() then (s, Refused(StaleRebaseline))
    else
      var receipt := RebaselineBody(s.host, order, operator, at);
      var host := ApplyRebaseline(order, receipt);
      (Server(host, HeadMap(order.heads),
              s.log + DiscardRows(s.host, s.host.pending)
              + [RebaselineRow(host.epoch, host.confirmedSeq, receipt, order)]),
       Issued(receipt))
  }

  function Handle(s: Server, req: Request, at: int): (Server, Answer)
  {
    if !WellFormed(req) then (s, Refused(Malformed))
    else
      match req
      case AdvanceRequest(body) => HandleAdvance(s, body, at)
      case RebaselineRequest(order, operator) => HandleRebaseline(s, order, operator, at)
  }

  /** A request together with the witness clock when it was handled. */
  datatype Arrival = Arrival(request: Request, at: int)

  function RunFrom(s: Server, trace: seq<Arrival>): Server
  {
    if trace == [] then s
    else Handle(RunFrom(s, trace[..|trace| - 1]), trace[|trace| - 1].request, trace[|trace| - 1].at).0
  }

  // ----- rebuilding the derived tables from the log ---------------------------------------------------

  datatype Derived = Derived(host: HostState, heads: map<string, Head>)

  function FoldRow(acc: Derived, row: LogRow): Derived
  {
    match row
    case DiscardRow(_, _, _) => acc
    case AdvanceRow(_, _, receipt, request) =>
      var pending := acc.host.pending;
      var confirm := if pending.Some? && request.prev == Some(pending.value.receipt) then pending else None;
      Derived(ApplyAdvance(acc.host, request, confirm, receipt),
              if confirm.Some? then acc.heads + HeadMap(confirm.value.heads) else acc.heads)
    case RebaselineRow(_, _, receipt, order) =>
      Derived(ApplyRebaseline(order, receipt), HeadMap(order.heads))
  }

  function FoldLog(log: seq<LogRow>): Derived
  {
    if log == [] then Derived(EMPTY_SERVER.host, map[])
    else FoldRow(FoldLog(log[..|log| - 1]), log[|log| - 1])
  }
}
