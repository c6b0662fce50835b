/**
  The checkpoint of a task and its size in canonical JSON. Values the host does not look into (the goal, the memory,
  the messages it was given, the result) are held as their canonical JSON text, one character per byte.
*/
module Checkpoints {
  datatype Status = Ready | Running | AwaitingInput | Completed | Failed

  function StatusText(status: Status): string
  {
    match status
    case Ready => "ready"
    case Running => "running"
    case AwaitingInput => "awaiting_input"
    case Completed => "completed"
    case Failed => "failed"
  }

  datatype AgentState = AgentState(
    taskId: string, goal: string, generation: nat, step: nat, toolCalls: nat,
    memory: string, messages: seq<Note>, status: Status, result: Result)

  /** A message: one the task came with, or what the host records of a tool's result. */
  datatype Note = Note(text: string) | ToolNote(tool: string, content: string)

  function NoteText(note: Note): string
  {
    match note
    case Note(text) => text
    case ToolNote(tool, content) => "{\"content\":" + content + ",\"name\":\"" + tool + "\",\"role\":\"tool\"}"
  }

  /** The messages between the brackets of their array. */
  function Listed(messages: seq<Note>): string
  {
    if messages == [] then ""
    else
      var last := NoteText(messages[|messages| - 1]);
      if |messages| == 1 then last else Listed(messages[..|messages| - 1]) + "," + last
  }

  /** The canonical text of a result: opaque content, `null`, or one of the fixed `{"error": ...}` objects. */
  datatype Result = Content(text: string) | NullResult | Error(message: Message)

  datatype Message =
    | ProviderFailed | DecisionRefused | PermitExpired | ApprovalRejected | EffectRefused | NotSerializable
    | TaskCancelled | StepsExhausted | OutputRefused

  function MessageText(message: Message): string
  {
    match message
    case ProviderFailed => "provider failed"
    case DecisionRefused => "decision refused"
    case PermitExpired => "permit expired"
    case ApprovalRejected => "approval rejected"
    case EffectRefused => "tool effect refused"
    case NotSerializable => "non-serializable content rejected"
    case TaskCancelled => "task cancelled"
    case StepsExhausted => "step budget exhausted"
    case OutputRefused => "checkpoint exceeds output budget after tool execution"
  }

  function ResultText(result: Result): string
  {
    match result
    case Content(text) => text
    case NullResult => "null"
    case Error(message) => "{\"error\":\"" + MessageText(message) + "\"}"
  }

  /** JSON objects and arrays have two brackets, strings two quotes, and no value is empty. */
  predicate Encoded(s: AgentState)
  {
    2 <= |s.taskId| && 2 <= |s.goal| && 2 <= |s.memory| && 1 <= ResultLength(s.result)
  }

  function Decimal(n: nat): (digits: string)
    ensures |digits| >= 1
  {
    if n < 10 then [(n as char) + '0'] else Decimal(n / 10) + [((n % 10) as char) + '0']
  }

  /** `canonical_json(asdict(state))`: the nine keys in sorted order, with no spaces. */
  function Render(s: AgentState): string
  {
    "{\"checkpoint_generation\":" + Decimal(s.generation)
    + ",\"goal\":" + s.goal
    + ",\"memory\":" + s.memory
    + ",\"messages\":[" + Listed(s.messages)
    + "],\"result\":" + ResultText(s.result)
    + ",\"status\":\"" + StatusText(s.status)
    + "\",\"step\":" + Decimal(s.step)
    + ",\"task_id\":" + s.taskId
    + ",\"tool_calls\":" + Decimal(s.toolCalls) + "}"
  }

  const FRAME := 113  // the bytes of a checkpoint that are the same for every task

  function Digits(n: nat): nat { if n < 10 then 1 else 1 + Digits(n / 10) }

  function StatusLength(status: Status): nat
  {
    match status
    case Ready => 5
    case Running => 7
    case AwaitingInput => 14
    case Completed => 9
    case Failed => 6
  }

  function MessageLength(message: Message): nat
  {
    match message
    case ProviderFailed => 15
    case DecisionRefused => 16
    case PermitExpired => 14
    case ApprovalRejected => 17
    case EffectRefused => 19
    case NotSerializable => 33
    case TaskCancelled => 14
    case StepsExhausted => 21
    case OutputRefused => 53
  }

  function ResultLength(result: Result): nat
  {
    match result
    case Content(text) => |text|
    case NullResult => 4
    case Error(message) => 12 + MessageLength(message)
  }

  function NoteLength(note: Note): nat
  {
    match note
    case Note(text) => |text|
    case ToolNote(tool, content) => 36 + |tool| + |content|
  }

  function ListedLength(messages: seq<Note>): nat
  {
    if messages == [] then 0
    else
      var last := NoteLength(messages[|messages| - 1]);
      if |messages| == 1 then last else ListedLength(messages[..|messages| - 1]) + 1 + last
  }

  function Size(s: AgentState): nat
  {
    FRAME + Digits(s.generation) + Digits(s.step) + Digits(s.toolCalls)
    + |s.taskId| + |s.goal| + |s.memory| + ListedLength(s.messages) + ResultLength(s.result) + StatusLength(s.status)
  }

  /** What `_terminalize_over_budget` falls back to: no working state and no result. */
  function Tombstone(s: AgentState): AgentState
  {
    s.(memory := "{}", messages := [], result := NullResult)
  }

  // ----- sizes -----------------------------------------------------------------------------------------------

  lemma {:induction false} DecimalDigits(n: nat)
    ensures |Decimal(n)| == Digits(n)
  {
    if n >= 10 { DecimalDigits(n / 10); }
  }

  /** `Size` is the length of the canonical encoding. */
  lemma SizeIsRenderedLength(s: AgentState)
    ensures Size(s) == |Render(s)|
  {
    DecimalDigits(s.generation);
    DecimalDigits(s.step);
    DecimalDigits(s.toolCalls);
    TextLengths(s.status, s.result);
    ListedTextLength(s.messages);
  }

  lemma {:induction false} ListedTextLength(messages: seq<Note>)
    ensures |Listed(messages)| == ListedLength(messages)
  {
    if |messages| > 1 { ListedTextLength(messages[..|messages| - 1]); }
  }

  /** A recorded tool result is at least the 36 bytes around it longer than the messages it joins. */
  lemma ToolNoteGrows(messages: seq<Note>, tool: string, content: string)
    ensures ListedLength(messages + [ToolNote(tool, content)]) >= ListedLength(messages) + 36
  {
    assert (messages + [ToolNote(tool, content)])[..|messages|] == messages;
  }

  lemma TextLengths(status: Status, result: Result)
    ensures |StatusText(status)| == StatusLength(status) && |ResultText(result)| == ResultLength(result)
  {
    if result.Error? { MessageTextLength(result.message); }
  }

  lemma MessageTextLength(message: Message)
    ensures |MessageText(message)| == MessageLength(message)
  {
  }

  lemma {:induction false} DigitsMonotone(a: nat, b: nat)
    requires a <= b
    ensures Digits(a) <= Digits(b)
  {
    if a >= 10 { DigitsMonotone(a / 10, b / 10); }
  }

  lemma {:induction false} DigitsStep(a: nat, b: nat)
    requires a <= b <= a + 1
    ensures Digits(b) <= Digits(a) + 1
  {
    if a >= 10 && b >= 10 { DigitsStep(a / 10, b / 10); }
  }

  /** `later` is at most one step and one save after `fitted`, in the same task; a step that completes calls no tool. */
  predicate OneStepLater(fitted: AgentState, later: AgentState)
  {
    && later.taskId == fitted.taskId && later.goal == fitted.goal
    && fitted.generation <= later.generation <= fitted.generation + 1
    && fitted.step <= later.step <= fitted.step + 1
    && fitted.toolCalls <= later.toolCalls <= fitted.toolCalls + 1
    && (later.status.Completed? ==> later.toolCalls == fitted.toolCalls)
  }

  /**
    The tombstone is at most seven bytes over what the last running checkpoint that fitted had besides its messages: a
    digit for the generation and one for the step, two for the word `completed`, and three for `null` in place of a
    one-byte result.
  */
  lemma TombstoneBound(fitted: AgentState, later: AgentState)
    requires Encoded(fitted) && fitted.status.Running? && OneStepLater(fitted, later)
    requires !later.status.AwaitingInput?
    ensures Size(Tombstone(later)) + ListedLength(fitted.messages) <= Size(fitted) + 7
  {
    DigitsStep(fitted.generation, later.generation);
    DigitsStep(fitted.step, later.step);
    DigitsStep(fitted.toolCalls, later.toolCalls);
  }

  /** Where a step that began at `start` can stand before it is saved: completed, or failed after a tool call. */
  predicate WithinStep(start: AgentState, later: AgentState)
  {
    && later.taskId == start.taskId && later.goal == start.goal
    && later.generation <= start.generation + 1 && later.step <= start.step + 1
    && later.toolCalls <= start.toolCalls + 1
    && (later.status.Completed? ==> later.toolCalls <= start.toolCalls)
  }

  /** The tombstone of a task that completes in its first step after `start`. */
  function CompletedTombstone(start: AgentState): AgentState
  {
    Tombstone(start).(generation := start.generation + 1, step := start.step + 1, status := Completed)
  }

  /** No tombstone of a step is larger than that of its completion. */
  lemma CompletionIsLargest(start: AgentState, later: AgentState)
    requires WithinStep(start, later) && !later.status.AwaitingInput?
    ensures Size(Tombstone(later)) <= Size(CompletedTombstone(start))
  {
    DigitsMonotone(later.generation, start.generation + 1);
    DigitsMonotone(later.step, start.step + 1);
    if later.toolCalls <= start.toolCalls {
      DigitsMonotone(later.toolCalls, start.toolCalls);
    } else {
      DigitsStep(start.toolCalls, later.toolCalls);
    }
  }
}
