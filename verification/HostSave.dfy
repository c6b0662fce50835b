/**
  `AgentHost._persist`: one save of a task as a database transaction that first asks the remote witness and then
  advances the local audit floor, with a failure possible at every step. `Save` gives the outcome of one save as a
  value; `HostNode.Persist` runs the steps in the source's order against it.
*/
module HostSave {
  import opened Options
  import opened WitnessRules

  // ----- the runtime database and the audit floor --------------------------------------------------------

  datatype Checkpoint = Checkpoint(generation: int, closed: bool)

  /** What a save writes in one transaction. `chains` holds the event hashes of each task, oldest first. */
  datatype Db = Db(receipt: Option<Receipt>, chains: map<string, seq<string>>, nonces: set<string>,
                   checkpoints: map<string, Checkpoint>)
  {
    function Chain(task: string): seq<string> { if task in chains then chains[task] else [] }

    /** The witness sequence of the last receipt: a commit adds one, a recovery starts a new epoch above all others. */
    function Seq(): int { if receipt.None? then 0 else receipt.value.Seq() }
  }

  const EMPTY_DB := Db(None, map[], {}, map[])

  datatype Floor = Floor(heads: map<string, Head>, timeFloor: int)

  const EMPTY_FLOOR := Floor(map[], 0)

  function HeadOf(chain: seq<string>): Option<Head>
  {
    if chain == [] then None else Some(Head(|chain|, chain[|chain| - 1]))
  }

  datatype Verdict = Anchored | NotAnchored | FloorRolledBack | FloorForked

  /** `compare_head`: the witnessed head against the local chain. */
  function CompareHead(witnessed: Option<Head>, chain: seq<string>): Verdict
  {
    if witnessed.None? then NotAnchored
    else if |chain| < witnessed.value.sequence then FloorRolledBack
    else if witnessed.value.sequence < 1 || chain[witnessed.value.sequence - 1] != witnessed.value.hash
      then FloorForked
    else Anchored
  }

  function WitnessedHead(floor: Floor, task: string): Option<Head>
  {
    if task in floor.heads then Some(floor.heads[task]) else None
  }

  function RaiseTime(floor: Floor, at: int): Floor
  {
    if at > floor.timeFloor then floor.(timeFloor := at) else floor
  }

  /** `advance_head`: monotonic; a different head for the witnessed sequence is refused. */
  function AdvanceHead(floor: Floor, task: string, head: Head): Option<Floor>
  {
    if task in floor.heads && head.sequence == floor.heads[task].sequence && head.hash != floor.heads[task].hash
      then None
    else if task !in floor.heads || head.sequence > floor.heads[task].sequence
      then Some(floor.(heads := floor.heads[task := head]))
    else Some(floor)
  }

  // ----- one save ------------------------------------------------------------------------------------------

  /** Where a save may break: the store or signer, the call to the witness, the floor file, the commit itself. */
  datatype Fault = NoFault | StoreFails | RequestLost | AnswerLost | FloorTimeFails | FloorHeadFails | CommitFails

  datatype SaveInput = SaveInput(
    task: string, events: seq<string>, generation: int, closed: bool,
    nonce: Option<string>, migration: bool,  // a fresh admission consumes a nonce; a migration brings its own head
    chainVerifies: bool,                     // the verdict of the full check of a chain the floor never saw
    registry: Option<Registry>, timeFloor: Option<int>, at: int, fault: Fault)

  datatype Outcome =
    | Committed
    | FloorRefused(verdict: Verdict)
    | UnverifiedChain
    | StoreRefused
    | WitnessRefused(code: Code)
    | WitnessUnavailable
    | Failed

  datatype SaveResult = SaveResult(remote: Server, floor: Floor, db: Db, outcome: Outcome)

  /** Everything the transaction writes before the witness is asked; None when the store refuses one part of it. */
  function Stage(db: Db, inp: SaveInput): Option<Db>
  {
    if inp.nonce.Some? && !inp.migration && db.Chain(inp.task) != [] then None
    else if inp.nonce.Some? && inp.nonce.value in db.nonces then None
    else
      var current := if inp.task in db.checkpoints then db.checkpoints[inp.task] else Checkpoint(0, false);
      if current.closed || current.generation != inp.generation then None
      else
        Some(Db(db.receipt,
                db.chains[inp.task := db.Chain(inp.task) + inp.events],
                if inp.nonce.Some? then db.nonces + {inp.nonce.value} else db.nonces,
                db.checkpoints[inp.task := Checkpoint(inp.generation + 1, inp.closed)]))
  }

  /** The advance of a save: it names the receipt this database committed last and the head it is about to commit. */
  function AdvanceBody(db: Db, staged: Db, inp: SaveInput): Advance
  {
    var head := HeadOf(staged.Chain(inp.task));
    Advance(db.Seq() + 1, db.receipt,
            if head.None? then [] else [HeadEntry(inp.task, head.value)],
            inp.registry, if inp.timeFloor.Some? then inp.timeFloor.value else 0)
  }

  /** The last steps, once the witness issued `receipt`: the floor's time, the floor's head, the commit. */
  function Finish(remote: Server, floor: Floor, db: Db, staged: Db, inp: SaveInput): SaveResult
  {
    if inp.timeFloor.Some? && inp.fault.FloorTimeFails? then SaveResult(remote, floor, db, Failed)
    else
      var timed := if inp.timeFloor.Some? then RaiseTime(floor, inp.timeFloor.value) else floor;
      var head := HeadOf(staged.Chain(inp.task));
      if head.Some? && inp.fault.FloorHeadFails? then SaveResult(remote, timed, db, Failed)
      else
        var raised := if head.Some? then AdvanceHead(timed, inp.task, head.value) else Some(timed);
        if raised.None? then SaveResult(remote, timed, db, FloorRefused(FloorForked))
        else if inp.fault.CommitFails? then SaveResult(remote, raised.value, db, Failed)
        else SaveResult(remote, raised.value, staged, Committed)
  }

  function AskWitness(remote: Server, floor: Floor, db: Db, staged: Db, inp: SaveInput): SaveResult
  {
    if inp.fault.RequestLost? then SaveResult(remote, floor, db, WitnessUnavailable)
    else
      var (remote', answer) := Handle(remote, AdvanceRequest(AdvanceBody(db, staged, inp)), inp.at);
      if inp.fault.AnswerLost? then SaveResult(remote', floor, db, WitnessUnavailable)
      else if answer.Refused? then SaveResult(remote', floor, db, WitnessRefused(answer.code))
      else Finish(remote', floor, db, staged.(receipt := Some(answer.receipt)), inp)
  }

  function Save(remote: Server, floor: Floor, db: Db, inp: SaveInput): SaveResult
  {
    var verdict := CompareHead(WitnessedHead(floor, inp.task), db.Chain(inp.task));
    if verdict.FloorRolledBack? || verdict.FloorForked? then SaveResult(remote, floor, db, FloorRefused(verdict))
    else if db.Chain(inp.task) != [] && inp.task !in floor.heads && !inp.chainVerifies
      then SaveResult(remote, floor, db, UnverifiedChain)
    else
      var staged := Stage(db, inp);
      if staged.None? || inp.fault.StoreFails? then SaveResult(remote, floor, db, StoreRefused)
      else AskWitness(remote, floor, db, staged.value, inp)
  }

  /** The host process with its database, its floor file, and the witness it talks to. */
  class HostNode {
    var remote: Server
    var floor: Floor
    var db: Db

    constructor (remote: Server, floor: Floor, db: Db)
      ensures this.remote == remote && this.floor == floor && this.db == db
    {
      this.remote, this.floor, this.db := remote, floor, db;
    }

    /** `_persist`: the transaction works on a staged copy, and only the last step makes it the database. */
    method Persist(inp: SaveInput) returns (outcome: Outcome)
      modifies this
      ensures SaveResult(remote, floor, db, outcome) == Save(old(remote), old(floor), old(db), inp)
      ensures !outcome.Committed? ==> db == old(db)
    {
      var verdict := CompareHead(WitnessedHead(floor, inp.task), db.Chain(inp.task));
      if verdict.FloorRolledBack? || verdict.FloorForked? { return FloorRefused(verdict); }
      if db.Chain(inp.task) != [] && inp.task !in floor.heads && !inp.chainVerifies { return UnverifiedChain; }
      var written := WriteTransaction(inp);
      if written.None? || inp.fault.StoreFails? { return StoreRefused; }

      // The witness advances inside the transaction, before anything local has been advanced.
      if inp.fault.RequestLost? { return WitnessUnavailable; }
      var (moved, answer) := Handle(remote, AdvanceRequest(AdvanceBody(db, written.value, inp)), inp.at);
      remote := moved;
      if inp.fault.AnswerLost? { return WitnessUnavailable; }
      if answer.Refused? { return WitnessRefused(answer.code); }
      outcome := AdvanceFloorAndCommit(written.value.(receipt := Some(answer.receipt)), inp);
    }

    /** The nonce, the audit events and the checkpoint of the save, each of which the store may refuse. */
    method WriteTransaction(inp: SaveInput) returns (written: Option<Db>)
      ensures written == Stage(db, inp)
    {
      if inp.nonce.Some? && !inp.migration && db.Chain(inp.task) != [] { return None; }
      var staged := db;
      if inp.nonce.Some? {
        if inp.nonce.value in staged.nonces { return None; }
        staged := staged.(nonces := staged.nonces + {inp.nonce.value});
      }
      staged := staged.(chains := staged.chains[inp.task := staged.Chain(inp.task) + inp.events]);
      var current := if inp.task in staged.checkpoints then staged.checkpoints[inp.task] else Checkpoint(0, false);
      if current.closed || current.generation != inp.generation { return None; }
      staged := staged.(checkpoints := staged.checkpoints[inp.task := Checkpoint(inp.generation + 1, inp.closed)]);
      return Some(staged);
    }

    /** The floor advances last, so no commit is acknowledged that it has not recorded. */
    method AdvanceFloorAndCommit(staged: Db, inp: SaveInput) returns (outcome: Outcome)
      modifies this`floor, this`db
      ensures SaveResult(remote, floor, db, outcome) == Finish(remote, old(floor), old(db), staged, inp)
      ensures !outcome.Committed? ==> db == old(db)
    {
      if inp.timeFloor.Some? {
        if inp.fault.FloorTimeFails? { return Failed; }
        floor := RaiseTime(floor, inp.timeFloor.value);
      }
      var head := HeadOf(staged.Chain(inp.task));
      if head.Some? {
        if inp.fault.FloorHeadFails? { return Failed; }
        var raised := AdvanceHead(floor, inp.task, head.value);
        if raised.None? { return FloorRefused(FloorForked); }
        floor := raised.value;
      }
      if inp.fault.CommitFails? { return Failed; }
      db := staged;
      return Committed;
    }
  }
}
