/**
  The durable ledger of side-effecting tool calls: the store operations on one row, the host's decision before a
  launch, and the operator's reconcile pass. `EffectStore` is the store whose rows change in place; each of its
  methods is one of the row operations at one effect id and leaves every other row alone.
*/
module EffectLedger {
  import opened Options

  /** `effect_id(task_id, tool_calls)`: one logical call position. The digest is injective, so the pair is the id. */
  datatype EffectId = EffectId(task: string, position: int)

  datatype State = Prepared | Started | Unknown | Reconciling | Reconciled | Confirmed

  /** `args` and `result` are canonical JSON texts. */
  datatype Row = Row(tool: string, args: string, state: State, result: Option<string>,
                     claim: Option<string>, lease: Option<int>)
  {
    predicate Terminal() { state.Confirmed? || state.Reconciled? }
    predicate BoundTo(t: string, a: string) { tool == t && args == a }
    predicate HeldBy(c: string) { state.Reconciling? && claim == Some(c) }
    predicate Claimable(now: int) {
      state.Unknown? || (state.Reconciling? && (lease.None? || lease.value <= now))
    }
  }

  const LEASE_SECONDS := 300

  // ----- the store operations on one row ---------------------------------------------------------------------

  function RecordPrepared(row: Option<Row>, tool: string, args: string): Option<Row>
  {
    if row.Some? then row else Some(Row(tool, args, Prepared, None, None, None))
  }

  function MarkStarted(row: Option<Row>): Option<Row>
  {
    if row.Some? && row.value.state.Prepared? then Some(row.value.(state := Started)) else row
  }

  /** Unguarded: the row takes the new state whatever it was. */
  function Settle(row: Option<Row>, state: State, result: Option<string>): Option<Row>
  {
    if row.Some? then Some(row.value.(state := state, result := result)) else None
  }

  /** None when the claim is refused. */
  function Claim(row: Option<Row>, claim: string, now: int): Option<Row>
  {
    if row.Some? && row.value.Claimable(now)
      then Some(row.value.(state := Reconciling, claim := Some(claim), lease := Some(now + LEASE_SECONDS)))
    else None
  }

  /** A terminal settle needs the owning claim and a live lease; None when it is refused. */
  function SettleFromClaim(row: Option<Row>, claim: string, state: State, result: Option<string>, now: int): Option<Row>
  {
    if row.Some? && row.value.HeldBy(claim) && row.value.lease.Some? && row.value.lease.value > now
      then Some(row.value.(state := state, result := result, claim := None, lease := None))
    else None
  }

  /** A release needs the owning claim only. */
  function Release(row: Option<Row>, claim: string): Option<Row>
  {
    if row.Some? && row.value.HeldBy(claim)
      then Some(row.value.(state := Unknown, result := None, claim := None, lease := None))
    else row
  }

  /** None when the claim is lost. */
  function Renew(row: Option<Row>, claim: string, now: int): Option<Row>
  {
    if row.Some? && row.value.HeldBy(claim) then Some(row.value.(lease := Some(now + LEASE_SECONDS))) else None
  }

  // ----- before a launch -------------------------------------------------------------------------------------

  datatype Mode = Replay(result: Option<string>) | RefuseLaunch | Proceed

  /** The reading half of `_effect_pre_launch`: what the stored row says about launching `tool(args)` here. */
  function Consult(row: Option<Row>, tool: string, args: string): Mode
  {
    if row.None? then Proceed
    else if row.value.state in {Started, Unknown, Reconciled, Reconciling} then RefuseLaunch
    else if !row.value.BoundTo(tool, args) then RefuseLaunch
    else if row.value.state.Confirmed? then Replay(row.value.result)
    else Proceed
  }

  /** The first write: an interrupted launch becomes unknown, a first sighting is recorded. */
  function NoteIntent(row: Option<Row>, tool: string, args: string): Option<Row>
  {
    if row.Some? && row.value.state.Started? then Settle(row, Unknown, None)
    else RecordPrepared(row, tool, args)
  }

  // ----- the store, changed in place -------------------------------------------------------------------------

  /** Another operator asking for a claim at a store clock reading. */
  datatype Rival = Rival(claim: string, at: int)

  /** One of them asks once the lease has run out. */
  predicate Overtake(rivals: seq<Rival>, lease: int) { exists i :: 0 <= i < |rivals| && rivals[i].at >= lease }

  predicate AmongRivals(rivals: seq<Rival>, claim: Option<string>)
  {
    exists i :: 0 <= i < |rivals| && claim == Some(rivals[i].claim)
  }

  datatype Reconciliation = Landed(result: Option<string>) | NotLanded | ReconcilerFailed

  function At(rows: map<EffectId, Row>, id: EffectId): Option<Row>
  {
    if id in rows then Some(rows[id]) else None
  }

  /** Only the row at `id` may differ. */
  ghost predicate OnlyAt(before: map<EffectId, Row>, after: map<EffectId, Row>, id: EffectId)
  {
    forall other :: other != id ==> At(after, other) == At(before, other)
  }

  class EffectStore {
    var rows: map<EffectId, Row>

    constructor ()
      ensures rows == map[]
    {
      rows := map[];
    }

    method RecordEffectPrepared(id: EffectId, tool: string, args: string)
      modifies this
      ensures At(rows, id) == RecordPrepared(At(old(rows), id), tool, args) && OnlyAt(old(rows), rows, id)
    {
      if id in rows { return; }
      rows := rows[id := Row(tool, args, Prepared, None, None, None)];
    }

    method MarkEffectStarted(id: EffectId)
      modifies this
      ensures At(rows, id) == MarkStarted(At(old(rows), id)) && OnlyAt(old(rows), rows, id)
    {
      if id in rows && rows[id].state == Prepared {
        rows := rows[id := rows[id].(state := Started)];
      }
    }

    method SettleEffect(id: EffectId, state: State, result: Option<string>)
      modifies this
      ensures At(rows, id) == Settle(At(old(rows), id), state, result) && OnlyAt(old(rows), rows, id)
    {
      if id in rows {
        rows := rows[id := rows[id].(state := state, result := result)];
      }
    }

    method ClaimEffect(id: EffectId, claim: string, now: int) returns (claimed: bool)
      modifies this
      ensures claimed <==> Claim(At(old(rows), id), claim, now).Some?
      ensures At(rows, id) == if claimed then Claim(At(old(rows), id), claim, now) else At(old(rows), id)
      ensures OnlyAt(old(rows), rows, id)
      ensures !claimed ==> rows == old(rows)
    {
      if id !in rows { return false; }
      var row := rows[id];
      var eligible := row.state == Unknown || (row.state == Reconciling && (row.lease.None? || row.lease.value <= now));
      if !eligible { return false; }
      rows := rows[id := row.(state := Reconciling, claim := Some(claim), lease := Some(now + LEASE_SECONDS))];
      return true;
    }

    method RenewEffectClaim(id: EffectId, claim: string, now: int) returns (renewed: bool)
      modifies this
      ensures renewed <==> Renew(At(old(rows), id), claim, now).Some?
      ensures At(rows, id) == if renewed then Renew(At(old(rows), id), claim, now) else At(old(rows), id)
      ensures OnlyAt(old(rows), rows, id)
    {
      if id !in rows || rows[id].state != Reconciling || rows[id].claim != Some(claim) { return false; }
      rows := rows[id := rows[id].(lease := Some(now + LEASE_SECONDS))];
      return true;
    }

    method SettleEffectFromClaim(id: EffectId, claim: string, state: State, result: Option<string>, now: int)
      returns (settled: bool)
      modifies this
      ensures settled <==> SettleFromClaim(At(old(rows), id), claim, state, result, now).Some?
      ensures At(rows, id) ==
              if settled then SettleFromClaim(At(old(rows), id), claim, state, result, now) else At(old(rows), id)
      ensures OnlyAt(old(rows), rows, id)
    {
      if id !in rows || rows[id].state != Reconciling || rows[id].claim != Some(claim) { return false; }
      if rows[id].lease.None? || rows[id].lease.value <= now { return false; }
      rows := rows[id := rows[id].(state := state, result := result, claim := None, lease := None)];
      return true;
    }

    method ReleaseEffectClaim(id: EffectId, claim: string)
      modifies this
      ensures At(rows, id) == Release(At(old(rows), id), claim) && OnlyAt(old(rows), rows, id)
    {
      if id !in rows || rows[id].state != Reconciling || rows[id].claim != Some(claim) { return; }
      rows := rows[id := rows[id].(state := Unknown, result := None, claim := None, lease := None)];
    }

    /**
      `_effect_pre_launch`. A replay comes from a confirmed row of exactly this tool and these arguments; a launch
      may proceed only when the row is now `started` and was not before; a refusal leaves no row that could launch.
    */
    method EffectPreLaunch(id: EffectId, tool: string, args: string) returns (mode: Mode)
      modifies this
      ensures mode == Consult(At(old(rows), id), tool, args)
      ensures var noted := NoteIntent(At(old(rows), id), tool, args);
              At(rows, id) == if mode.Proceed? then MarkStarted(noted) else noted
      ensures OnlyAt(old(rows), rows, id)
      ensures mode.Proceed? ==>
                && id in rows && rows[id].state.Started? && rows[id].BoundTo(tool, args)
                && (id in old(rows) ==> old(rows)[id].state.Prepared?)
      ensures mode.Replay? ==>
                && rows == old(rows)
                && id in rows && rows[id].state.Confirmed? && rows[id].BoundTo(tool, args)
                && mode.result == rows[id].result
      ensures mode.RefuseLaunch? ==> id in rows && !rows[id].state.Started?
    {
      if id in rows {
        var row := rows[id];
        if row.state == Started {
          SettleEffect(id, Unknown, None);
          return RefuseLaunch;
        }
        if row.state in {Unknown, Reconciled, Reconciling} { return RefuseLaunch; }
        var toolDrift := row.tool != tool;
        var argDrift := row.args != args;
        if toolDrift || argDrift { return RefuseLaunch; }
        if row.state == Confirmed { return Replay(row.result); }
      } else {
        RecordEffectPrepared(id, tool, args);
      }
      MarkEffectStarted(id);
      return Proceed;
    }

    /** Rivals ask for a claimed effect in turn: nothing changes unless one of them comes after the lease. */
    method Contest(id: EffectId, rivals: seq<Rival>)
      requires id in rows && rows[id].state.Reconciling? && rows[id].lease.Some?
      modifies this
      ensures OnlyAt(old(rows), rows, id) && id in rows && rows[id].state.Reconciling?
      ensures rows[id].BoundTo(old(rows)[id].tool, old(rows)[id].args) && rows[id].result == old(rows)[id].result
      ensures if Overtake(rivals, old(rows)[id].lease.value) then AmongRivals(rivals, rows[id].claim)
              else rows == old(rows)
    {
      ghost var first := rows[id].lease.value;
      for i := 0 to |rivals|
        invariant OnlyAt(old(rows), rows, id) && id in rows && rows[id].state.Reconciling? && rows[id].lease.Some?
        invariant rows[id].BoundTo(old(rows)[id].tool, old(rows)[id].args) && rows[id].result == old(rows)[id].result
        invariant if Overtake(rivals[..i], first) then AmongRivals(rivals[..i], rows[id].claim) else rows == old(rows)
      {
        var taken := ClaimEffect(id, rivals[i].claim, rivals[i].at);
        OneMoreRival(rivals, i, first, rows[id].claim);
      }
      assert rivals[..|rivals|] == rivals;
    }

    /**
      `reconcile_effect`: `claimed`, `renewed` and `settled` are the store clock at the three store calls, and rivals
      ask for the same effect between them, `early` before the renewal and `late` while the reconcile function runs.
      None is a refusal before anything ran; otherwise the state the row is left in. A claim lost to a rival costs
      nothing of the rival's: the outcome is not written, and before the renewal the reconcile function is not run.
    */
    method ReconcileEffect(id: EffectId, task: string, hasReconcile: bool, claim: string, early: seq<Rival>,
                           late: seq<Rival>, claimed: int, renewed: int, settled: int, outcome: Reconciliation)
      returns (state: Option<State>)
      requires !AmongRivals(early + late, Some(claim))
      modifies this
      ensures OnlyAt(old(rows), rows, id)
      ensures state.Some? <==> id in old(rows) && id.task == task && hasReconcile && old(rows)[id].Claimable(claimed)
      ensures state.None? ==> rows == old(rows)
      ensures state.Some? ==>
                id in rows && rows[id].state == state.value && rows[id].BoundTo(old(rows)[id].tool, old(rows)[id].args)
      ensures var lost := Overtake(early, claimed + LEASE_SECONDS) || Overtake(late, renewed + LEASE_SECONDS);
              && (state.Some? && lost ==>
                    && state.value.Reconciling? && AmongRivals(early + late, rows[id].claim)
                    && rows[id].result == old(rows)[id].result)
              && (state.Some? && !lost && outcome.ReconcilerFailed? ==> state.value.Unknown? && rows[id].claim.None?)
              && (state.Some? && !lost && !outcome.ReconcilerFailed? ==>
                    state.value == (if settled >= renewed + LEASE_SECONDS then Reconciling
                                    else if outcome.Landed? then Confirmed else Reconciled))
      ensures state == Some(Confirmed) ==> outcome.Landed? && rows[id].result == outcome.result
    {
      if id !in rows || id.task != task || !hasReconcile { return None; }
      var mine := ClaimEffect(id, claim, claimed);
      if !mine { return None; }
      EitherRivals(early, late);
      Contest(id, early);
      mine := RenewEffectClaim(id, claim, renewed);
      if !mine { return Some(rows[id].state); }
      Contest(id, late);
      match outcome {
        case ReconcilerFailed =>
          ReleaseEffectClaim(id, claim);
        case Landed(result) =>
          mine := SettleEffectFromClaim(id, claim, Confirmed, result, settled);
        case NotLanded =>
          mine := SettleEffectFromClaim(id, claim, Reconciled, None, settled);
      }
      return Some(rows[id].state);
    }
  }

  lemma OneMoreRival(rivals: seq<Rival>, i: nat, lease: int, claim: Option<string>)
    requires i < |rivals|
    ensures Overtake(rivals[..i + 1], lease) <==> Overtake(rivals[..i], lease) || rivals[i].at >= lease
    ensures AmongRivals(rivals[..i + 1], claim) <==> AmongRivals(rivals[..i], claim) || claim == Some(rivals[i].claim)
  {
    assert rivals[..i + 1] == rivals[..i] + [rivals[i]];
    assert (rivals[..i] + [rivals[i]])[i] == rivals[i];
  }

  lemma EitherRivals(early: seq<Rival>, late: seq<Rival>)
    ensures forall claim :: AmongRivals(early + late, claim) <==> AmongRivals(early, claim) || AmongRivals(late, claim)
  {
    forall claim ensures AmongRivals(early + late, claim) <==> AmongRivals(early, claim) || AmongRivals(late, claim) {
      if AmongRivals(early, claim) {
        var i :| 0 <= i < |early| && claim == Some(early[i].claim);
        assert (early + late)[i] == early[i];
      }
      if AmongRivals(late, claim) {
        var i :| 0 <= i < |late| && claim == Some(late[i].claim);
        assert (early + late)[|early| + i] == late[i];
      }
    }
  }
}
