/**
  The authority of a run: grants, budget and expiry, how a host policy cuts an incoming permit down, how a resumed
  migration is capped, and how a policy reloaded mid-run narrows what is left.
*/
module Authority {
  import opened Options
  import opened Json
  import opened Constraints

  /** `projection` None has no opinion; an empty list shares nothing; "*" shares every field. */
  datatype Grant = Grant(constraints: ConstraintSet, projection: Option<seq<string>>)

  type Grants = map<string, Grant>

  datatype Budget = Budget(maxSteps: int, maxToolCalls: int, maxOutputBytes: int)

  datatype Permit = Permit(grants: Grants, budget: Budget, expiresAt: int)

  datatype Policy = Policy(
    version: string, audience: string, grants: Grants, budget: Budget,
    impacts: map<string, string>, implicitImpacts: set<string>, approvalImpacts: set<string>,
    migrationAllowed: bool, destinations: set<string>)

  /** What an envelope brings: its permit, whom it is for, and the tools its manifest asks for. */
  datatype Envelope = Envelope(permit: Permit, audience: string, requested: set<string>, delegation: bool)

  // ----- narrowing -------------------------------------------------------------------------------------------

  function Kept(left: seq<string>, right: seq<string>): seq<string>
  {
    if left == [] then [] else (if left[0] in right then [left[0]] else []) + Kept(left[1..], right)
  }

  function IntersectProjections(left: Option<seq<string>>, right: Option<seq<string>>): Option<seq<string>>
  {
    if left.None? then right
    else if right.None? then left
    else if left.value == [] || right.value == [] then Some([])
    else if "*" in left.value then right
    else if "*" in right.value then left
    else Some(Kept(left.value, right.value))
  }

  /** `intersect_grants`: a name both sides hold survives unless its constraints cannot be combined. */
  function IntersectGrants(a: Grants, b: Grants): Grants
  {
    map name | name in a.Keys * b.Keys && Intersect(a[name].constraints, b[name].constraints).Some? ::
      Grant(Intersect(a[name].constraints, b[name].constraints).value,
            IntersectProjections(a[name].projection, b[name].projection))
  }

  function Min(a: int, b: int): int { if a <= b then a else b }

  function IntersectBudgets(a: Budget, b: Budget): Budget
  {
    Budget(Min(a.maxSteps, b.maxSteps), Min(a.maxToolCalls, b.maxToolCalls), Min(a.maxOutputBytes, b.maxOutputBytes))
  }

  /** `_narrow_permit`, and the authority half of `_cap_to_ceiling`. */
  function Narrow(a: Permit, b: Permit): Permit
  {
    Permit(IntersectGrants(a.grants, b.grants), IntersectBudgets(a.budget, b.budget), Min(a.expiresAt, b.expiresAt))
  }

  /** A policy that omits a projection shares nothing, and a policy grant that names no argument admits none. */
  function PolicyGrants(policy: Policy): Grants
  {
    map name | name in policy.grants ::
      var grant := policy.grants[name];
      Grant(if grant.constraints.additional.None? && Names(grant.constraints) == {}
              then grant.constraints.(additional := Some(false)) else grant.constraints,
            if grant.projection.None? then Some([]) else grant.projection)
  }

  /** `effective_permit`; None is a refusal: another host's permit, or an expired one. */
  function Effective(policy: Policy, envelope: Envelope, now: int): Option<Permit>
  {
    if envelope.audience != policy.audience || envelope.permit.expiresAt <= now then None
    else Some(Cut(policy, envelope))
  }

  function Cut(policy: Policy, envelope: Envelope): Permit
  {
    var grants := IntersectGrants(envelope.permit.grants, PolicyGrants(policy));
    Permit(map name | name in grants && name in envelope.requested :: grants[name],
           IntersectBudgets(envelope.permit.budget, policy.budget), envelope.permit.expiresAt)
  }

  // ----- the policy a run answers to -------------------------------------------------------------------------

  /** The policy of admission, under every policy adopted since. */
  datatype Active = Admitted(policy: Policy) | Reloaded(previous: Active, latest: Policy)

  function Latest(active: Active): Policy { if active.Admitted? then active.policy else active.latest }

  /** Every policy the run has been under, oldest first. */
  function Policies(active: Active): seq<Policy>
  {
    if active.Admitted? then [active.policy] else Policies(active.previous) + [active.latest]
  }

  function ImpactFor(policy: Policy, tool: string, sideEffecting: bool): string
  {
    if sideEffecting && tool in policy.implicitImpacts then "high"
    else if tool in policy.impacts then policy.impacts[tool] else "low"
  }

  predicate PolicyRequiresApproval(policy: Policy, tool: string, sideEffecting: bool)
  {
    ImpactFor(policy, tool, sideEffecting) in policy.approvalImpacts
  }

  predicate RequiresApproval(active: Active, tool: string, sideEffecting: bool)
  {
    match active
    case Admitted(policy) => PolicyRequiresApproval(policy, tool, sideEffecting)
    case Reloaded(previous, latest) =>
      RequiresApproval(previous, tool, sideEffecting) || PolicyRequiresApproval(latest, tool, sideEffecting)
  }

  predicate PolicyAuthorizesMigration(policy: Policy, delegation: bool, destination: string)
  {
    delegation && policy.migrationAllowed && destination in policy.destinations
  }

  predicate AuthorizesMigration(active: Active, delegation: bool, destination: string)
  {
    match active
    case Admitted(policy) => PolicyAuthorizesMigration(policy, delegation, destination)
    case Reloaded(previous, latest) =>
      AuthorizesMigration(previous, delegation, destination)
      && PolicyAuthorizesMigration(latest, delegation, destination)
  }

  // ----- what narrowing means --------------------------------------------------------------------------------

  predicate Shares(projection: seq<string>, field: string) { "*" in projection || field in projection }

  ghost predicate ProjectionBelow(p: Option<seq<string>>, q: Option<seq<string>>)
  {
    q.Some? ==> p.Some? && forall field :: Shares(p.value, field) ==> Shares(q.value, field)
  }

  /** Every call one set admits, the other admits. */
  ghost predicate ConstraintsBelow(a: ConstraintSet, b: ConstraintSet)
  {
    forall args, lib :: Admits(a, args, lib) ==> Admits(b, args, lib)
  }

  ghost predicate GrantBelow(a: Grant, b: Grant)
  {
    ConstraintsBelow(a.constraints, b.constraints) && ProjectionBelow(a.projection, b.projection)
  }

  ghost predicate GrantsBelow(a: Grants, b: Grants)
  {
    forall name :: name in a ==> name in b && GrantBelow(a[name], b[name])
  }

  predicate BudgetBelow(a: Budget, b: Budget)
  {
    a.maxSteps <= b.maxSteps && a.maxToolCalls <= b.maxToolCalls && a.maxOutputBytes <= b.maxOutputBytes
  }

  /** No more authority: fewer tools, fewer calls of each, less shared, a smaller budget, no later expiry. */
  ghost predicate Below(a: Permit, b: Permit)
  {
    GrantsBelow(a.grants, b.grants) && BudgetBelow(a.budget, b.budget) && a.expiresAt <= b.expiresAt
  }

  lemma BelowTransitive(a: Permit, b: Permit, c: Permit)
    requires Below(a, b) && Below(b, c)
    ensures Below(a, c)
  {
    forall name | name in a.grants ensures name in c.grants && GrantBelow(a.grants[name], c.grants[name]) {
      GrantBelowTransitive(a.grants[name], b.grants[name], c.grants[name]);
    }
  }

  lemma GrantBelowTransitive(a: Grant, b: Grant, c: Grant)
    requires GrantBelow(a, b) && GrantBelow(b, c)
    ensures GrantBelow(a, c)
  {
  }

  lemma BelowReflexive(a: Permit)
    ensures Below(a, a)
  {
  }

  lemma {:induction false} KeptExact(left: seq<string>, right: seq<string>, field: string)
    ensures field in Kept(left, right) <==> field in left && field in right
  {
    if left != [] {
      KeptExact(left[1..], right, field);
      assert left == [left[0]] + left[1..];
    }
  }

  /** Two projections with an opinion share exactly what both share. */
  lemma ProjectionsExact(left: seq<string>, right: seq<string>, field: string)
    ensures IntersectProjections(Some(left), Some(right)).Some?
    ensures Shares(IntersectProjections(Some(left), Some(right)).value, field) <==>
              Shares(left, field) && Shares(right, field)
  {
    KeptExact(left, right, field);
    KeptExact(left, right, "*");
  }

  lemma ProjectionsNarrow(left: Option<seq<string>>, right: Option<seq<string>>)
    ensures ProjectionBelow(IntersectProjections(left, right), left)
    ensures ProjectionBelow(IntersectProjections(left, right), right)
  {
    if left.Some? && right.Some? {
      forall field
        ensures Shares(IntersectProjections(left, right).value, field) <==>
                  Shares(left.value, field) && Shares(right.value, field)
      {
        ProjectionsExact(left.value, right.value, field);
      }
    }
  }

  lemma ConstraintsNarrow(a: ConstraintSet, b: ConstraintSet)
    requires Intersect(a, b).Some?
    ensures ConstraintsBelow(Intersect(a, b).value, a) && ConstraintsBelow(Intersect(a, b).value, b)
  {
    forall args, lib | Admits(Intersect(a, b).value, args, lib) ensures Admits(a, args, lib) && Admits(b, args, lib) {
      IntersectNarrows(a, b, args, lib);
    }
  }

  lemma GrantsNarrow(a: Grants, b: Grants)
    ensures GrantsBelow(IntersectGrants(a, b), a) && GrantsBelow(IntersectGrants(a, b), b)
  {
    forall name | name in IntersectGrants(a, b)
      ensures name in a && GrantBelow(IntersectGrants(a, b)[name], a[name])
      ensures name in b && GrantBelow(IntersectGrants(a, b)[name], b[name])
    {
      ConstraintsNarrow(a[name].constraints, b[name].constraints);
      ProjectionsNarrow(a[name].projection, b[name].projection);
    }
  }

  /** Narrowing is below both of its inputs. */
  lemma NarrowBelow(a: Permit, b: Permit)
    ensures Below(Narrow(a, b), a) && Below(Narrow(a, b), b)
  {
    GrantsNarrow(a.grants, b.grants);
  }

  /** The ceiling a policy sets by itself: no expiry of its own. */
  ghost predicate WithinPolicy(p: Permit, policy: Policy)
  {
    GrantsBelow(p.grants, PolicyGrants(policy)) && BudgetBelow(p.budget, policy.budget)
  }

  /** What a policy leaves of a permit is within the policy, below the permit, and only what was asked for. */
  lemma CutBelow(policy: Policy, envelope: Envelope)
    ensures Below(Cut(policy, envelope), envelope.permit)
    ensures WithinPolicy(Cut(policy, envelope), policy)
    ensures Cut(policy, envelope).grants.Keys <= envelope.requested
  {
    GrantsNarrow(envelope.permit.grants, PolicyGrants(policy));
  }

  lemma WithinMonotone(a: Permit, b: Permit, policy: Policy)
    requires Below(a, b) && WithinPolicy(b, policy)
    ensures WithinPolicy(a, policy)
  {
    forall name | name in a.grants
      ensures name in PolicyGrants(policy) && GrantBelow(a.grants[name], PolicyGrants(policy)[name])
    {
      GrantBelowTransitive(a.grants[name], b.grants[name], PolicyGrants(policy)[name]);
    }
  }

  ghost predicate SomeRequires(policies: seq<Policy>, tool: string, sideEffecting: bool)
  {
    exists i :: 0 <= i < |policies| && PolicyRequiresApproval(policies[i], tool, sideEffecting)
  }

  lemma SomeRequiresSnoc(policies: seq<Policy>, policy: Policy, tool: string, sideEffecting: bool)
    ensures SomeRequires(policies + [policy], tool, sideEffecting) <==>
              SomeRequires(policies, tool, sideEffecting) || PolicyRequiresApproval(policy, tool, sideEffecting)
  {
    var all := policies + [policy];
    assert all[|policies|] == policy;
    if SomeRequires(policies, tool, sideEffecting) {
      var i :| 0 <= i < |policies| && PolicyRequiresApproval(policies[i], tool, sideEffecting);
      assert all[i] == policies[i];
    }
  }

  /** A tool needs approval exactly when some policy the run has been under asks for it. */
  lemma {:induction false} ApprovalIsSticky(active: Active, tool: string, sideEffecting: bool)
    ensures RequiresApproval(active, tool, sideEffecting) <==> SomeRequires(Policies(active), tool, sideEffecting)
  {
    if active.Reloaded? {
      ApprovalIsSticky(active.previous, tool, sideEffecting);
      SomeRequiresSnoc(Policies(active.previous), active.latest, tool, sideEffecting);
    } else {
      assert Policies(active)[0] == active.policy;
    }
  }

  ghost predicate AllAuthorize(policies: seq<Policy>, delegation: bool, destination: string)
  {
    forall i :: 0 <= i < |policies| ==> PolicyAuthorizesMigration(policies[i], delegation, destination)
  }

  lemma AllAuthorizeSnoc(policies: seq<Policy>, policy: Policy, delegation: bool, destination: string)
    ensures AllAuthorize(policies + [policy], delegation, destination) <==>
              AllAuthorize(policies, delegation, destination)
              && PolicyAuthorizesMigration(policy, delegation, destination)
  {
    var all := policies + [policy];
    assert all[|policies|] == policy;
    if AllAuthorize(all, delegation, destination) {
      forall i | 0 <= i < |policies| ensures PolicyAuthorizesMigration(policies[i], delegation, destination) {
        assert all[i] == policies[i];
      }
    }
  }

  /** A migration is authorized exactly when every policy the run has been under authorizes it. */
  lemma {:induction false} MigrationNeedsAll(active: Active, delegation: bool, destination: string)
    ensures AuthorizesMigration(active, delegation, destination) <==>
              AllAuthorize(Policies(active), delegation, destination)
  {
    if active.Reloaded? {
      MigrationNeedsAll(active.previous, delegation, destination);
      AllAuthorizeSnoc(Policies(active.previous), active.latest, delegation, destination);
    } else {
      assert Policies(active)[0] == active.policy;
    }
  }
}
