/**
 Runs of the management service: any interleaving of its transactions, under a
 clock that never goes back.  Calls to the control plane happen between
 transactions, so their answers are arbitrary parameters of the later ones, and
 a request that dies between two transactions simply never takes the second.
 */
module ManagementRuns {
  import opened Common
  import opened ManagementTables
  import opened ManagementTransactions
  import opened ManagementInvariants

  datatype Op =
    | DoReserve(enroll: EnrollRequest, digest: Id, actor: Actor, idempotency: Option<string>, id: Id, requested: Time)
    | DoCompleteKey(id: Id, keyId: Id, key: Id)
    | DoFailKey(id: Id, unknown: bool)
    | DoConfirm(id: Id, nodes: seq<Node>)
    | DoRevokeEnrollment(id: Id, actor: Actor)
    | DoRegister(resource: Id, register: RegisterRequest, actor: Actor, version: Id)
    | DoRenewResource(resource: Id, generation: Id, actor: Actor)
    | DoTargets(gatewayId: Id, actor: Actor, minted: map<Id, Id>)
    | DoProbeMembership(resource: Id, probe: ProbeRequest, nodes: seq<Node>)
    | DoProbe(resource: Id, probe: ProbeRequest, actor: Actor)
    | DoRevokeEndpoint(resource: Id, actor: Actor)
    | DoIssue(issue: IssueRequest, actor: Actor, id: Id)
    | DoClaim(ticket: Ticket, verified: bool, requestId: Id, actor: Actor, id: Id)
    | DoRenew(id: Id, actor: Actor)
    | DoRelease(id: Id, actor: Actor)
    | DoRevokeGrant(id: Id, actor: Actor)
    | DoSweep(enrollmentOrder: seq<Id>, endpointOrder: seq<Id>, listed: Option<seq<Node>>, started: Time)
    | DoFinishCleanup(id: Id, success: bool, started: Time, jitter: Time)

  /** The tables after one transaction at time `now`. */
  ghost function Step(cfg: Settings, t: Tables, op: Op, now: Time): (u: Tables)
  {
    match op
    case DoReserve(q, d, a, k, id, requested) => Reserve(cfg, t, q, d, a, k, id, requested, now).tables
    case DoCompleteKey(id, keyId, key) => CompleteKey(t, id, keyId, key, now).tables
    case DoFailKey(id, unknown) => FailKey(t, id, unknown).tables
    case DoConfirm(id, nodes) => Confirm(t, id, nodes, now).tables
    case DoRevokeEnrollment(id, a) => RevokeEnrollment(t, id, a, now).tables
    case DoRegister(r, q, a, v) => Register(cfg, t, r, q, a, v, now).tables
    case DoRenewResource(r, g, a) => RenewResource(cfg, t, r, g, a, now).tables
    case DoTargets(g, a, minted) =>
      if t.endpoints.Keys <= minted.Keys then Targets(cfg, t, g, a, minted, now).tables else t
    case DoProbeMembership(r, q, nodes) => ProbeMembership(t, r, q, nodes, now).tables
    case DoProbe(r, q, a) => Probe(cfg, t, r, q, a, now).tables
    case DoRevokeEndpoint(r, a) => RevokeEndpoint(t, r, a, now).tables
    case DoIssue(q, a, id) => Issue(cfg, t, q, a, id, now).tables
    case DoClaim(ticket, verified, requestId, a, id) => Claim(cfg, t, ticket, verified, requestId, a, id, now).tables
    case DoRenew(id, a) => Renew(cfg, t, id, a, now).tables
    case DoRelease(id, a) => ReleaseSession(cfg, t, id, a).tables
    case DoRevokeGrant(id, a) => RevokeGrant(t, id, a).tables
    case DoSweep(eo, po, listed, started) =>
      if Lists(eo, t.enrollments.Keys) && Lists(po, t.endpoints.Keys)
      then Sweep(cfg, t, eo, po, listed, started, now) else t
    case DoFinishCleanup(id, success, started, jitter) => FinishCleanup(cfg, t, id, success, started, jitter)
  }

  datatype Event = Event(op: Op, at: Time)

  /** The clock never goes back along the run. */
  predicate Timed(clock: Time, run: seq<Event>)
    decreases |run|
  {
    run == [] || (clock <= run[0].at && Timed(run[0].at, run[1..]))
  }

  function End(clock: Time, run: seq<Event>): (r: Time)
    decreases |run|
  {
    if run == [] then clock else End(run[0].at, run[1..])
  }

  ghost function Exec(cfg: Settings, t: Tables, run: seq<Event>): (u: Tables)
    decreases |run|
  {
    if run == [] then t else Exec(cfg, Step(cfg, t, run[0].op, run[0].at), run[1..])
  }

  // ---------------------------------------------------------------- induction

  /** What holds of the service between transactions. */
  ghost predicate Sound(cfg: Settings, t: Tables, clock: Time)
  {
    Invariant(t) && LeasesBounded(cfg, t.sessions, clock)
  }

  lemma StepKeepsEnrollments(cfg: Settings, t: Tables, op: Op, now: Time)
    requires Invariant(t)
    requires op.DoReserve? || op.DoCompleteKey? || op.DoFailKey? || op.DoConfirm? || op.DoRevokeEnrollment?
    ensures Keeps(t, Step(cfg, t, op, now), now)
  {
    match op {
      case DoReserve(q, d, a, k, id, requested) => ReserveKeeps(cfg, t, q, d, a, k, id, requested, now);
      case DoCompleteKey(id, keyId, key) => CompleteKeyKeeps(t, id, keyId, key, now);
      case DoFailKey(id, unknown) => FailKeyKeeps(t, id, unknown, now);
      case DoConfirm(id, nodes) => ConfirmKeeps(t, id, nodes, now);
      case DoRevokeEnrollment(id, a) => RevokeEnrollmentKeeps(t, id, a, now);
    }
  }

  lemma StepKeepsEndpoints(cfg: Settings, t: Tables, op: Op, now: Time)
    requires Invariant(t)
    requires op.DoRegister? || op.DoRenewResource? || op.DoTargets? || op.DoProbeMembership? || op.DoProbe?
             || op.DoRevokeEndpoint?
    ensures Keeps(t, Step(cfg, t, op, now), now)
  {
    match op {
      case DoRegister(r, q, a, v) => RegisterKeeps(cfg, t, r, q, a, v, now);
      case DoRenewResource(r, g, a) => RenewResourceKeeps(cfg, t, r, g, a, now);
      case DoTargets(g, a, minted) =>
        if t.endpoints.Keys <= minted.Keys {
          TargetsKeeps(cfg, t, g, a, minted, now);
        } else {
          KeepsEither(t, t, t, now);
        }
      case DoProbeMembership(r, q, nodes) => ProbeMembershipKeeps(t, r, q, nodes, now);
      case DoProbe(r, q, a) => ProbeKeeps(cfg, t, r, q, a, now);
      case DoRevokeEndpoint(r, a) => RevokeEndpointKeeps(t, r, a, now);
    }
  }

  lemma StepKeepsSessions(cfg: Settings, t: Tables, op: Op, now: Time)
    requires Sound(cfg, t, now)
    requires op.DoIssue? || op.DoClaim? || op.DoRenew? || op.DoRelease? || op.DoRevokeGrant?
    ensures Keeps(t, Step(cfg, t, op, now), now)
  {
    match op {
      case DoIssue(q, a, id) => IssueKeeps(cfg, t, q, a, id, now);
      case DoClaim(ticket, verified, requestId, a, id) => ClaimKeeps(cfg, t, ticket, verified, requestId, a, id, now);
      case DoRenew(id, a) => RenewKeeps(cfg, t, id, a, now);
      case DoRelease(id, a) => ReleaseKeeps(cfg, t, id, a, now);
      case DoRevokeGrant(id, a) => RevokeGrantKeeps(t, id, a, now);
    }
  }

  lemma StepKeepsReconciliation(cfg: Settings, t: Tables, op: Op, now: Time)
    requires Invariant(t)
    requires op.DoSweep? || op.DoFinishCleanup?
    ensures Keeps(t, Step(cfg, t, op, now), now)
  {
    match op {
      case DoSweep(eo, po, listed, started) =>
        if Lists(eo, t.enrollments.Keys) && Lists(po, t.endpoints.Keys) {
          SweepKeeps(cfg, t, eo, po, listed, started, now);
        } else {
          LaterReflexive(t, now);
        }
      case DoFinishCleanup(id, success, started, jitter) => FinishCleanupKeeps(cfg, t, id, success, started, jitter, now);
    }
  }

  /** Every transaction keeps the invariant and moves the tables forward. */
  lemma StepKeeps(cfg: Settings, t: Tables, op: Op, now: Time)
    requires Sound(cfg, t, now)
    ensures Keeps(t, Step(cfg, t, op, now), now)
  {
    if op.DoReserve? || op.DoCompleteKey? || op.DoFailKey? || op.DoConfirm? || op.DoRevokeEnrollment? {
      StepKeepsEnrollments(cfg, t, op, now);
    } else if op.DoRegister? || op.DoRenewResource? || op.DoTargets? || op.DoProbeMembership? || op.DoProbe?
              || op.DoRevokeEndpoint? {
      StepKeepsEndpoints(cfg, t, op, now);
    } else if op.DoSweep? || op.DoFinishCleanup? {
      StepKeepsReconciliation(cfg, t, op, now);
    } else {
      StepKeepsSessions(cfg, t, op, now);
    }
  }

  lemma EnrollmentStepsKeepLeases(cfg: Settings, t: Tables, op: Op, now: Time)
    requires op.DoReserve? || op.DoCompleteKey? || op.DoFailKey? || op.DoConfirm? || op.DoRevokeEnrollment?
             || op.DoSweep? || op.DoFinishCleanup?
    ensures forall s :: s in Step(cfg, t, op, now).sessions ==>
              s in t.sessions && Step(cfg, t, op, now).sessions[s].leaseExpires == t.sessions[s].leaseExpires
  {
  }

  lemma OtherStepsKeepLeases(cfg: Settings, t: Tables, op: Op, now: Time)
    requires op.DoRegister? || op.DoRenewResource? || op.DoTargets? || op.DoProbeMembership? || op.DoProbe?
             || op.DoRevokeEndpoint? || op.DoIssue? || op.DoRelease? || op.DoRevokeGrant?
    ensures forall s :: s in Step(cfg, t, op, now).sessions ==>
              s in t.sessions && Step(cfg, t, op, now).sessions[s].leaseExpires == t.sessions[s].leaseExpires
  {
  }

  /** Only claim and renewal write leases, and neither writes one further than
      one session lease ahead. */
  lemma StepLeases(cfg: Settings, t: Tables, op: Op, now: Time)
    requires LeasesBounded(cfg, t.sessions, now)
    ensures LeasesBounded(cfg, Step(cfg, t, op, now).sessions, now)
  {
    match op
    case DoClaim(_, _, _, _, _) =>
    case DoRenew(_, _) =>
    case DoRegister(_, _, _, _) => OtherStepsKeepLeases(cfg, t, op, now);
    case DoRenewResource(_, _, _) => OtherStepsKeepLeases(cfg, t, op, now);
    case DoTargets(_, _, _) => OtherStepsKeepLeases(cfg, t, op, now);
    case DoProbeMembership(_, _, _) => OtherStepsKeepLeases(cfg, t, op, now);
    case DoProbe(_, _, _) => OtherStepsKeepLeases(cfg, t, op, now);
    case DoRevokeEndpoint(_, _) => OtherStepsKeepLeases(cfg, t, op, now);
    case DoIssue(_, _, _) => OtherStepsKeepLeases(cfg, t, op, now);
    case DoRelease(_, _) => OtherStepsKeepLeases(cfg, t, op, now);
    case DoRevokeGrant(_, _) => OtherStepsKeepLeases(cfg, t, op, now);
    case _ => EnrollmentStepsKeepLeases(cfg, t, op, now);
  }

  lemma LaterEarlier(t: Tables, u: Tables, clock: Time, now: Time)
    requires Later(t, u, now) && clock <= now
    ensures Later(t, u, clock)
  {
  }

  /** Every run keeps the service sound and only moves it forward. */
  lemma {:induction false} RunKeeps(cfg: Settings, t: Tables, clock: Time, run: seq<Event>)
    requires Sound(cfg, t, clock) && Timed(clock, run)
    ensures Sound(cfg, Exec(cfg, t, run), End(clock, run))
    ensures Later(t, Exec(cfg, t, run), clock) && clock <= End(clock, run)
    decreases |run|
  {
    if run == [] {
      LaterReflexive(t, clock);
    } else {
      var at := run[0].at;
      var u := Step(cfg, t, run[0].op, at);
      assert LeasesBounded(cfg, t.sessions, at);
      StepKeeps(cfg, t, run[0].op, at);
      StepLeases(cfg, t, run[0].op, at);
      RunKeeps(cfg, u, at, run[1..]);
      LaterTransitive(t, u, Exec(cfg, t, run), at, at);
      LaterEarlier(t, Exec(cfg, t, run), clock, at);
    }
  }
}
