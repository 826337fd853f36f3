/**
 What the management service promises, over every run from the empty database.
 */
module ManagementTheorems {
  import opened Common
  import opened ManagementTables
  import opened ManagementTransactions
  import opened ManagementInvariants
  import opened ManagementRuns

  /** The tables after a run from the empty database. */
  ghost function After(cfg: Settings, run: seq<Event>): (u: Tables)
  {
    Exec(cfg, EMPTY, run)
  }

  lemma {:induction false} ExecSplit(cfg: Settings, t: Tables, before: seq<Event>, after: seq<Event>)
    ensures Exec(cfg, t, before + after) == Exec(cfg, Exec(cfg, t, before), after)
    decreases |before|
  {
    if before == [] {
      assert before + after == after;
    } else {
      assert (before + after)[1..] == before[1..] + after;
      ExecSplit(cfg, Step(cfg, t, before[0].op, before[0].at), before[1..], after);
    }
  }

  lemma {:induction false} TimedSplit(clock: Time, before: seq<Event>, after: seq<Event>)
    requires Timed(clock, before + after)
    ensures Timed(clock, before) && Timed(End(clock, before), after)
    ensures End(clock, before + after) == End(End(clock, before), after)
    decreases |before|
  {
    if before == [] {
      assert before + after == after;
    } else {
      assert (before + after)[1..] == before[1..] + after;
      TimedSplit(before[0].at, before[1..], after);
    }
  }

  /** The invariant holds at every point of every run, and what follows a point
      only moves the tables forward from it. */
  lemma Reachable(cfg: Settings, clock: Time, before: seq<Event>, after: seq<Event>)
    requires Timed(clock, before + after)
    ensures Timed(clock, before)
    ensures Sound(cfg, After(cfg, before), End(clock, before))
    ensures Sound(cfg, After(cfg, before + after), End(clock, before + after))
    ensures Later(After(cfg, before), After(cfg, before + after), End(clock, before))
    ensures clock <= End(clock, before) <= End(clock, before + after)
  {
    TimedSplit(clock, before, after);
    ExecSplit(cfg, EMPTY, before, after);
    RunKeeps(cfg, EMPTY, clock, before);
    RunKeeps(cfg, After(cfg, before), End(clock, before), after);
  }

  // ----------------------------------------------------------------- enrollments

  /** In every reachable state each role and identity has at most one live
      enrollment, and it is the newest ever reserved. */
  lemma OneLiveEnrollment(cfg: Settings, clock: Time, run: seq<Event>, i: Id, j: Id)
    requires Timed(clock, run)
    requires i in After(cfg, run).enrollments && j in After(cfg, run).enrollments
    requires SameSlot(After(cfg, run).enrollments[i], After(cfg, run).enrollments[j])
    requires Live(After(cfg, run).enrollments[i].state)
    ensures !Superseded(After(cfg, run), i)
    ensures Live(After(cfg, run).enrollments[j].state) ==> j == i
  {
    RunKeeps(cfg, EMPTY, clock, run);
  }

  /** An enrollment that was revoked, expired or failed is never live again. */
  lemma DeadForever(cfg: Settings, clock: Time, before: seq<Event>, after: seq<Event>, id: Id)
    requires Timed(clock, before + after)
    requires id in After(cfg, before).enrollments && Dead(After(cfg, before).enrollments[id].state)
    ensures id in After(cfg, before + after).enrollments && Dead(After(cfg, before + after).enrollments[id].state)
  {
    Reachable(cfg, clock, before, after);
  }

  /** A key handed out by a replay belongs to an enrollment that is live and the
      newest of its slot, and is the key stored for it. */
  lemma ReplayOnlyForNewest(cfg: Settings, t: Tables, request: EnrollRequest, digest: Id, actor: Actor,
                            idempotency: Option<string>, id: Id, requested: Time, now: Time)
    requires Invariant(t)
    requires var out := Reserve(cfg, t, request, digest, actor, idempotency, id, requested, now).outcome;
             out.Ok? && out.value.IssuedKey?
    ensures var reply := Reserve(cfg, t, request, digest, actor, idempotency, id, requested, now).outcome.value;
            && reply.enrollmentId in t.enrollments
            && t.enrollments[reply.enrollmentId].state == KeyIssued
            && !Superseded(t, reply.enrollmentId)
            && now < t.enrollments[reply.enrollmentId].expires
            && t.enrollments[reply.enrollmentId].ciphertext == Some(reply.key)
  {
  }

  /** A freshly created key is handed out only if its reservation is still
      pending, in time and the newest; otherwise the reservation is dead. */
  lemma CreatedKeyOnlyForNewest(t: Tables, id: Id, keyId: Id, key: Id, now: Time)
    requires Invariant(t) && id in t.enrollments
    ensures var tx := CompleteKey(t, id, keyId, key, now);
            && tx.tables.enrollments[id].keyId == Some(keyId)
            && (tx.outcome == Ok(IssuedKey(id, key)) <==>
                  t.enrollments[id].state == Pending && now < t.enrollments[id].expires)
            && (tx.outcome.Ok? ==> !Superseded(tx.tables, id) && tx.tables.enrollments[id].state == KeyIssued)
            && (!tx.outcome.Ok? ==> Dead(tx.tables.enrollments[id].state))
  {
    CompleteKeyKeeps(t, id, keyId, key, now);
  }

  // ------------------------------------------------------------ routing and fencing

  /** A session is routed only through a confirmed enrollment that is the newest
      ever reserved for its resource. */
  lemma RoutedThroughNewest(cfg: Settings, t: Tables, s: Id, now: Time)
    requires Invariant(t) && s in t.sessions && Route(cfg, t, s, now).Ok?
    ensures var p := t.endpoints[t.grants[t.sessions[s].grantId].resourceId];
            && p.enrollmentId in t.enrollments
            && t.enrollments[p.enrollmentId].state == Confirmed
            && t.enrollments[p.enrollmentId].role == EndpointRole
            && t.enrollments[p.enrollmentId].identity == t.grants[t.sessions[s].grantId].resourceId
            && !Superseded(t, p.enrollmentId)
            && Route(cfg, t, s, now).value.ips == t.enrollments[p.enrollmentId].ips
  {
    assert SessionBound(t.endpoints, t.grants, t.sessions[s]);
    var r := t.grants[t.sessions[s].grantId].resourceId;
    assert EndpointBound(t.enrollments, r, t.endpoints[r]);
  }

  /** While a session and its grant stand, its generation and version are the
      endpoint's: these two tests of `destination` never fail alone. */
  lemma VersionTestsRedundant(t: Tables, s: Id)
    requires Invariant(t) && s in t.sessions && t.sessions[s].grantId in t.grants
    requires t.sessions[s].state == Active && t.grants[t.sessions[s].grantId].state == Claimed
    ensures var g := t.grants[t.sessions[s].grantId];
            && g.resourceId in t.endpoints
            && !Withdrawn(t.endpoints[g.resourceId].state)
            && t.endpoints[g.resourceId].generation == g.generation
            && t.endpoints[g.resourceId].version == t.sessions[s].version
            && t.endpoints[g.resourceId].owner == g.user
  {
    assert SessionBound(t.endpoints, t.grants, t.sessions[s]);
    assert GrantBound(t.endpoints, t.sessions[s].grantId, t.grants[t.sessions[s].grantId]);
  }

  /** A withdrawn endpoint has no standing grant and no standing session, and a
      standing one has a confirmed enrollment of its own generation. */
  lemma CascadeComplete(t: Tables, r: Id)
    requires Invariant(t) && r in t.endpoints
    ensures Withdrawn(t.endpoints[r].state) ==>
              && (forall g :: g in t.grants && t.grants[g].resourceId == r ==> t.grants[g].state == GrantRevoked)
              && (forall s :: s in t.sessions && t.sessions[s].grantId in t.grants
                              && t.grants[t.sessions[s].grantId].resourceId == r ==>
                                t.sessions[s].state == SessionRevoked)
    ensures !Withdrawn(t.endpoints[r].state) ==>
              && t.endpoints[r].enrollmentId in t.enrollments
              && t.enrollments[t.endpoints[r].enrollmentId].state == Confirmed
              && t.enrollments[t.endpoints[r].enrollmentId].generation == t.endpoints[r].generation
              && !Superseded(t, t.endpoints[r].enrollmentId)
  {
    assert EndpointBound(t.enrollments, r, t.endpoints[r]);
    forall g | g in t.grants && t.grants[g].resourceId == r
      ensures Withdrawn(t.endpoints[r].state) ==> t.grants[g].state == GrantRevoked
    {
      assert GrantBound(t.endpoints, g, t.grants[g]);
    }
    forall s | s in t.sessions
      ensures SessionBound(t.endpoints, t.grants, t.sessions[s])
    {
    }
  }

  /** A session that can never be used again. */
  predicate Finished(t: Tables, s: Id, now: Time)
  {
    s in t.sessions && (t.sessions[s].state != Active || t.sessions[s].leaseExpires <= now)
  }

  /** Once finished, always finished, and every later use is refused. */
  lemma FinishedForever(cfg: Settings, clock: Time, before: seq<Event>, after: seq<Event>, s: Id, now: Time)
    requires Timed(clock, before + after) && End(clock, before + after) <= now
    requires Finished(After(cfg, before), s, End(clock, before))
    ensures Finished(After(cfg, before + after), s, now)
    ensures Route(cfg, After(cfg, before + after), s, now) == Raised(410)
    ensures Renew(cfg, After(cfg, before + after), s, Gateway, now).outcome.Raised?
  {
    Reachable(cfg, clock, before, after);
    var t, u := After(cfg, before), After(cfg, before + after);
    assert SessionMoves(t.sessions[s], u.sessions[s], End(clock, before));
    assert SessionBound(u.endpoints, u.grants, u.sessions[s]);
    assert GrantBound(u.endpoints, u.sessions[s].grantId, u.grants[u.sessions[s].grantId]);
  }

  /** When the enrollment an endpoint is bound to dies, its sessions end. */
  lemma DeadEnrollmentEndsSessions(t: Tables, s: Id)
    requires Invariant(t) && s in t.sessions && t.sessions[s].grantId in t.grants
    requires var r := t.grants[t.sessions[s].grantId].resourceId;
             r in t.endpoints && t.endpoints[r].enrollmentId in t.enrollments
             && Dead(t.enrollments[t.endpoints[r].enrollmentId].state)
    ensures t.sessions[s].state == SessionRevoked
  {
    var r := t.grants[t.sessions[s].grantId].resourceId;
    assert EndpointBound(t.enrollments, r, t.endpoints[r]);
    assert GrantBound(t.endpoints, t.sessions[s].grantId, t.grants[t.sessions[s].grantId]);
    assert SessionBound(t.endpoints, t.grants, t.sessions[s]);
  }

  /** A reservation leaves nothing live of the slot but itself, and rebinds no
      endpoint. */
  lemma ReservationKillsSlot(cfg: Settings, t: Tables, request: EnrollRequest, digest: Id, actor: Actor,
                             idempotency: Option<string>, id: Id, requested: Time, now: Time)
    requires Invariant(t)
    requires Reserve(cfg, t, request, digest, actor, idempotency, id, requested, now).outcome == Ok(Reserved(id))
    ensures var u := Reserve(cfg, t, request, digest, actor, idempotency, id, requested, now).tables;
            && (forall k :: k in Slot(t.enrollments, request.role, request.identity) ==>
                  k in u.enrollments && Dead(u.enrollments[k].state))
            && (forall r :: r in t.endpoints ==>
                  r in u.endpoints && u.endpoints[r].enrollmentId == t.endpoints[r].enrollmentId)
  {
    DisplacedSlotDead(t, request.role, request.identity, now);
  }

  /** A reservation ends every session of the resource the moment it commits,
      before any remote key exists. */
  lemma ReservationEndsSessions(t: Tables, u: Tables, r: Id, now: Time, s: Id)
    requires Invariant(t) && Keeps(t, u, now)
    requires forall k :: k in Slot(t.enrollments, EndpointRole, r) ==> k in u.enrollments && Dead(u.enrollments[k].state)
    requires forall q :: q in t.endpoints ==>
               q in u.endpoints && u.endpoints[q].enrollmentId == t.endpoints[q].enrollmentId
    requires s in t.sessions && t.sessions[s].grantId in t.grants
             && t.grants[t.sessions[s].grantId].resourceId == r
    ensures s in u.sessions && u.sessions[s].state == SessionRevoked
  {
    var g := t.sessions[s].grantId;
    assert SessionMoves(t.sessions[s], u.sessions[s], now);
    assert GrantMoves(t.grants[g], u.grants[g]);
    assert GrantBound(t.endpoints, g, t.grants[g]);
    assert EndpointBound(t.enrollments, r, t.endpoints[r]);
    assert t.endpoints[r].enrollmentId in Slot(t.enrollments, EndpointRole, r);
    DeadEnrollmentEndsSessions(u, s);
  }

  /** Committing the reservation of a newer generation denies every older
      session of that resource from then on. */
  lemma NewGenerationFencesSessions(cfg: Settings, clock: Time, before: seq<Event>, reserve: Event, after: seq<Event>,
                                    s: Id, now: Time)
    requires Timed(clock, before + ([reserve] + after)) && End(clock, before + ([reserve] + after)) <= now
    requires reserve.op.DoReserve? && reserve.op.enroll.role == EndpointRole
    requires var t := After(cfg, before);
             && Reserve(cfg, t, reserve.op.enroll, reserve.op.digest, reserve.op.actor, reserve.op.idempotency,
                        reserve.op.id, reserve.op.requested, reserve.at).outcome == Ok(Reserved(reserve.op.id))
             && s in t.sessions && t.sessions[s].grantId in t.grants
             && t.grants[t.sessions[s].grantId].resourceId == reserve.op.enroll.identity
    ensures s in After(cfg, before + ([reserve] + after)).sessions
    ensures Route(cfg, After(cfg, before + ([reserve] + after)), s, now) == Raised(410)
  {
    var upto := before + [reserve];
    assert before + ([reserve] + after) == upto + after;
    Reachable(cfg, clock, upto, after);
    Reachable(cfg, clock, before, [reserve]);
    ExecOne(cfg, before, reserve);
    var o := reserve.op;
    ReserveKeeps(cfg, After(cfg, before), o.enroll, o.digest, o.actor, o.idempotency, o.id, o.requested, reserve.at);
    ReservationKillsSlot(cfg, After(cfg, before), o.enroll, o.digest, o.actor, o.idempotency, o.id, o.requested, reserve.at);
    ReservationEndsSessions(After(cfg, before), After(cfg, upto), o.enroll.identity, reserve.at, s);
    FinishedForever(cfg, clock, upto, after, s, now);
  }

  // --------------------------------------------------------------------- tickets

  /** A successful claim names the session that holds the ticket for this very
      request, with the lease and deadline stored for it. */
  lemma ClaimBinds(cfg: Settings, t: Tables, ticket: Ticket, verified: bool, requestId: Id, actor: Actor, id: Id, now: Time)
    requires Invariant(t) && Claim(cfg, t, ticket, verified, requestId, actor, id, now).outcome.Ok?
    ensures var d := Claim(cfg, t, ticket, verified, requestId, actor, id, now).outcome.value;
            var u := Claim(cfg, t, ticket, verified, requestId, actor, id, now).tables;
            && d.sessionId in u.sessions
            && u.sessions[d.sessionId].grantId == ticket.jti
            && u.sessions[d.sessionId].requestId == requestId
            && d.leaseExpires == u.sessions[d.sessionId].leaseExpires
            && d.deadline == u.sessions[d.sessionId].deadline
  {
  }

  /** Two sessions that hold the same ticket, at an earlier and a later moment,
      are one session with one request. */
  lemma OneSessionPerTicket(t: Tables, u: Tables, now: Time, a: Id, b: Id)
    requires Later(t, u, now) && Invariant(u)
    requires a in t.sessions && b in u.sessions && t.sessions[a].grantId == u.sessions[b].grantId
    ensures a == b && t.sessions[a].requestId == u.sessions[b].requestId
  {
    assert SessionMoves(t.sessions[a], u.sessions[a], now);
  }

  /** All successful claims of one ticket, anywhere in a run, came from the same
      gateway request and returned the same session. */
  lemma TicketAdmitsOneSession(cfg: Settings, clock: Time, before: seq<Event>, first: Event, between: seq<Event>, second: Event)
    requires Timed(clock, before + ([first] + between + [second]))
    requires first.op.DoClaim? && second.op.DoClaim? && first.op.ticket == second.op.ticket
    requires ClaimAt(cfg, before, first).Ok? && ClaimAt(cfg, before + ([first] + between), second).Ok?
    ensures first.op.requestId == second.op.requestId
    ensures ClaimAt(cfg, before, first).value.sessionId
            == ClaimAt(cfg, before + ([first] + between), second).value.sessionId
  {
    var upto := before + [first];
    var mid := upto + between;
    assert before + ([first] + between) == mid;
    assert before + ([first] + between + [second]) == upto + (between + [second]) == mid + [second];
    Reachable(cfg, clock, upto, between + [second]);
    TimedSplit(clock, mid, [second]);
    ClaimAtBinds(cfg, clock, before, first);
    ClaimAtBinds(cfg, clock, mid, second);
    OneSessionPerTicket(After(cfg, upto), After(cfg, mid + [second]), End(clock, upto),
                        ClaimAt(cfg, before, first).value.sessionId, ClaimAt(cfg, mid, second).value.sessionId);
  }

  lemma ClaimAtBinds(cfg: Settings, clock: Time, before: seq<Event>, claim: Event)
    requires Timed(clock, before + [claim]) && claim.op.DoClaim? && ClaimAt(cfg, before, claim).Ok?
    ensures var u := After(cfg, before + [claim]); var s := ClaimAt(cfg, before, claim).value.sessionId;
            s in u.sessions && u.sessions[s].grantId == claim.op.ticket.jti
            && u.sessions[s].requestId == claim.op.requestId
  {
    Reachable(cfg, clock, before, [claim]);
    ExecOne(cfg, before, claim);
    StepClaims(cfg, After(cfg, before), claim.op, claim.at);
  }

  lemma StepClaims(cfg: Settings, t: Tables, o: Op, now: Time)
    requires Invariant(t) && o.DoClaim?
    requires Claim(cfg, t, o.ticket, o.verified, o.requestId, o.actor, o.id, now).outcome.Ok?
    ensures var u := Step(cfg, t, o, now);
            var s := Claim(cfg, t, o.ticket, o.verified, o.requestId, o.actor, o.id, now).outcome.value.sessionId;
            s in u.sessions && u.sessions[s].grantId == o.ticket.jti && u.sessions[s].requestId == o.requestId
  {
    ClaimBinds(cfg, t, o.ticket, o.verified, o.requestId, o.actor, o.id, now);
  }

  /** The reply of a claim made after the run `before`. */
  ghost function ClaimAt(cfg: Settings, before: seq<Event>, claim: Event): (r: Outcome<Destination>)
    requires claim.op.DoClaim?
  {
    Claim(cfg, After(cfg, before), claim.op.ticket, claim.op.verified, claim.op.requestId, claim.op.actor,
          claim.op.id, claim.at).outcome
  }

  lemma ExecOne(cfg: Settings, before: seq<Event>, last: Event)
    ensures After(cfg, before + [last]) == Step(cfg, After(cfg, before), last.op, last.at)
  {
    ExecSplit(cfg, EMPTY, before, [last]);
    assert [last][1..] == [];
  }

  /** Leases never outlive the grant, and never reach more than one session
      lease past the clock. */
  lemma LeaseBounds(cfg: Settings, clock: Time, run: seq<Event>, s: Id)
    requires Timed(clock, run) && s in After(cfg, run).sessions
    ensures var t := After(cfg, run); var x := t.sessions[s];
            && x.grantId in t.grants
            && x.leaseExpires <= x.deadline == t.grants[x.grantId].deadline
            && x.leaseExpires <= End(clock, run) + cfg.sessionLease
  {
    RunKeeps(cfg, EMPTY, clock, run);
    assert SessionBound(After(cfg, run).endpoints, After(cfg, run).grants, After(cfg, run).sessions[s]);
  }
}
