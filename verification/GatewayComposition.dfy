/**
 The gateway's relays and the management service as one system.  Management
 answers travel on a wire that may delay, drop, repeat or reorder them; a relay
 reads the same clock as the management service.
 */
module GatewayComposition {
  import opened Common
  import opened ManagementTables
  import opened ManagementTransactions
  import opened ManagementInvariants
  import opened ManagementRuns
  import opened ManagementTheorems
  import opened GatewayRelay

  /** The part of a management answer a relay uses. */
  datatype Answer = Answer(sessionId: Id, version: Id, lease: Time, deadline: Time)

  /** What a relay read at the top of the turn it is in. */
  datatype Reading = Reading(clock: Time, monotonic: Time, activity: Time)

  datatype System = System(tables: Tables, wire: set<Answer>, relays: map<Id, RelayState>, turning: map<Id, Reading>)

  /** A turn of a relay starts with `Look` and ends, after its sleep and perhaps a
      renewal, with `Settle`; anything may happen in between. */
  datatype Action =
    | Manage(op: Op)
    | Connect(relay: Id, answer: Answer, nextRenewal: Time)
    | Look(relay: Id, monotonic: Time, activity: Time)
    | Settle(relay: Id, woke: Time, reply: Renewal, answered: Time)

  datatype Moment = Moment(action: Action, at: Time)

  function Told(out: Outcome<Destination>): (r: set<Answer>)
  {
    if out.Ok?
    then {Answer(out.value.sessionId, out.value.version, out.value.leaseExpires, out.value.deadline)}
    else {}
  }

  /** The answers a transaction puts on the wire. */
  ghost function Emitted(cfg: Settings, t: Tables, op: Op, now: Time): (r: set<Answer>)
  {
    match op
    case DoClaim(ticket, verified, requestId, a, id) => Told(Claim(cfg, t, ticket, verified, requestId, a, id, now).outcome)
    case DoRenew(id, a) => Told(Renew(cfg, t, id, a, now).outcome)
    case _ => {}
  }

  /** A relay hears only what was said about its session. */
  predicate Heard(y: System, st: RelayState, answer: Renewal)
  {
    answer.Renewed? ==>
      exists a :: a in y.wire && a.sessionId == st.sessionId && a.version == answer.version && a.lease == answer.lease
  }

  /** The turn an action completes, if it does. */
  function Completed(y: System, action: Action, relay: Id): (r: Option<Turn>)
  {
    if action.Settle? && action.relay == relay && relay in y.relays && relay in y.turning
       && Heard(y, y.relays[relay], action.reply)
    then Some(Turn(y.turning[relay].clock, y.turning[relay].monotonic, y.turning[relay].activity,
                   action.woke, action.reply, action.answered))
    else None
  }

  ghost function Act(cfg: Settings, timing: Timing, y: System, m: Moment): (z: System)
  {
    match m.action
    case Manage(op) =>
      y.(tables := Step(cfg, y.tables, op, m.at), wire := y.wire + Emitted(cfg, y.tables, op, m.at))
    case Connect(relay, answer, nextRenewal) =>
      if answer in y.wire && relay !in y.relays then
        y.(relays := y.relays[relay :=
          RelayState(answer.sessionId, answer.version, answer.lease, answer.deadline, nextRenewal, None)])
      else y
    case Look(relay, monotonic, activity) =>
      if relay in y.relays && relay !in y.turning then
        y.(turning := y.turning[relay := Reading(m.at, monotonic, activity)])
      else y
    case Settle(relay, woke, reply, answered) =>
      var turn := Completed(y, m.action, relay);
      if turn.None? then y
      else y.(relays := y.relays[relay := TakeTurn(timing, y.relays[relay], turn.value)], turning := y.turning - {relay})
  }

  predicate Ordered(clock: Time, story: seq<Moment>)
    decreases |story|
  {
    story == [] || (clock <= story[0].at && Ordered(story[0].at, story[1..]))
  }

  function Finish(clock: Time, story: seq<Moment>): (r: Time)
    decreases |story|
  {
    if story == [] then clock else Finish(story[0].at, story[1..])
  }

  ghost function Play(cfg: Settings, timing: Timing, y: System, story: seq<Moment>): (z: System)
    decreases |story|
  {
    if story == [] then y else Play(cfg, timing, Act(cfg, timing, y, story[0]), story[1..])
  }

  // -------------------------------------------------------------------- invariant

  predicate Covered(sessions: Sessions, sessionId: Id, lease: Time, deadline: Time)
  {
    sessionId in sessions && lease <= sessions[sessionId].leaseExpires && deadline == sessions[sessionId].deadline
  }

  /** Whatever was said about a session, and every relay's local lease, is
      covered by the lease stored for it now. */
  ghost predicate Consistent(cfg: Settings, y: System, clock: Time)
  {
    && Sound(cfg, y.tables, clock)
    && (forall a :: a in y.wire ==> Covered(y.tables.sessions, a.sessionId, a.lease, a.deadline))
    && (forall c :: c in y.relays ==>
          Covered(y.tables.sessions, y.relays[c].sessionId, y.relays[c].lease, y.relays[c].deadline))
  }

  lemma EmittedCovered(cfg: Settings, t: Tables, op: Op, now: Time)
    requires Sound(cfg, t, now)
    ensures forall a :: a in Emitted(cfg, t, op, now) ==>
              Covered(Step(cfg, t, op, now).sessions, a.sessionId, a.lease, a.deadline)
  {
    match op
    case DoClaim(ticket, verified, requestId, a, id) =>
      if Claim(cfg, t, ticket, verified, requestId, a, id, now).outcome.Ok? {
        ClaimBinds(cfg, t, ticket, verified, requestId, a, id, now);
      }
    case DoRenew(id, a) =>
    case _ =>
  }

  lemma CoverMoves(a: Sessions, b: Sessions, now: Time, sessionId: Id, lease: Time, deadline: Time)
    requires SessionsLater(a, b, now) && Covered(a, sessionId, lease, deadline)
    ensures Covered(b, sessionId, lease, deadline)
  {
    assert SessionMoves(a[sessionId], b[sessionId], now);
  }

  lemma ManageConsistent(cfg: Settings, timing: Timing, y: System, op: Op, now: Time)
    requires Consistent(cfg, y, now)
    ensures Consistent(cfg, Act(cfg, timing, y, Moment(Manage(op), now)), now)
    ensures Later(y.tables, Act(cfg, timing, y, Moment(Manage(op), now)).tables, now)
  {
    var z := Act(cfg, timing, y, Moment(Manage(op), now));
    StepKeeps(cfg, y.tables, op, now);
    StepLeases(cfg, y.tables, op, now);
    EmittedCovered(cfg, y.tables, op, now);
    forall a | a in z.wire ensures Covered(z.tables.sessions, a.sessionId, a.lease, a.deadline) {
      if a in y.wire {
        CoverMoves(y.tables.sessions, z.tables.sessions, now, a.sessionId, a.lease, a.deadline);
      }
    }
    forall c | c in z.relays
      ensures Covered(z.tables.sessions, z.relays[c].sessionId, z.relays[c].lease, z.relays[c].deadline)
    {
      CoverMoves(y.tables.sessions, z.tables.sessions, now, y.relays[c].sessionId, y.relays[c].lease, y.relays[c].deadline);
    }
  }

  lemma ActConsistent(cfg: Settings, timing: Timing, y: System, m: Moment)
    requires Consistent(cfg, y, m.at)
    ensures Consistent(cfg, Act(cfg, timing, y, m), m.at)
    ensures Later(y.tables, Act(cfg, timing, y, m).tables, m.at)
  {
    match m.action {
      case Manage(op) =>
        assert m == Moment(Manage(op), m.at);
        ManageConsistent(cfg, timing, y, op, m.at);
      case _ =>
        RelayActConsistent(cfg, timing, y, m);
    }
  }

  lemma RelayActConsistent(cfg: Settings, timing: Timing, y: System, m: Moment)
    requires Consistent(cfg, y, m.at) && !m.action.Manage?
    ensures Consistent(cfg, Act(cfg, timing, y, m), m.at) && Later(y.tables, Act(cfg, timing, y, m).tables, m.at)
  {
    LaterReflexive(y.tables, m.at);
    var z := Act(cfg, timing, y, m);
    RelayActLocal(cfg, timing, y, m);
    forall c | c in z.relays
      ensures Covered(y.tables.sessions, z.relays[c].sessionId, z.relays[c].lease, z.relays[c].deadline)
    {
      RelayCovered(timing, y.tables.sessions, y, m, cfg, c);
    }
  }

  lemma RelayActLocal(cfg: Settings, timing: Timing, y: System, m: Moment)
    requires !m.action.Manage?
    ensures Act(cfg, timing, y, m).tables == y.tables && Act(cfg, timing, y, m).wire == y.wire
  {
  }

  /** A relay takes over no lease that management did not tell. */
  lemma RelayCovered(timing: Timing, sessions: Sessions, y: System, m: Moment, cfg: Settings, c: Id)
    requires forall a :: a in y.wire ==> Covered(sessions, a.sessionId, a.lease, a.deadline)
    requires forall k :: k in y.relays ==> Covered(sessions, y.relays[k].sessionId, y.relays[k].lease, y.relays[k].deadline)
    requires !m.action.Manage? && c in Act(cfg, timing, y, m).relays
    ensures var st := Act(cfg, timing, y, m).relays[c]; Covered(sessions, st.sessionId, st.lease, st.deadline)
  {
  }

  lemma {:induction false} PlayConsistent(cfg: Settings, timing: Timing, y: System, clock: Time, story: seq<Moment>)
    requires Consistent(cfg, y, clock) && Ordered(clock, story)
    ensures Consistent(cfg, Play(cfg, timing, y, story), Finish(clock, story))
    ensures Later(y.tables, Play(cfg, timing, y, story).tables, clock) && clock <= Finish(clock, story)
    decreases |story|
  {
    if story == [] {
      LaterReflexive(y.tables, clock);
    } else {
      var at := story[0].at;
      var z := Act(cfg, timing, y, story[0]);
      ActConsistent(cfg, timing, y, story[0]);
      PlayConsistent(cfg, timing, z, at, story[1..]);
      LaterTransitive(y.tables, z.tables, Play(cfg, timing, y, story).tables, at, at);
      LaterEarlier(y.tables, Play(cfg, timing, y, story).tables, clock, at);
    }
  }

  // --------------------------------------------------------------------- theorems

  const NOTHING := System(EMPTY, {}, map[], map[])

  /** A relay never believes in a longer lease than management has stored. */
  lemma RelayWithinStoredLease(cfg: Settings, timing: Timing, clock: Time, story: seq<Moment>, c: Id)
    requires Ordered(clock, story) && c in Play(cfg, timing, NOTHING, story).relays
    ensures var z := Play(cfg, timing, NOTHING, story);
            Covered(z.tables.sessions, z.relays[c].sessionId, z.relays[c].lease, z.relays[c].deadline)
  {
    PlayConsistent(cfg, timing, NOTHING, clock, story);
  }

  /** Once a session is finished at time `revoked`, no relay's local lease for it
      ever extends beyond `revoked` plus one session lease, and an open relay is
      closed by any turn it takes from then on. */
  lemma RevocationBound(cfg: Settings, timing: Timing, y: System, revoked: Time, story: seq<Moment>, s: Id, c: Id)
    requires Consistent(cfg, y, revoked) && Finished(y.tables, s, revoked)
    requires Ordered(revoked, story)
    requires var z := Play(cfg, timing, y, story); c in z.relays && z.relays[c].sessionId == s
    ensures var z := Play(cfg, timing, y, story);
            && z.relays[c].lease <= revoked + cfg.sessionLease
            && (forall turn: Turn :: revoked + cfg.sessionLease <= turn.clock ==>
                  TakeTurn(timing, z.relays[c], turn).reason.Some?)
  {
    PlayConsistent(cfg, timing, y, revoked, story);
    var z := Play(cfg, timing, y, story);
    FinishedLease(cfg, y.tables.sessions, z.tables.sessions, s, revoked);
    assert Covered(z.tables.sessions, s, z.relays[c].lease, z.relays[c].deadline);
  }

  /** A finished session keeps its lease, which is near the moment it finished. */
  lemma FinishedLease(cfg: Settings, a: Sessions, b: Sessions, s: Id, revoked: Time)
    requires LeasesBounded(cfg, a, revoked) && SessionsLater(a, b, revoked)
    requires s in a && (a[s].state != Active || a[s].leaseExpires <= revoked)
    ensures s in b && b[s].leaseExpires <= revoked + cfg.sessionLease
  {
    assert SessionMoves(a[s], b[s], revoked);
  }

  // --------------------------------------------------------------------- revocation to closing

  /** The operation ends session `s`: its grant, its endpoint or the endpoint's enrollment
      is revoked, or a newer generation of the endpoint is reserved. */
  ghost predicate Revokes(cfg: Settings, t: Tables, op: Op, now: Time, s: Id)
  {
    && s in t.sessions && t.sessions[s].grantId in t.grants
    && var g := t.sessions[s].grantId;
    && var r := t.grants[g].resourceId;
    || (op.DoRevokeGrant? && op.id == g && op.actor == Controller)
    || (op.DoRevokeEndpoint? && op.resource == r && op.actor == Controller && r in t.endpoints)
    || (op.DoRevokeEnrollment? && op.actor == Controller && r in t.endpoints && op.id == t.endpoints[r].enrollmentId)
    || (op.DoReserve? && op.enroll.role == EndpointRole && op.enroll.identity == r
        && Reserve(cfg, t, op.enroll, op.digest, op.actor, op.idempotency, op.id, op.requested, now).outcome
           == Ok(Reserved(op.id)))
  }

  /** Revoking a grant finishes its session. */
  lemma GrantRevocationFinishes(t: Tables, grantId: Id, now: Time, s: Id)
    requires grantId in t.grants && s in t.sessions && t.sessions[s].grantId == grantId
    ensures Finished(RevokeGrant(t, grantId, Controller).tables, s, now)
  {
  }

  /** Revoking an endpoint, or its enrollment, finishes its sessions. */
  lemma EndpointRevocationFinishes(t: Tables, r: Id, now: Time, s: Id)
    requires Invariant(t) && r in t.endpoints && s in t.sessions && t.sessions[s].grantId in t.grants
    requires t.grants[t.sessions[s].grantId].resourceId == r
    ensures Finished(RevokeEndpoint(t, r, Controller, now).tables, s, now)
    ensures Finished(RevokeEnrollment(t, t.endpoints[r].enrollmentId, Controller, now).tables, s, now)
  {
    assert EndpointBound(t.enrollments, r, t.endpoints[r]);
    DenyKeeps(t, {t.endpoints[r].enrollmentId}, now);
    DeadEnrollmentEndsSessions(Deny(t, {t.endpoints[r].enrollmentId}, now), s);
  }

  /** Reserving a newer generation of an endpoint finishes its sessions. */
  lemma ReservationFinishes(cfg: Settings, t: Tables, request: EnrollRequest, digest: Id, actor: Actor,
                            idempotency: Option<string>, id: Id, requested: Time, now: Time, s: Id)
    requires Invariant(t) && request.role == EndpointRole && s in t.sessions && t.sessions[s].grantId in t.grants
    requires t.grants[t.sessions[s].grantId].resourceId == request.identity
    requires Reserve(cfg, t, request, digest, actor, idempotency, id, requested, now).outcome == Ok(Reserved(id))
    ensures Finished(Reserve(cfg, t, request, digest, actor, idempotency, id, requested, now).tables, s, now)
  {
    ReserveKeeps(cfg, t, request, digest, actor, idempotency, id, requested, now);
    ReservationKillsSlot(cfg, t, request, digest, actor, idempotency, id, requested, now);
    ReservationEndsSessions(t, Reserve(cfg, t, request, digest, actor, idempotency, id, requested, now).tables,
                            request.identity, now, s);
  }

  lemma RevokesFinishes(cfg: Settings, t: Tables, op: Op, now: Time, s: Id)
    requires Invariant(t) && Revokes(cfg, t, op, now, s)
    ensures Finished(Step(cfg, t, op, now), s, now)
  {
    if op.DoReserve? {
      SupersedingFinishes(cfg, t, op, now, s);
    } else if op.DoRevokeGrant? {
      RevokedGrantFinishes(cfg, t, op, now, s);
    } else {
      RevokedEndpointFinishes(cfg, t, op, now, s);
    }
  }

  lemma RevokedGrantFinishes(cfg: Settings, t: Tables, op: Op, now: Time, s: Id)
    requires op.DoRevokeGrant? && Revokes(cfg, t, op, now, s)
    ensures Finished(Step(cfg, t, op, now), s, now)
  {
    GrantRevocationFinishes(t, op.id, now, s);
  }

  lemma RevokedEndpointFinishes(cfg: Settings, t: Tables, op: Op, now: Time, s: Id)
    requires Invariant(t) && (op.DoRevokeEndpoint? || op.DoRevokeEnrollment?) && Revokes(cfg, t, op, now, s)
    ensures Finished(Step(cfg, t, op, now), s, now)
  {
    var r := t.grants[t.sessions[s].grantId].resourceId;
    EndpointRevocationFinishes(t, r, now, s);
    EndpointStep(cfg, t, op, now, r);
  }

  lemma EndpointStep(cfg: Settings, t: Tables, op: Op, now: Time, r: Id)
    requires r in t.endpoints
    requires op == DoRevokeEndpoint(r, Controller) || op == DoRevokeEnrollment(t.endpoints[r].enrollmentId, Controller)
    ensures Step(cfg, t, op, now) == RevokeEndpoint(t, r, Controller, now).tables
            || Step(cfg, t, op, now) == RevokeEnrollment(t, t.endpoints[r].enrollmentId, Controller, now).tables
  {
  }

  lemma SupersedingFinishes(cfg: Settings, t: Tables, op: Op, now: Time, s: Id)
    requires Invariant(t) && op.DoReserve? && Revokes(cfg, t, op, now, s)
    ensures Finished(Step(cfg, t, op, now), s, now)
  {
    ReservationFinishes(cfg, t, op.enroll, op.digest, op.actor, op.idempotency, op.id, op.requested, now, s);
  }

  /** The turns a relay completes during a story. */
  ghost function TurnsOf(cfg: Settings, timing: Timing, y: System, story: seq<Moment>, c: Id): (r: seq<Turn>)
    decreases |story|
  {
    if story == [] then []
    else
      var turn := Completed(y, story[0].action, c);
      (if turn.Some? then [turn.value] else []) + TurnsOf(cfg, timing, Act(cfg, timing, y, story[0]), story[1..], c)
  }

  /** A relay is where its turns took it, and stays with its session. */
  lemma {:induction false} PlayTurns(cfg: Settings, timing: Timing, y: System, story: seq<Moment>, c: Id)
    requires c in y.relays
    ensures var z := Play(cfg, timing, y, story);
            && c in z.relays && z.relays[c] == TakeTurns(timing, y.relays[c], TurnsOf(cfg, timing, y, story, c))
            && z.relays[c].sessionId == y.relays[c].sessionId
    decreases |story|
  {
    if story != [] {
      var m := story[0];
      var next, turn := Act(cfg, timing, y, m), Completed(y, m.action, c);
      assert c in next.relays && next.relays[c] == if turn.Some? then TakeTurn(timing, y.relays[c], turn.value) else y.relays[c];
      PlayTurns(cfg, timing, next, story[1..], c);
      var rest := TurnsOf(cfg, timing, next, story[1..], c);
      if turn.Some? {
        assert ([turn.value] + rest)[1..] == rest;
      } else {
        assert [] + rest == rest;
      }
    }
  }

  /** Every lease a relay hears of is within the lease stored in the end. */
  lemma {:induction false} TurnsCovered(cfg: Settings, timing: Timing, y: System, clock: Time, story: seq<Moment>, c: Id, limit: Time)
    requires Consistent(cfg, y, clock) && Ordered(clock, story) && c in y.relays
    requires var z := Play(cfg, timing, y, story);
             y.relays[c].sessionId in z.tables.sessions && z.tables.sessions[y.relays[c].sessionId].leaseExpires <= limit
    ensures GrantsUpTo(TurnsOf(cfg, timing, y, story, c), limit)
    decreases |story|
  {
    if story != [] {
      var m := story[0];
      var next, turn := Act(cfg, timing, y, m), Completed(y, m.action, c);
      EarlierSound(cfg, y, clock, m.at);
      ActConsistent(cfg, timing, y, m);
      SessionKept(cfg, timing, y, m, c);
      TurnsCovered(cfg, timing, next, m.at, story[1..], c, limit);
      if turn.Some? && turn.value.answer.Renewed? {
        HeardWithin(cfg, timing, y, story, c, limit);
      }
      GrantsCons(turn, TurnsOf(cfg, timing, next, story[1..], c), limit);
    }
  }

  lemma SessionKept(cfg: Settings, timing: Timing, y: System, m: Moment, c: Id)
    requires c in y.relays
    ensures var next := Act(cfg, timing, y, m); c in next.relays && next.relays[c].sessionId == y.relays[c].sessionId
  {
    PlayTurns(cfg, timing, y, [m], c);
    assert [m][1..] == [];
    assert Play(cfg, timing, y, [m]) == Act(cfg, timing, y, m);
  }

  /** The lease heard in the first turn of a story is within the one stored at its end. */
  lemma HeardWithin(cfg: Settings, timing: Timing, y: System, story: seq<Moment>, c: Id, limit: Time)
    requires story != [] && Consistent(cfg, y, story[0].at) && Ordered(story[0].at, story) && c in y.relays
    requires var z := Play(cfg, timing, y, story);
             y.relays[c].sessionId in z.tables.sessions && z.tables.sessions[y.relays[c].sessionId].leaseExpires <= limit
    requires var turn := Completed(y, story[0].action, c); turn.Some? && turn.value.answer.Renewed?
    ensures Completed(y, story[0].action, c).value.answer.lease <= limit
  {
    var answer, s := Completed(y, story[0].action, c).value.answer, y.relays[c].sessionId;
    HeardCovered(cfg, y, story[0].at, y.relays[c], answer);
    PlayConsistent(cfg, timing, y, story[0].at, story);
    CoverMoves(y.tables.sessions, Play(cfg, timing, y, story).tables.sessions, story[0].at, s, answer.lease,
               y.tables.sessions[s].deadline);
  }

  lemma GrantsCons(turn: Option<Turn>, rest: seq<Turn>, limit: Time)
    requires GrantsUpTo(rest, limit)
    requires turn.Some? && turn.value.answer.Renewed? ==> turn.value.answer.lease <= limit
    ensures GrantsUpTo((if turn.Some? then [turn.value] else []) + rest, limit)
  {
  }

  lemma HeardCovered(cfg: Settings, y: System, now: Time, st: RelayState, answer: Renewal)
    requires Consistent(cfg, y, now) && answer.Renewed? && Heard(y, st, answer)
    ensures st.sessionId in y.tables.sessions
    ensures Covered(y.tables.sessions, st.sessionId, answer.lease, y.tables.sessions[st.sessionId].deadline)
  {
  }

  /** What is sound at a moment is sound later. */
  lemma EarlierSound(cfg: Settings, y: System, clock: Time, now: Time)
    requires Consistent(cfg, y, clock) && clock <= now
    ensures Consistent(cfg, y, now)
  {
  }

  /** From nothing, over any story in which a relay of session `s` is connected and the
      session is then revoked at time T, by whichever of the four ways: with prompt
      timers no turn of the still open relay, after the one it connected with, starts
      later than T plus one session lease plus a millisecond. */
  lemma ClosedAfterRevocation(cfg: Settings, timing: Timing, clock: Time, before: seq<Moment>, between: seq<Moment>,
                              revoke: Moment, after: seq<Moment>, s: Id, c: Id, i: nat)
    requires Ordered(clock, before + (between + ([revoke] + after)))
    requires var y := Play(cfg, timing, NOTHING, before);
             && c in y.relays && y.relays[c].sessionId == s
             && revoke.action.Manage? && Revokes(cfg, Play(cfg, timing, y, between).tables, revoke.action.op, revoke.at, s)
             && var turns := TurnsOf(cfg, timing, y, between + ([revoke] + after), c);
             && AllPrompt(timing, y.relays[c], turns)
             && 0 < i < |turns| && TakeTurns(timing, y.relays[c], turns[..i]).reason == None
    ensures var y := Play(cfg, timing, NOTHING, before);
            TurnsOf(cfg, timing, y, between + ([revoke] + after), c)[i].clock <= revoke.at + cfg.sessionLease + 0.001
  {
    var rest := between + ([revoke] + after);
    var y := Play(cfg, timing, NOTHING, before);
    OrderedSplit(clock, before, rest);
    PlayConsistent(cfg, timing, NOTHING, clock, before);
    RevokedLease(cfg, timing, y, Finish(clock, before), between, revoke, after, s);
    ClosedWithin(cfg, timing, y, Finish(clock, before), rest, c, revoke.at + cfg.sessionLease, i);
  }

  /** The same of a relay that connects, on an answer given earlier, only after the
      session was revoked. */
  lemma ClosedThoughLate(cfg: Settings, timing: Timing, clock: Time, before: seq<Moment>, revoke: Moment,
                         between: seq<Moment>, after: seq<Moment>, s: Id, c: Id, i: nat)
    requires Ordered(clock, before + ([revoke] + (between + after)))
    requires revoke.action.Manage?
             && Revokes(cfg, Play(cfg, timing, NOTHING, before).tables, revoke.action.op, revoke.at, s)
    requires var y := Play(cfg, timing, NOTHING, before + ([revoke] + between));
             && c in y.relays && y.relays[c].sessionId == s
             && var turns := TurnsOf(cfg, timing, y, after, c);
             && AllPrompt(timing, y.relays[c], turns)
             && 0 < i < |turns| && TakeTurns(timing, y.relays[c], turns[..i]).reason == None
    ensures var y := Play(cfg, timing, NOTHING, before + ([revoke] + between));
            TurnsOf(cfg, timing, y, after, c)[i].clock <= revoke.at + cfg.sessionLease + 0.001
  {
    var soFar := before + ([revoke] + between);
    Regrouped(before, [revoke], between, after);
    var y := Play(cfg, timing, NOTHING, soFar);
    OrderedSplit(clock, soFar, after);
    PlayConsistent(cfg, timing, NOTHING, clock, soFar);
    PlaySplit(cfg, timing, NOTHING, soFar, after);
    RevokedLease(cfg, timing, NOTHING, clock, before, revoke, between + after, s);
    ClosedWithin(cfg, timing, y, Finish(clock, soFar), after, c, revoke.at + cfg.sessionLease, i);
  }

  lemma Regrouped<T>(a: seq<T>, b: seq<T>, c: seq<T>, d: seq<T>)
    ensures a + (b + (c + d)) == (a + (b + c)) + d
  {
  }

  /** With prompt timers an open relay starts no turn, after its first, later than a
      millisecond past the lease its session ends up with. */
  lemma ClosedWithin(cfg: Settings, timing: Timing, y: System, clock: Time, rest: seq<Moment>, c: Id, limit: Time, i: nat)
    requires Consistent(cfg, y, clock) && Ordered(clock, rest) && c in y.relays
    requires var z, s := Play(cfg, timing, y, rest), y.relays[c].sessionId;
             s in z.tables.sessions && z.tables.sessions[s].leaseExpires <= limit
    requires var turns := TurnsOf(cfg, timing, y, rest, c);
             && AllPrompt(timing, y.relays[c], turns)
             && 0 < i < |turns| && TakeTurns(timing, y.relays[c], turns[..i]).reason == None
    ensures TurnsOf(cfg, timing, y, rest, c)[i].clock <= limit + 0.001
  {
    var z, s := Play(cfg, timing, y, rest), y.relays[c].sessionId;
    PlayConsistent(cfg, timing, y, clock, rest);
    CoverMoves(y.tables.sessions, z.tables.sessions, clock, s, y.relays[c].lease, y.relays[c].deadline);
    TurnsCovered(cfg, timing, y, clock, rest, c, limit);
    ClosedInTime(timing, y.relays[c], TurnsOf(cfg, timing, y, rest, c), limit, i);
  }

  /** The lease stored for a revoked session never again passes the bound. */
  lemma RevokedLease(cfg: Settings, timing: Timing, y: System, clock: Time, between: seq<Moment>, revoke: Moment,
                     after: seq<Moment>, s: Id)
    requires Consistent(cfg, y, clock) && Ordered(clock, between + ([revoke] + after))
    requires revoke.action.Manage?
             && Revokes(cfg, Play(cfg, timing, y, between).tables, revoke.action.op, revoke.at, s)
    ensures var z := Play(cfg, timing, y, between + ([revoke] + after));
            s in z.tables.sessions && z.tables.sessions[s].leaseExpires <= revoke.at + cfg.sessionLease
  {
    OrderedSplit(clock, between, [revoke] + after);
    PlaySplit(cfg, timing, y, between, [revoke] + after);
    assert ([revoke] + after)[1..] == after;
    PlayConsistent(cfg, timing, y, clock, between);
    var m := Play(cfg, timing, y, between);
    EarlierSound(cfg, m, Finish(clock, between), revoke.at);
    var n := Act(cfg, timing, m, revoke);
    ActConsistent(cfg, timing, m, revoke);
    RevokesFinishes(cfg, m.tables, revoke.action.op, revoke.at, s);
    PlayConsistent(cfg, timing, n, revoke.at, after);
    var z := Play(cfg, timing, n, after);
    FinishedLease(cfg, n.tables.sessions, z.tables.sessions, s, revoke.at);
  }

  lemma {:induction false} OrderedSplit(clock: Time, a: seq<Moment>, b: seq<Moment>)
    requires Ordered(clock, a + b)
    ensures Ordered(clock, a) && Ordered(Finish(clock, a), b)
    decreases |a|
  {
    if a == [] {
      assert a + b == b;
    } else {
      assert (a + b)[0] == a[0] && (a + b)[1..] == a[1..] + b;
      OrderedSplit(a[0].at, a[1..], b);
    }
  }

  lemma {:induction false} PlaySplit(cfg: Settings, timing: Timing, y: System, a: seq<Moment>, b: seq<Moment>)
    ensures Play(cfg, timing, y, a + b) == Play(cfg, timing, Play(cfg, timing, y, a), b)
    decreases |a|
  {
    if a == [] {
      assert a + b == b;
    } else {
      assert (a + b)[0] == a[0] && (a + b)[1..] == a[1..] + b;
      PlaySplit(cfg, timing, Act(cfg, timing, y, a[0]), a[1..], b);
    }
  }
}
