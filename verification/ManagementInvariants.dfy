/**
 Every transaction keeps the invariant of the tables and moves them only
 forward: rows persist, dead enrollments stay dead, revoked grants and sessions
 stay revoked, and a lapsed lease is never extended.
 */
module ManagementInvariants {
  import opened Common
  import opened ManagementTables
  import opened ManagementTransactions

  // ------------------------------------------------------------- forward movement

  predicate SameIdentity(a: Enrollment, b: Enrollment)
  {
    && a.actor == b.actor && a.idempotency == b.idempotency && a.requestHash == b.requestHash
    && a.role == b.role && a.identity == b.identity && a.generation == b.generation
    && a.expires == b.expires && a.created == b.created
  }

  predicate EnrollmentMoves(a: Enrollment, b: Enrollment)
  {
    SameIdentity(a, b) && (Dead(a.state) ==> Dead(b.state))
  }

  predicate GrantMoves(a: Grant, b: Grant)
  {
    && b == a.(state := b.state)
    && (a.state == GrantRevoked ==> b.state == GrantRevoked)
    && (a.state == Claimed ==> b.state != Issued)
  }

  predicate SessionMoves(a: Session, b: Session, now: Time)
  {
    && b == a.(state := b.state, leaseExpires := b.leaseExpires)
    && (a.state != Active ==> b.state != Active)
    && (a.state == SessionRevoked ==> b.state == SessionRevoked)
    && a.leaseExpires <= b.leaseExpires
    && (a.state != Active || a.leaseExpires <= now ==> b.leaseExpires == a.leaseExpires)
  }

  ghost predicate EnrollmentsLater(a: Enrollments, b: Enrollments)
  {
    forall k :: k in a ==> k in b && EnrollmentMoves(a[k], b[k])
  }

  ghost predicate EndpointsLater(a: Endpoints, b: Endpoints)
  {
    forall r :: r in a ==> r in b && b[r].owner == a[r].owner
  }

  ghost predicate GrantsLater(a: Grants, b: Grants)
  {
    forall g :: g in a ==> g in b && GrantMoves(a[g], b[g])
  }

  ghost predicate SessionsLater(a: Sessions, b: Sessions, now: Time)
  {
    forall s :: s in a ==> s in b && SessionMoves(a[s], b[s], now)
  }

  /** `u` may follow `t` when the step between them happens at `now`. */
  ghost predicate Later(t: Tables, u: Tables, now: Time)
  {
    && EnrollmentsLater(t.enrollments, u.enrollments)
    && EndpointsLater(t.endpoints, u.endpoints)
    && GrantsLater(t.grants, u.grants)
    && SessionsLater(t.sessions, u.sessions, now)
  }

  lemma LaterReflexive(t: Tables, now: Time)
    ensures Later(t, t, now)
  {
  }

  lemma LaterTransitive(t: Tables, u: Tables, v: Tables, now: Time, after: Time)
    requires Later(t, u, now) && Later(u, v, after) && now <= after
    ensures Later(t, v, now)
  {
  }

  /** What every step establishes. */
  ghost predicate Keeps(t: Tables, u: Tables, now: Time)
  {
    Invariant(u) && Later(t, u, now)
  }

  lemma KeepsTransitive(t: Tables, u: Tables, v: Tables, now: Time)
    requires Keeps(t, u, now) && Keeps(u, v, now)
    ensures Keeps(t, v, now)
  {
    LaterTransitive(t, u, v, now, now);
  }

  /** A transaction that either leaves the tables alone or makes a change that keeps. */
  lemma KeepsEither(t: Tables, u: Tables, v: Tables, now: Time)
    requires Invariant(t) && (u == t || (u == v && Keeps(t, v, now)))
    ensures Keeps(t, u, now)
  {
    LaterReflexive(t, now);
  }

  // ------------------------------------------------------------- primitive updates

  lemma InvalidateKeeps(t: Tables, resources: set<Id>, now: Time)
    requires Invariant(t)
    ensures Keeps(t, Invalidate(t, resources), now)
  {
    InvalidatedSessionsBound(t, resources, now);
    assert GrantsBound(t.endpoints, Invalidate(t, resources).grants);
  }

  lemma InvalidatedSessionsBound(t: Tables, resources: set<Id>, now: Time)
    requires SessionsBound(t.endpoints, t.grants, t.sessions) && UniqueSessions(t.sessions)
    ensures var u := Invalidate(t, resources);
            SessionsBound(t.endpoints, u.grants, u.sessions) && UniqueSessions(u.sessions)
            && SessionsLater(t.sessions, u.sessions, now)
  {
    var u := Invalidate(t, resources);
    forall s | s in u.sessions ensures SessionBound(t.endpoints, u.grants, u.sessions[s]) {
      assert SessionBound(t.endpoints, t.grants, t.sessions[s]);
    }
  }

  lemma DeniedRowsSound(rows: Enrollments, denied: Enrollments, ids: set<Id>, now: Time)
    requires EnrollmentsSound(rows) && denied.Keys == rows.Keys
    requires forall k :: k in rows ==>
               denied[k] == if k in ids then DeniedRow(rows[k], now) else rows[k]
    ensures EnrollmentsSound(denied) && EnrollmentsLater(rows, denied)
  {
  }

  lemma DeniedEndpointsBound(t: Tables, ids: set<Id>, now: Time)
    requires EndpointsBound(t.enrollments, t.endpoints)
    ensures EndpointsBound(Deny(t, ids, now).enrollments, Deny(t, ids, now).endpoints)
    ensures EndpointsLater(t.endpoints, Deny(t, ids, now).endpoints)
  {
    var u := Deny(t, ids, now);
    forall r | r in u.endpoints ensures EndpointBound(u.enrollments, r, u.endpoints[r]) {
      assert EndpointBound(t.enrollments, r, t.endpoints[r]);
    }
  }

  lemma DeniedGrantsBound(t: Tables, ids: set<Id>, now: Time)
    requires GrantsBound(t.endpoints, t.grants)
    ensures GrantsBound(Deny(t, ids, now).endpoints, Deny(t, ids, now).grants)
    ensures GrantsLater(t.grants, Deny(t, ids, now).grants)
  {
    var u := Deny(t, ids, now);
    forall g | g in u.grants ensures GrantBound(u.endpoints, g, u.grants[g]) {
      assert GrantBound(t.endpoints, g, t.grants[g]);
    }
  }

  lemma DeniedSessionsBound(t: Tables, ids: set<Id>, now: Time)
    requires SessionsBound(t.endpoints, t.grants, t.sessions)
    ensures SessionsBound(Deny(t, ids, now).endpoints, Deny(t, ids, now).grants, Deny(t, ids, now).sessions)
    ensures SessionsLater(t.sessions, Deny(t, ids, now).sessions, now)
  {
    var u := Deny(t, ids, now);
    forall s | s in u.sessions ensures SessionBound(u.endpoints, u.grants, u.sessions[s]) {
      assert SessionBound(t.endpoints, t.grants, t.sessions[s]);
    }
  }

  /** Denial withdraws an endpoint together with the last grant it has. */
  lemma DenyKeeps(t: Tables, ids: set<Id>, now: Time)
    requires Invariant(t)
    ensures Keeps(t, Deny(t, ids, now), now)
  {
    DeniedRowsSound(t.enrollments, Deny(t, ids, now).enrollments, ids, now);
    DeniedEndpointsBound(t, ids, now);
    DeniedGrantsBound(t, ids, now);
    DeniedSessionsBound(t, ids, now);
    assert UniqueSessions(Deny(t, ids, now).sessions);
  }

  /** A change of one enrollment that neither revives it nor takes a confirmed
      one down without the cascade. */
  predicate RowEvolves(a: Enrollment, b: Enrollment)
  {
    EnrollmentMoves(a, b) && KeyDiscipline(b) && (a.state == Confirmed ==> b.state == Confirmed)
  }

  lemma EnrollmentKeeps(t: Tables, id: Id, row: Enrollment, now: Time)
    requires Invariant(t) && id in t.enrollments && RowEvolves(t.enrollments[id], row)
    ensures Keeps(t, t.(enrollments := t.enrollments[id := row]), now)
  {
    LaterReflexive(t, now);
    EvolvedRows(t.enrollments, t.endpoints, id, row);
  }

  lemma EvolvedRows(rows: Enrollments, endpoints: Endpoints, id: Id, row: Enrollment)
    requires EnrollmentsSound(rows) && EndpointsBound(rows, endpoints) && id in rows && RowEvolves(rows[id], row)
    ensures EnrollmentsSound(rows[id := row]) && EnrollmentsLater(rows, rows[id := row])
    ensures EndpointsBound(rows[id := row], endpoints)
  {
    forall r | r in endpoints ensures EndpointBound(rows[id := row], r, endpoints[r]) {
      assert EndpointBound(rows, r, endpoints[r]);
    }
  }

  predicate EndpointEvolves(a: Endpoint, b: Endpoint)
  {
    && a.owner == b.owner && a.generation == b.generation && a.enrollmentId == b.enrollmentId
    && a.service == b.service && a.version == b.version
    && (Withdrawn(a.state) <==> Withdrawn(b.state))
  }

  lemma EndpointsKeep(t: Tables, endpoints: Endpoints, now: Time)
    requires Invariant(t) && endpoints.Keys == t.endpoints.Keys
    requires forall r :: r in endpoints ==> EndpointEvolves(t.endpoints[r], endpoints[r])
    ensures Keeps(t, t.(endpoints := endpoints), now)
  {
    var u := t.(endpoints := endpoints);
    assert EndpointsBound(u.enrollments, u.endpoints) by {
      forall r | r in u.endpoints ensures EndpointBound(u.enrollments, r, u.endpoints[r]) {
        assert EndpointBound(t.enrollments, r, t.endpoints[r]);
      }
    }
    assert GrantsBound(u.endpoints, u.grants) by {
      forall g | g in u.grants ensures GrantBound(u.endpoints, g, u.grants[g]) {
        assert GrantBound(t.endpoints, g, t.grants[g]);
      }
    }
    assert SessionsBound(u.endpoints, u.grants, u.sessions) by {
      forall s | s in u.sessions ensures SessionBound(u.endpoints, u.grants, u.sessions[s]) {
        assert SessionBound(t.endpoints, t.grants, t.sessions[s]);
      }
    }
  }

  lemma SessionsKeep(t: Tables, sessions: Sessions, now: Time)
    requires Invariant(t) && sessions.Keys == t.sessions.Keys
    requires forall s :: s in sessions ==>
               SessionMoves(t.sessions[s], sessions[s], now) && sessions[s].leaseExpires <= sessions[s].deadline
    ensures Keeps(t, t.(sessions := sessions), now)
  {
    assert SessionsBound(t.endpoints, t.grants, sessions) by {
      forall s | s in sessions ensures SessionBound(t.endpoints, t.grants, sessions[s]) {
        assert SessionBound(t.endpoints, t.grants, t.sessions[s]);
      }
    }
  }

  // -------------------------------------------------------------------- enrollment

  lemma ReservedRowsSound(rows: Enrollments, id: Id, row: Enrollment)
    requires EnrollmentsSound(rows) && id !in rows && row.state == Pending && KeyDiscipline(row)
    requires forall k :: k in rows && SameSlot(rows[k], row) ==>
                           Dead(rows[k].state) && rows[k].created < row.created && rows[k].generation != row.generation
    requires forall k :: k in rows && rows[k].actor == row.actor ==> rows[k].idempotency != row.idempotency
    ensures EnrollmentsSound(rows[id := row]) && EnrollmentsLater(rows, rows[id := row])
  {
  }

  lemma AddReservation(t: Tables, id: Id, row: Enrollment, now: Time)
    requires Invariant(t) && id !in t.enrollments
    requires EnrollmentsSound(t.enrollments[id := row]) && EnrollmentsLater(t.enrollments, t.enrollments[id := row])
    ensures Keeps(t, t.(enrollments := t.enrollments[id := row]), now)
  {
    var u := t.(enrollments := t.enrollments[id := row]);
    assert EndpointsBound(u.enrollments, u.endpoints) by {
      forall r | r in u.endpoints ensures EndpointBound(u.enrollments, r, u.endpoints[r]) {
        assert EndpointBound(t.enrollments, r, t.endpoints[r]);
      }
    }
  }

  /** Once the displaced rows are denied, nothing live is left in the slot. */
  lemma DisplacedSlotDead(t: Tables, role: Role, identity: Id, now: Time)
    requires Invariant(t)
    ensures forall k :: k in Slot(t.enrollments, role, identity) ==>
              Dead(Deny(t, Displaced(t, role, identity), now).enrollments[k].state)
  {
  }

  lemma ReservedKeeps(t: Tables, row: Enrollment, id: Id, requested: Time, now: Time)
    requires Invariant(t) && id !in t.enrollments && row.state == Pending && KeyDiscipline(row)
    requires row.created == NextCreated(t.enrollments, row.role, row.identity, requested)
    requires forall k :: k in Slot(t.enrollments, row.role, row.identity) ==> t.enrollments[k].generation != row.generation
    requires forall k :: k in t.enrollments && t.enrollments[k].actor == row.actor ==>
                           t.enrollments[k].idempotency != row.idempotency
    ensures var mid := Deny(t, Displaced(t, row.role, row.identity), now);
            Keeps(t, mid.(enrollments := mid.enrollments[id := row]), now)
  {
    var mid := Deny(t, Displaced(t, row.role, row.identity), now);
    DenyKeeps(t, Displaced(t, row.role, row.identity), now);
    DisplacedSlotDead(t, row.role, row.identity, now);
    assert EnrollmentsSound(mid.enrollments[id := row]) && EnrollmentsLater(mid.enrollments, mid.enrollments[id := row]) by {
      forall k | k in mid.enrollments && SameSlot(mid.enrollments[k], row)
        ensures Dead(mid.enrollments[k].state) && mid.enrollments[k].created < row.created
                && mid.enrollments[k].generation != row.generation
      {
        assert k in Slot(t.enrollments, row.role, row.identity);
      }
      ReservedRowsSound(mid.enrollments, id, row);
    }
    AddReservation(mid, id, row, now);
    KeepsTransitive(t, mid, mid.(enrollments := mid.enrollments[id := row]), now);
  }

  /** A reservation denies the slot's live enrollment before it adds its own, so
      the new row is the only live one and the newest. */
  lemma ReserveKeeps(cfg: Settings, t: Tables, request: EnrollRequest, digest: Id, actor: Actor,
                     idempotency: Option<string>, id: Id, requested: Time, now: Time)
    requires Invariant(t)
    ensures Keeps(t, Reserve(cfg, t, request, digest, actor, idempotency, id, requested, now).tables, now)
  {
    var tx := Reserve(cfg, t, request, digest, actor, idempotency, id, requested, now);
    if tx.outcome.Ok? && tx.outcome.value.Reserved? {
      ReservedKeeps(t, tx.tables.enrollments[id], id, requested, now);
    } else {
      KeepsEither(t, tx.tables, t, now);
    }
  }

  lemma CompleteKeyKeeps(t: Tables, id: Id, keyId: Id, key: Id, now: Time)
    requires Invariant(t)
    ensures Keeps(t, CompleteKey(t, id, keyId, key, now).tables, now)
  {
    LaterReflexive(t, now);
    if id in t.enrollments {
      var e := t.enrollments[id];
      if e.state != Pending || e.expires <= now {
        DenyKeeps(t, {id}, now);
        var denied := Deny(t, {id}, now);
        var row := denied.enrollments[id].(keyId := Some(keyId));
        EnrollmentKeeps(denied, id, row, now);
        var u := denied.(enrollments := denied.enrollments[id := row]);
        assert u.enrollments == CompleteKey(t, id, keyId, key, now).tables.enrollments;
        assert u == CompleteKey(t, id, keyId, key, now).tables;
        KeepsTransitive(t, denied, u, now);
      } else {
        EnrollmentKeeps(t, id, e.(keyId := Some(keyId), updated := now, ciphertext := Some(key), state := KeyIssued), now);
      }
    }
  }

  lemma FailKeyKeeps(t: Tables, id: Id, unknown: bool, now: Time)
    requires Invariant(t)
    ensures Keeps(t, FailKey(t, id, unknown).tables, now)
  {
    LaterReflexive(t, now);
    if id in t.enrollments && t.enrollments[id].state == Pending {
      EnrollmentKeeps(t, id, t.enrollments[id].(state := if unknown then UnknownResult else Failed), now);
    }
  }

  /** Observing a live enrollment keeps the invariant: only a node that used the
      enrollment's own key can confirm it. */
  lemma ObserveKeeps(t: Tables, id: Id, nodes: seq<Node>, now: Time)
    requires Invariant(t) && id in t.enrollments && Live(t.enrollments[id].state)
    ensures Keeps(t, Observe(t, id, nodes, now).tables, now)
  {
    var e := t.enrollments[id];
    match Look(e, GatewayTexts(t), nodes, now)
    case Unverified => EnrollmentKeeps(t, id, e.(online := false), now);
    case Unroutable => LaterReflexive(t, now);
    case Moved => DenyKeeps(t, {id}, now);
    case Verified(node) => EnrollmentKeeps(t, id, ConfirmedRow(e, node, now), now);
  }

  lemma ConfirmKeeps(t: Tables, id: Id, nodes: seq<Node>, now: Time)
    requires Invariant(t)
    ensures Keeps(t, Confirm(t, id, nodes, now).tables, now)
  {
    var u := Confirm(t, id, nodes, now).tables;
    var seen := ConfirmWrites(t, id, nodes, now);
    if u != t {
      ObserveKeeps(t, id, nodes, now);
    }
    KeepsEither(t, u, seen, now);
  }

  lemma ConfirmWrites(t: Tables, id: Id, nodes: seq<Node>, now: Time) returns (seen: Tables)
    ensures var u := Confirm(t, id, nodes, now).tables;
            u == t || (u == seen && id in t.enrollments && Live(t.enrollments[id].state)
                       && seen == Observe(t, id, nodes, now).tables)
  {
    seen := if id in t.enrollments then Observe(t, id, nodes, now).tables else t;
  }

  lemma RevokeEnrollmentKeeps(t: Tables, id: Id, actor: Actor, now: Time)
    requires Invariant(t)
    ensures Keeps(t, RevokeEnrollment(t, id, actor, now).tables, now)
  {
    DenyKeeps(t, {id}, now);
    KeepsEither(t, RevokeEnrollment(t, id, actor, now).tables, Deny(t, {id}, now), now);
  }

  // --------------------------------------------------------------------- endpoints

  lemma RevokeEndpointKeeps(t: Tables, resource: Id, actor: Actor, now: Time)
    requires Invariant(t)
    ensures Keeps(t, RevokeEndpoint(t, resource, actor, now).tables, now)
  {
    var u := RevokeEndpoint(t, resource, actor, now).tables;
    if u == t {
      KeepsEither(t, u, t, now);
    } else {
      DenyKeeps(t, {t.endpoints[resource].enrollmentId}, now);
    }
  }

  /** Registration may rebind an endpoint only after invalidating its grants. */
  lemma RegisterKeeps(cfg: Settings, t: Tables, resource: Id, request: RegisterRequest, actor: Actor, version: Id, now: Time)
    requires Invariant(t)
    ensures Keeps(t, Register(cfg, t, resource, request, actor, version, now).tables, now)
  {
    LaterReflexive(t, now);
    var u := Register(cfg, t, resource, request, actor, version, now).tables;
    if u != t {
      var row := u.endpoints[resource];
      InvalidateKeeps(t, {resource}, now);
      var cleared := if resource in t.endpoints then Invalidate(t, {resource}) else t;
      assert Keeps(t, cleared, now);
      assert u == cleared.(endpoints := cleared.endpoints[resource := row]);
      assert forall g :: g in cleared.grants && cleared.grants[g].resourceId == resource ==>
                           GrantBound(cleared.endpoints, g, cleared.grants[g]) && cleared.grants[g].state == GrantRevoked;
      RebindKeeps(cleared, resource, row, now);
      KeepsTransitive(t, cleared, u, now);
    }
  }

  lemma RebindKeeps(t: Tables, resource: Id, row: Endpoint, now: Time)
    requires Invariant(t) && EndpointBound(t.enrollments, resource, row)
    requires resource in t.endpoints ==> row.owner == t.endpoints[resource].owner
    requires forall g :: g in t.grants && t.grants[g].resourceId == resource ==>
                           resource in t.endpoints && t.grants[g].state == GrantRevoked
    ensures Keeps(t, t.(endpoints := t.endpoints[resource := row]), now)
  {
    LaterReflexive(t, now);
    ReboundEndpoints(t.enrollments, t.endpoints, resource, row);
    ReboundGrants(t.endpoints, t.grants, resource, row);
    ReboundSessions(t.endpoints, t.grants, t.sessions, resource, row);
  }

  lemma ReboundEndpoints(rows: Enrollments, endpoints: Endpoints, resource: Id, row: Endpoint)
    requires EndpointsBound(rows, endpoints) && EndpointBound(rows, resource, row)
    requires resource in endpoints ==> row.owner == endpoints[resource].owner
    ensures EndpointsBound(rows, endpoints[resource := row]) && EndpointsLater(endpoints, endpoints[resource := row])
  {
  }

  lemma ReboundGrants(endpoints: Endpoints, grants: Grants, resource: Id, row: Endpoint)
    requires GrantsBound(endpoints, grants)
    requires resource in endpoints ==> row.owner == endpoints[resource].owner
    requires forall g :: g in grants && grants[g].resourceId == resource ==>
                           resource in endpoints && grants[g].state == GrantRevoked
    ensures GrantsBound(endpoints[resource := row], grants)
  {
    forall g | g in grants ensures GrantBound(endpoints[resource := row], g, grants[g]) {
      assert GrantBound(endpoints, g, grants[g]);
    }
  }

  lemma ReboundSessions(endpoints: Endpoints, grants: Grants, sessions: Sessions, resource: Id, row: Endpoint)
    requires SessionsBound(endpoints, grants, sessions)
    requires forall g :: g in grants && grants[g].resourceId == resource ==>
                           resource in endpoints && grants[g].state == GrantRevoked
    ensures SessionsBound(endpoints[resource := row], grants, sessions)
  {
    forall s | s in sessions ensures SessionBound(endpoints[resource := row], grants, sessions[s]) {
      assert SessionBound(endpoints, grants, sessions[s]);
    }
  }

  lemma OneEndpointKeeps(t: Tables, r: Id, p: Endpoint, now: Time)
    requires Invariant(t) && r in t.endpoints && EndpointEvolves(t.endpoints[r], p)
    ensures Keeps(t, SetEndpoint(t, r, p), now)
  {
    EndpointsKeep(t, t.endpoints[r := p], now);
  }

  lemma RenewResourceKeeps(cfg: Settings, t: Tables, resource: Id, generation: Id, actor: Actor, now: Time)
    requires Invariant(t)
    ensures Keeps(t, RenewResource(cfg, t, resource, generation, actor, now).tables, now)
  {
    var u := RenewResource(cfg, t, resource, generation, actor, now).tables;
    if u == t {
      KeepsEither(t, u, t, now);
    } else {
      OneEndpointKeeps(t, resource, t.endpoints[resource].(leaseExpires := now + cfg.resourceLease), now);
    }
  }

  lemma TargetsKeeps(cfg: Settings, t: Tables, gatewayId: Id, actor: Actor, minted: map<Id, Id>, now: Time)
    requires Invariant(t) && t.endpoints.Keys <= minted.Keys
    ensures Keeps(t, Targets(cfg, t, gatewayId, actor, minted, now).tables, now)
  {
    var u := Targets(cfg, t, gatewayId, actor, minted, now).tables;
    TargetsEvolve(cfg, t, gatewayId, actor, minted, now);
    EndpointsKeep(t, u.endpoints, now);
  }

  lemma TargetsEvolve(cfg: Settings, t: Tables, gatewayId: Id, actor: Actor, minted: map<Id, Id>, now: Time)
    requires t.endpoints.Keys <= minted.Keys
    ensures var u := Targets(cfg, t, gatewayId, actor, minted, now).tables;
            && u == t.(endpoints := u.endpoints) && u.endpoints.Keys == t.endpoints.Keys
            && forall r :: r in u.endpoints ==> EndpointEvolves(t.endpoints[r], u.endpoints[r])
  {
  }

  lemma ProbeMembershipKeeps(t: Tables, resource: Id, request: ProbeRequest, nodes: seq<Node>, now: Time)
    requires Invariant(t)
    ensures Keeps(t, ProbeMembership(t, resource, request, nodes, now).tables, now)
  {
    var u := ProbeMembership(t, resource, request, nodes, now).tables;
    var id, seen := ProbeWrites(t, resource, request, nodes, now);
    if u != t {
      ObserveKeeps(t, id, nodes, now);
    }
    KeepsEither(t, u, seen, now);
  }

  lemma ProbeWrites(t: Tables, resource: Id, request: ProbeRequest, nodes: seq<Node>, now: Time)
    returns (id: Id, seen: Tables)
    ensures var u := ProbeMembership(t, resource, request, nodes, now).tables;
            u == t || (u == seen && id in t.enrollments && Live(t.enrollments[id].state)
                       && seen == Observe(t, id, nodes, now).tables)
  {
    id := if resource in t.endpoints then t.endpoints[resource].enrollmentId else resource;
    seen := if id in t.enrollments then Observe(t, id, nodes, now).tables else t;
  }

  lemma ProbeKeeps(cfg: Settings, t: Tables, resource: Id, request: ProbeRequest, actor: Actor, now: Time)
    requires Invariant(t)
    ensures Keeps(t, Probe(cfg, t, resource, request, actor, now).tables, now)
  {
    var tx := Probe(cfg, t, resource, request, actor, now);
    if tx.outcome.Ok? {
      OneEndpointKeeps(t, resource, tx.outcome.value, now);
    } else {
      KeepsEither(t, tx.tables, t, now);
    }
  }

  // ------------------------------------------------------------- grants and sessions

  lemma IssueKeeps(cfg: Settings, t: Tables, request: IssueRequest, actor: Actor, jti: Id, now: Time)
    requires Invariant(t)
    ensures Keeps(t, Issue(cfg, t, request, actor, jti, now).tables, now)
  {
    var tx := Issue(cfg, t, request, actor, jti, now);
    if tx.outcome.Ok? {
      IssuedFits(cfg, t, request, actor, jti, now);
      AddGrantKeeps(t, jti, tx.tables.grants[jti], now);
    } else {
      KeepsEither(t, tx.tables, t, now);
    }
  }

  /** A new grant has an unused identifier and fits the endpoint as it is now. */
  lemma IssuedFits(cfg: Settings, t: Tables, request: IssueRequest, actor: Actor, jti: Id, now: Time)
    requires Issue(cfg, t, request, actor, jti, now).outcome.Ok?
    ensures var u := Issue(cfg, t, request, actor, jti, now).tables;
            && jti !in t.grants && jti in u.grants && u == t.(grants := t.grants[jti := u.grants[jti]])
            && GrantBound(t.endpoints, jti, u.grants[jti])
  {
  }

  lemma AddGrantKeeps(t: Tables, jti: Id, grant: Grant, now: Time)
    requires Invariant(t) && jti !in t.grants && GrantBound(t.endpoints, jti, grant)
    ensures Keeps(t, t.(grants := t.grants[jti := grant]), now)
  {
    LaterReflexive(t, now);
    AddedGrant(t.endpoints, t.grants, t.sessions, jti, grant);
  }

  lemma AddedGrant(endpoints: Endpoints, grants: Grants, sessions: Sessions, jti: Id, grant: Grant)
    requires GrantsBound(endpoints, grants) && SessionsBound(endpoints, grants, sessions)
    requires jti !in grants && GrantBound(endpoints, jti, grant)
    ensures GrantsBound(endpoints, grants[jti := grant]) && GrantsLater(grants, grants[jti := grant])
    ensures SessionsBound(endpoints, grants[jti := grant], sessions)
  {
    forall s | s in sessions ensures SessionBound(endpoints, grants[jti := grant], sessions[s]) {
      assert SessionBound(endpoints, grants, sessions[s]);
    }
  }

  lemma ClaimKeeps(cfg: Settings, t: Tables, ticket: Ticket, verified: bool, requestId: Id, actor: Actor, id: Id, now: Time)
    requires Invariant(t)
    ensures Keeps(t, Claim(cfg, t, ticket, verified, requestId, actor, id, now).tables, now)
  {
    LaterReflexive(t, now);
    var u := Claim(cfg, t, ticket, verified, requestId, actor, id, now).tables;
    if u != t {
      AdmitKeeps(t, ticket.jti, id, u.sessions[id], now);
    }
  }

  lemma AdmitKeeps(t: Tables, grantId: Id, id: Id, session: Session, now: Time)
    requires Invariant(t) && grantId in t.grants && t.grants[grantId].state == Issued
    requires id !in t.sessions && session.grantId == grantId
    requires forall s :: s in t.sessions ==> t.sessions[s].grantId != grantId
    requires forall s :: s in t.sessions && t.sessions[s].gateway == session.gateway ==>
                           t.sessions[s].requestId != session.requestId
    requires session.deadline == t.grants[grantId].deadline && session.leaseExpires <= session.deadline
    requires t.grants[grantId].resourceId in t.endpoints ==>
               session.version == t.endpoints[t.grants[grantId].resourceId].version
    ensures Keeps(t, t.(grants := t.grants[grantId := t.grants[grantId].(state := Claimed)],
                        sessions := t.sessions[id := session]), now)
  {
    LaterReflexive(t, now);
    ClaimedGrants(t.endpoints, t.grants, grantId);
    AdmittedSessions(t.endpoints, t.grants, t.sessions, grantId, id, session);
    AdmittedUnique(t.sessions, id, session, now);
  }

  lemma ClaimedGrants(endpoints: Endpoints, grants: Grants, grantId: Id)
    requires GrantsBound(endpoints, grants) && grantId in grants && grants[grantId].state == Issued
    ensures var claimed := grants[grantId := grants[grantId].(state := Claimed)];
            GrantsBound(endpoints, claimed) && GrantsLater(grants, claimed)
  {
    assert GrantBound(endpoints, grantId, grants[grantId]);
  }

  lemma AdmittedSessions(endpoints: Endpoints, grants: Grants, sessions: Sessions, grantId: Id, id: Id, session: Session)
    requires SessionsBound(endpoints, grants, sessions) && grantId in grants && grants[grantId].state == Issued
    requires session.grantId == grantId
    requires session.deadline == grants[grantId].deadline && session.leaseExpires <= session.deadline
    requires grants[grantId].resourceId in endpoints ==> session.version == endpoints[grants[grantId].resourceId].version
    ensures SessionsBound(endpoints, grants[grantId := grants[grantId].(state := Claimed)], sessions[id := session])
  {
    var claimed := grants[grantId := grants[grantId].(state := Claimed)];
    forall s | s in sessions && s != id ensures SessionBound(endpoints, claimed, sessions[s]) {
      assert SessionBound(endpoints, grants, sessions[s]);
    }
  }

  lemma AdmittedUnique(sessions: Sessions, id: Id, session: Session, now: Time)
    requires UniqueSessions(sessions) && id !in sessions
    requires forall s :: s in sessions ==> sessions[s].grantId != session.grantId
    requires forall s :: s in sessions && sessions[s].gateway == session.gateway ==>
                           sessions[s].requestId != session.requestId
    ensures UniqueSessions(sessions[id := session]) && SessionsLater(sessions, sessions[id := session], now)
  {
  }

  /** Renewal moves the lease forward, never past the deadline, and only while
      it has not lapsed.  The lease must lie within one lease of the clock. */
  lemma RenewKeeps(cfg: Settings, t: Tables, sessionId: Id, actor: Actor, now: Time)
    requires Invariant(t) && LeasesBounded(cfg, t.sessions, now)
    ensures Keeps(t, Renew(cfg, t, sessionId, actor, now).tables, now)
  {
    LaterReflexive(t, now);
    var u := Renew(cfg, t, sessionId, actor, now).tables;
    if u != t {
      var s := t.sessions[sessionId];
      assert SessionBound(t.endpoints, t.grants, s);
      OneSessionKeeps(t, sessionId, u.sessions[sessionId], now);
    }
  }

  lemma ReleaseKeeps(cfg: Settings, t: Tables, sessionId: Id, actor: Actor, now: Time)
    requires Invariant(t)
    ensures Keeps(t, ReleaseSession(cfg, t, sessionId, actor).tables, now)
  {
    LaterReflexive(t, now);
    if sessionId in t.sessions {
      var s := t.sessions[sessionId];
      assert SessionBound(t.endpoints, t.grants, s);
      OneSessionKeeps(t, sessionId, if s.state == Active then s.(state := Released) else s, now);
    }
  }

  lemma OneSessionKeeps(t: Tables, id: Id, row: Session, now: Time)
    requires Invariant(t) && id in t.sessions
    requires SessionMoves(t.sessions[id], row, now) && row.leaseExpires <= row.deadline
    ensures Keeps(t, t.(sessions := t.sessions[id := row]), now)
  {
    forall s | s in t.sessions
      ensures SessionMoves(t.sessions[s], t.sessions[id := row][s], now)
              && t.sessions[id := row][s].leaseExpires <= t.sessions[id := row][s].deadline
    {
      assert SessionBound(t.endpoints, t.grants, t.sessions[s]);
    }
    SessionsKeep(t, t.sessions[id := row], now);
  }

  lemma RevokeGrantKeeps(t: Tables, grantId: Id, actor: Actor, now: Time)
    requires Invariant(t)
    ensures Keeps(t, RevokeGrant(t, grantId, actor).tables, now)
  {
    var tx := RevokeGrant(t, grantId, actor);
    if tx.outcome.Ok? {
      LaterReflexive(t, now);
      RevokedRowsBound(t.endpoints, t.grants, t.sessions, tx.tables.grants, tx.tables.sessions, grantId, now);
    } else {
      KeepsEither(t, tx.tables, t, now);
    }
  }

  lemma RevokedRowsBound(endpoints: Endpoints, grants: Grants, sessions: Sessions, revoked: Grants, ended: Sessions,
                         grantId: Id, now: Time)
    requires GrantsBound(endpoints, grants) && SessionsBound(endpoints, grants, sessions) && UniqueSessions(sessions)
    requires grantId in grants && revoked == grants[grantId := grants[grantId].(state := GrantRevoked)]
    requires ended.Keys == sessions.Keys
    requires forall s :: s in sessions ==>
               ended[s] == if sessions[s].grantId == grantId then sessions[s].(state := SessionRevoked) else sessions[s]
    ensures GrantsBound(endpoints, revoked) && GrantsLater(grants, revoked)
    ensures SessionsBound(endpoints, revoked, ended) && UniqueSessions(ended) && SessionsLater(sessions, ended, now)
  {
    assert GrantBound(endpoints, grantId, grants[grantId]);
    forall s | s in ended ensures SessionBound(endpoints, revoked, ended[s]) {
      assert SessionBound(endpoints, grants, sessions[s]);
    }
  }

  // ------------------------------------------------------------------ reconciliation

  lemma SweepAgedKeeps(t: Tables, id: Id, nodes: Option<seq<Node>>, now: Time)
    requires Invariant(t) && id in t.enrollments
    ensures Keeps(t, SweepAged(t, id, nodes, now), now)
  {
    var e := t.enrollments[id];
    LaterReflexive(t, now);
    if Dead(e.state) {
      EnrollmentKeeps(t, id, e.(ciphertext := None, online := false), now);
    } else if nodes.Some? {
      ObserveKeeps(t, id, nodes.value, now);
      EnrollmentKeeps(t, id, e.(online := false), now);
    }
  }

  lemma SweepEnrollmentKeeps(t: Tables, id: Id, nodes: Option<seq<Node>>, started: Time, now: Time)
    requires Invariant(t) && id in t.enrollments
    ensures Keeps(t, SweepEnrollment(t, id, nodes, started, now), now)
  {
    var e := AgedState(t.enrollments[id], started);
    EnrollmentKeeps(t, id, e, now);
    SweepAgedKeeps(SetEnrollment(t, id, e), id, nodes, now);
    KeepsTransitive(t, SetEnrollment(t, id, e), SweepEnrollment(t, id, nodes, started, now), now);
  }

  lemma {:induction false} SweepEnrollmentsKeeps(t: Tables, order: seq<Id>, nodes: Option<seq<Node>>, started: Time, now: Time)
    requires Invariant(t) && forall k :: k in order ==> k in t.enrollments
    ensures Keeps(t, SweepEnrollments(t, order, nodes, started, now), now)
    decreases |order|
  {
    if order == [] {
      LaterReflexive(t, now);
    } else {
      SweepEnrollmentKeeps(t, order[0], nodes, started, now);
      var next := SweepEnrollment(t, order[0], nodes, started, now);
      SweepEnrollmentsKeeps(next, order[1..], nodes, started, now);
      KeepsTransitive(t, next, SweepEnrollments(t, order, nodes, started, now), now);
    }
  }

  lemma SweepEndpointKeeps(cfg: Settings, t: Tables, r: Id, started: Time, now: Time)
    requires Invariant(t) && r in t.endpoints
    ensures Keeps(t, SweepEndpoint(cfg, t, r, started, now), now)
  {
    var p, u := t.endpoints[r], SweepEndpoint(cfg, t, r, started, now);
    if u == t {
      KeepsEither(t, u, t, now);
    } else if p.leaseExpires <= started {
      DenyKeeps(t, {p.enrollmentId}, now);
    } else {
      OneEndpointKeeps(t, r, p.(state := if Stamped(p.probed) then Offline else Registered), now);
    }
  }

  lemma {:induction false} SweepEndpointsKeeps(cfg: Settings, t: Tables, order: seq<Id>, started: Time, now: Time)
    requires Invariant(t) && forall k :: k in order ==> k in t.endpoints
    ensures Keeps(t, SweepEndpoints(cfg, t, order, started, now), now)
    decreases |order|
  {
    if order == [] {
      LaterReflexive(t, now);
    } else {
      SweepEndpointKeeps(cfg, t, order[0], started, now);
      var next := SweepEndpoint(cfg, t, order[0], started, now);
      SweepEndpointsKeeps(cfg, next, order[1..], started, now);
      KeepsTransitive(t, next, SweepEndpoints(cfg, t, order, started, now), now);
    }
  }

  lemma SweepKeeps(cfg: Settings, t: Tables, enrollmentOrder: seq<Id>, endpointOrder: seq<Id>,
                   nodes: Option<seq<Node>>, started: Time, now: Time)
    requires Invariant(t)
    requires Lists(enrollmentOrder, t.enrollments.Keys) && Lists(endpointOrder, t.endpoints.Keys)
    ensures Keeps(t, Sweep(cfg, t, enrollmentOrder, endpointOrder, nodes, started, now), now)
  {
    var aged := SweepEnrollments(t, enrollmentOrder, nodes, started, now);
    SweepEnrollmentsKeeps(t, enrollmentOrder, nodes, started, now);
    var swept := SweepEndpoints(cfg, aged, endpointOrder, started, now);
    SweepEndpointsKeeps(cfg, aged, endpointOrder, started, now);
    KeepsTransitive(t, aged, swept, now);
    SweepSessionsKeeps(swept, started, now);
    KeepsTransitive(t, swept, SweepSessions(swept, started), now);
  }

  lemma SweepSessionsKeeps(t: Tables, started: Time, now: Time)
    requires Invariant(t)
    ensures Keeps(t, SweepSessions(t, started), now)
  {
    assert forall s :: s in t.sessions ==> SessionBound(t.endpoints, t.grants, t.sessions[s]);
    SessionsKeep(t, SweepSessions(t, started).sessions, now);
  }

  lemma FinishCleanupKeeps(cfg: Settings, t: Tables, id: Id, success: bool, started: Time, jitter: Time, now: Time)
    requires Invariant(t)
    ensures Keeps(t, FinishCleanup(cfg, t, id, success, started, jitter), now)
  {
    LaterReflexive(t, now);
    var u := FinishCleanup(cfg, t, id, success, started, jitter);
    if id in t.enrollments {
      EndpointsKeep(t, u.endpoints, now);
      var mid := t.(endpoints := u.endpoints);
      EnrollmentKeeps(mid, id, u.enrollments[id], now);
      KeepsTransitive(t, mid, mid.(enrollments := mid.enrollments[id := u.enrollments[id]]), now);
    }
  }
}
