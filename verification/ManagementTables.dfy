/**
 The four tables of the management database and the facts that hold in every
 reachable state of them.  Rows are keyed by their primary key.
 */
module ManagementTables {
  import opened Common

  /** Identifiers, digests, keys and names are opaque: only equality matters. */
  type Id = int
  type Time = real

  datatype Role = EndpointRole | GatewayRole

  datatype Actor = Controller | Gateway | Bootstrap

  datatype EnrollmentState =
    | Pending | KeyIssued | UnknownResult | Confirmed
    | Revoking | Revoked | Expired | Failed

  /** A textual address after parsing: `text` is its canonical form, `routable`
      says that it lies in a configured range and is not loopback, unspecified
      or multicast. */
  datatype Address = Malformed | Ip(text: Id, routable: bool)

  datatype Tag = RoleTag(role: Role) | OtherTag(name: Id)

  datatype Enrollment = Enrollment(
    actor: Actor,
    idempotency: string,
    requestHash: Id,
    role: Role,
    identity: Id,
    generation: Id,
    tags: seq<Tag>,
    expires: Time,
    keyId: Option<Id>,
    ciphertext: Option<Id>,
    nodeId: Option<Id>,
    ips: seq<Address>,
    observed: Option<Time>,
    online: bool,
    state: EnrollmentState,
    retries: nat,
    retryAfter: Time,
    created: Time,
    updated: Time)

  datatype EndpointState = Registered | Ready | Offline | EndpointRevoking | EndpointRevoked

  datatype Endpoint = Endpoint(
    owner: Id,
    generation: Id,
    enrollmentId: Id,
    service: Id,
    protocol: Id,
    port: int,
    version: Id,
    leaseExpires: Time,
    state: EndpointState,
    probeId: Option<Id>,
    probeExpires: Option<Time>,
    probeGateway: Option<Id>,
    probed: Option<Time>)

  datatype Purpose = Browser | Ssh

  /** The signed claims of a ticket; two tickets are the same string exactly
      when their claims agree. */
  datatype Ticket = Ticket(
    jti: Id, audience: Id, user: Id, issuedAt: Time, expires: Time,
    resourceId: Id, generation: Id, service: Id, purpose: Purpose)

  datatype GrantState = Issued | Claimed | GrantRevoked

  datatype Grant = Grant(
    user: Id,
    resourceId: Id,
    generation: Id,
    service: Id,
    gateway: Id,
    expires: Time,
    deadline: Time,
    state: GrantState,
    ticket: Ticket,
    purpose: Purpose)

  datatype SessionState = Active | Released | SessionRevoked

  datatype Session = Session(
    grantId: Id,
    gateway: Id,
    requestId: Id,
    version: Id,
    leaseExpires: Time,
    deadline: Time,
    state: SessionState)

  datatype Tables = Tables(
    enrollments: map<Id, Enrollment>,
    endpoints: map<Id, Endpoint>,
    grants: map<Id, Grant>,
    sessions: map<Id, Session>)

  const EMPTY := Tables(map[], map[], map[], map[])

  /** The lifecycle settings the services read. */
  datatype Settings = Settings(
    gatewayId: Id,
    gatewayGeneration: Id,
    enrollmentTtl: Time,
    resourceLease: Time,
    admissionTtl: Time,
    sessionMax: Time,
    sshSessionMax: Time,
    sessionLease: Time,
    observationTtl: Time,
    reconcileInterval: Time,
    ports: set<int>)

  // ---------------------------------------------------------------- vocabulary

  predicate Dead(s: EnrollmentState)
  {
    s.Revoking? || s.Revoked? || s.Expired? || s.Failed?
  }

  predicate Live(s: EnrollmentState)
  {
    !Dead(s)
  }

  predicate Withdrawn(s: EndpointState)
  {
    s.EndpointRevoking? || s.EndpointRevoked?
  }

  /** Two enrollments compete for the same role and identity. */
  predicate SameSlot(a: Enrollment, b: Enrollment)
  {
    a.role == b.role && a.identity == b.identity
  }

  /** Some other enrollment of the slot was reserved later. */
  predicate Superseded(t: Tables, id: Id)
    requires id in t.enrollments
  {
    exists k :: k in t.enrollments && SameSlot(t.enrollments[k], t.enrollments[id])
                && t.enrollments[id].created < t.enrollments[k].created
  }

  // ---------------------------------------------------------------- invariants

  type Enrollments = map<Id, Enrollment>
  type Endpoints = map<Id, Endpoint>
  type Grants = map<Id, Grant>
  type Sessions = map<Id, Session>

  /** A live enrollment is strictly the newest of its slot. */
  ghost predicate LiveIsNewest(rows: Enrollments)
  {
    forall i, j :: i in rows && j in rows && i != j && SameSlot(rows[i], rows[j]) && Live(rows[i].state)
                   ==> rows[j].created < rows[i].created
  }

  /** `created` orders each slot strictly and generations are never recycled. */
  ghost predicate UniqueGenerations(rows: Enrollments)
  {
    forall i, j :: i in rows && j in rows && i != j && SameSlot(rows[i], rows[j])
                   ==> rows[i].created != rows[j].created && rows[i].generation != rows[j].generation
  }

  /** An idempotency key names one enrollment of its actor. */
  ghost predicate UniqueKeys(rows: Enrollments)
  {
    forall i, j :: i in rows && j in rows && i != j && rows[i].actor == rows[j].actor
                   ==> rows[i].idempotency != rows[j].idempotency
  }

  /** The one-time key is stored exactly while it may be replayed, and a
      reservation whose remote result is unknown has no key identifier. */
  predicate KeyDiscipline(e: Enrollment)
  {
    && (e.ciphertext.Some? <==> e.state.KeyIssued?)
    && (e.state.Pending? || e.state.UnknownResult? ==> e.keyId == None)
    && (e.state.KeyIssued? || e.state.Confirmed? ==> e.keyId.Some?)
  }

  ghost predicate KeysDisciplined(rows: Enrollments)
  {
    forall i :: i in rows ==> KeyDiscipline(rows[i])
  }

  /** An endpoint is bound to an enrollment of its own resource and generation;
      unless it is withdrawn that enrollment is confirmed. */
  predicate EndpointBound(rows: Enrollments, r: Id, p: Endpoint)
  {
    && p.enrollmentId in rows
    && rows[p.enrollmentId].role == EndpointRole
    && rows[p.enrollmentId].identity == r
    && rows[p.enrollmentId].generation == p.generation
    && (!Withdrawn(p.state) ==> rows[p.enrollmentId].state == Confirmed)
  }

  ghost predicate EndpointsBound(rows: Enrollments, endpoints: Endpoints)
  {
    forall r :: r in endpoints ==> EndpointBound(rows, r, endpoints[r])
  }

  /** A grant that is not revoked fits its endpoint as the endpoint is now. */
  predicate GrantBound(endpoints: Endpoints, g: Id, w: Grant)
  {
    && w.resourceId in endpoints
    && w.ticket.jti == g
    && w.user == endpoints[w.resourceId].owner
    && (w.state != GrantRevoked ==>
          && !Withdrawn(endpoints[w.resourceId].state)
          && w.generation == endpoints[w.resourceId].generation
          && w.service == endpoints[w.resourceId].service)
  }

  ghost predicate GrantsBound(endpoints: Endpoints, grants: Grants)
  {
    forall g :: g in grants ==> GrantBound(endpoints, g, grants[g])
  }

  /** A session belongs to a claimed or revoked grant and ends with it; while
      the grant stands, the session has the endpoint's current version. */
  predicate SessionBound(endpoints: Endpoints, grants: Grants, x: Session)
  {
    && x.grantId in grants
    && grants[x.grantId].state != Issued
    && x.deadline == grants[x.grantId].deadline
    && x.leaseExpires <= x.deadline
    && (grants[x.grantId].state == GrantRevoked ==> x.state == SessionRevoked)
    && (grants[x.grantId].state != GrantRevoked && grants[x.grantId].resourceId in endpoints ==>
          x.version == endpoints[grants[x.grantId].resourceId].version)
  }

  ghost predicate SessionsBound(endpoints: Endpoints, grants: Grants, sessions: Sessions)
  {
    forall s :: s in sessions ==> SessionBound(endpoints, grants, sessions[s])
  }

  /** A grant admits one session; a gateway request identifier names one. */
  ghost predicate UniqueSessions(sessions: Sessions)
  {
    forall a, b :: a in sessions && b in sessions && a != b ==>
                     && sessions[a].grantId != sessions[b].grantId
                     && (sessions[a].gateway == sessions[b].gateway ==>
                           sessions[a].requestId != sessions[b].requestId)
  }

  /** No stored lease reaches more than one session lease past `clock`. */
  ghost predicate LeasesBounded(cfg: Settings, sessions: Sessions, clock: Time)
  {
    forall s :: s in sessions ==> sessions[s].leaseExpires <= clock + cfg.sessionLease
  }

  ghost predicate EnrollmentsSound(rows: Enrollments)
  {
    LiveIsNewest(rows) && UniqueGenerations(rows) && UniqueKeys(rows) && KeysDisciplined(rows)
  }

  ghost predicate Invariant(t: Tables)
  {
    && EnrollmentsSound(t.enrollments)
    && EndpointsBound(t.enrollments, t.endpoints)
    && GrantsBound(t.endpoints, t.grants)
    && SessionsBound(t.endpoints, t.grants, t.sessions)
    && UniqueSessions(t.sessions)
  }

  // ------------------------------------------------------------------- contents

  /** The same rows under the same keys. */
  ghost predicate SameMap<V>(a: map<Id, V>, b: map<Id, V>)
  {
    && (forall k :: k in a ==> k in b && a[k] == b[k])
    && (forall k :: k in b ==> k in a)
  }

  ghost predicate SameContents(t: Tables, u: Tables)
  {
    && SameMap(t.enrollments, u.enrollments)
    && SameMap(t.endpoints, u.endpoints)
    && SameMap(t.grants, u.grants)
    && SameMap(t.sessions, u.sessions)
  }

  /** The invariant depends on the contents only. */
  lemma SameContentsInvariant(t: Tables, u: Tables)
    requires SameContents(t, u) && Invariant(u)
    ensures Invariant(t)
  {
    SameEnrollmentsSound(t.enrollments, u.enrollments);
    assert EndpointsBound(t.enrollments, t.endpoints) by {
      forall r | r in t.endpoints ensures EndpointBound(t.enrollments, r, t.endpoints[r]) {
        assert EndpointBound(u.enrollments, r, u.endpoints[r]);
      }
    }
    assert GrantsBound(t.endpoints, t.grants) by {
      forall g | g in t.grants ensures GrantBound(t.endpoints, g, t.grants[g]) {
        assert GrantBound(u.endpoints, g, u.grants[g]);
      }
    }
    assert SessionsBound(t.endpoints, t.grants, t.sessions) by {
      forall s | s in t.sessions ensures SessionBound(t.endpoints, t.grants, t.sessions[s]) {
        assert SessionBound(u.endpoints, u.grants, u.sessions[s]);
      }
    }
  }

  lemma SameEnrollmentsSound(a: Enrollments, b: Enrollments)
    requires SameMap(a, b) && EnrollmentsSound(b)
    ensures EnrollmentsSound(a)
  {
  }
}
