/**
 What each transaction of the management service does to the tables.

 A transaction runs under `BEGIN IMMEDIATE`, so it is atomic; an exception rolls
 it back.  `now` is the clock inside the transaction.  A transaction's result
 pairs the tables it leaves behind with what the caller receives: an exception
 raised inside the transaction leaves the tables unchanged, one raised after the
 commit does not.
 */
module ManagementTransactions {
  import opened Common
  import opened ManagementTables

  datatype Tx<+T> = Tx(tables: Tables, outcome: Outcome<T>)

  /** An exception inside the transaction: roll back. */
  function Abort<T>(t: Tables, status: nat): (r: Tx<T>)
  {
    Tx(t, Raised(status))
  }

  function Commit<T>(t: Tables, value: T): (r: Tx<T>)
  {
    Tx(t, Ok(value))
  }

  /** No row appears or disappears, and no session lease moves. */
  ghost predicate SameRows(t: Tables, u: Tables)
  {
    && (forall s :: s in t.sessions && s in u.sessions ==>
          u.sessions[s].leaseExpires == t.sessions[s].leaseExpires)
    && (forall k :: k in u.enrollments <==> k in t.enrollments)
    && (forall k :: k in u.endpoints <==> k in t.endpoints)
    && (forall k :: k in u.grants <==> k in t.grants)
    && (forall k :: k in u.sessions <==> k in t.sessions)
  }

  // ------------------------------------------------------- denial and its cascade

  function DeniedRow(e: Enrollment, now: Time): (r: Enrollment)
  {
    e.(state := Revoking, ciphertext := None, online := false, updated := now)
  }

  function RevokeGrants(grants: map<Id, Grant>, resources: set<Id>): (r: map<Id, Grant>)
  {
    map g | g in grants ::
      if grants[g].resourceId in resources then grants[g].(state := GrantRevoked) else grants[g]
  }

  predicate OnResources(grants: map<Id, Grant>, s: Session, resources: set<Id>)
  {
    s.grantId in grants && grants[s.grantId].resourceId in resources
  }

  function RevokeSessions(sessions: map<Id, Session>, grants: map<Id, Grant>, resources: set<Id>)
    : (r: map<Id, Session>)
  {
    map s | s in sessions ::
      if OnResources(grants, sessions[s], resources)
      then sessions[s].(state := SessionRevoked) else sessions[s]
  }

  /** Revoke every grant of these resources, and the sessions of those grants. */
  function Invalidate(t: Tables, resources: set<Id>): (r: Tables)
    ensures SameRows(t, r)
  {
    t.(grants := RevokeGrants(t.grants, resources),
       sessions := RevokeSessions(t.sessions, t.grants, resources))
  }

  function BoundTo(t: Tables, ids: set<Id>): (r: set<Id>)
  {
    set r | r in t.endpoints && t.endpoints[r].enrollmentId in ids
  }

  /** Deny a set of enrollments: the rows themselves, the endpoints bound to
      them, and the grants and sessions of those endpoints. */
  function Deny(t: Tables, ids: set<Id>, now: Time): (r: Tables)
    ensures SameRows(t, r)
  {
    Invalidate(
      t.(enrollments := map k | k in t.enrollments ::
           if k in ids then DeniedRow(t.enrollments[k], now) else t.enrollments[k],
         endpoints := map r | r in t.endpoints ::
           if t.endpoints[r].enrollmentId in ids
           then t.endpoints[r].(state := EndpointRevoking) else t.endpoints[r]),
      BoundTo(t, ids))
  }

  // ------------------------------------------------------------------- enrollment

  datatype EnrollRequest = EnrollRequest(role: Role, identity: Id, generation: Id)

  datatype EnrollReply =
    | IssuedKey(enrollmentId: Id, key: Id)
    | Reserved(enrollmentId: Id)

  ghost function ByIdempotency(rows: Enrollments, actor: Actor, key: string): (r: Option<Id>)
    ensures r.Some? ==> r.value in rows && rows[r.value].actor == actor
                        && rows[r.value].idempotency == key
    ensures r.None? ==> forall k :: k in rows && rows[k].actor == actor ==>
                                      rows[k].idempotency != key
  {
    if k :| k in rows && rows[k].actor == actor && rows[k].idempotency == key
    then Some(k) else None
  }

  function Slot(rows: Enrollments, role: Role, identity: Id): (r: set<Id>)
  {
    set k | k in rows && rows[k].role == role && rows[k].identity == identity
  }

  lemma {:induction false} LatestExists(rows: map<Id, Enrollment>, ids: set<Id>)
    requires ids != {} && ids <= rows.Keys
    ensures exists k :: k in ids && forall j :: j in ids ==> rows[j].created <= rows[k].created
    decreases ids
  {
    Inhabited(ids);
    var x :| x in ids;
    if ids != {x} {
      var rest := ids - {x};
      assert rest != {};
      LatestExists(rows, rest);
      var k :| k in rest && forall j :: j in rest ==> rows[j].created <= rows[k].created;
      var m := if rows[k].created <= rows[x].created then x else k;
      assert forall j :: j in ids ==> rows[j].created <= rows[m].created;
    } else {
      assert x in ids && forall j :: j in ids ==> rows[j].created <= rows[x].created;
    }
  }

  /** The first row of the slot in descending `created` order. */
  ghost function Latest(rows: Enrollments, role: Role, identity: Id): (r: Option<Id>)
    ensures r.None? <==> Slot(rows, role, identity) == {}
    ensures r.Some? ==> r.value in Slot(rows, role, identity)
                        && forall j :: j in Slot(rows, role, identity) ==>
                                         rows[j].created <= rows[r.value].created
  {
    var ids := Slot(rows, role, identity);
    if ids == {} then None else
      LatestExists(rows, ids);
      var k :| k in ids && forall j :: j in ids ==> rows[j].created <= rows[k].created;
      Some(k)
  }

  /** A fresh `created` stamp: the request's clock, pushed past the slot's latest. */
  ghost function NextCreated(rows: Enrollments, role: Role, identity: Id, requested: Time): (r: Time)
    ensures requested <= r
    ensures forall j :: j in Slot(rows, role, identity) ==> rows[j].created < r
  {
    match Latest(rows, role, identity)
    case None => requested
    case Some(k) =>
      var bumped := rows[k].created + 0.000001;
      if bumped <= requested then requested else bumped
  }

  /** `replay`: hand a stored one-time key out again. */
  function Replay(id: Id, e: Enrollment, now: Time): (r: Outcome<EnrollReply>)
  {
    if e.expires <= now then Raised(410)
    else if e.state != KeyIssued || e.ciphertext == None then
      Raised(if e.state == Pending || e.state == UnknownResult then 503 else 410)
    else Ok(IssuedKey(id, e.ciphertext.value))
  }

  /** The other enrollments of the slot that a new reservation denies. */
  function Displaced(t: Tables, role: Role, identity: Id): (r: set<Id>)
  {
    set k | k in Slot(t.enrollments, role, identity) && (t.enrollments[k].state != Revoked && t.enrollments[k].state != Expired && t.enrollments[k].state != Failed)
  }

  /** The refusals of `enroll` that need no database. */
  function EnrollRefused(cfg: Settings, request: EnrollRequest, actor: Actor, idempotency: Option<string>): (r: Option<nat>)
  {
    if actor != Controller && actor != Bootstrap then Some(403)
    else if idempotency == None || |idempotency.value| == 0 || 128 < |idempotency.value| then Some(422)
    else if request.role == GatewayRole
            && (request.identity != cfg.gatewayId || request.generation != cfg.gatewayGeneration) then Some(403)
    else if actor == Bootstrap && request.role != GatewayRole then Some(403)
    else None
  }

  function PendingRow(cfg: Settings, request: EnrollRequest, digest: Id, actor: Actor, idempotency: string,
                      created: Time, requested: Time): (r: Enrollment)
  {
    Enrollment(actor, idempotency, digest, request.role, request.identity, request.generation,
               [RoleTag(request.role)], requested + cfg.enrollmentTtl, None, None, None, [], None, false, Pending,
               0, 0.0, created, requested)
  }

  /** First transaction of `enroll`: replay, refuse, or reserve a generation and
      deny every older one.  `requested` is the clock read before the lock. */
  ghost function Reserve(cfg: Settings, t: Tables, request: EnrollRequest, digest: Id, actor: Actor,
                         idempotency: Option<string>, id: Id, requested: Time, now: Time)
    : (r: Tx<EnrollReply>)
  {
    match EnrollRefused(cfg, request, actor, idempotency)
    case Some(status) => Abort(t, status)
    case None =>
      match ByIdempotency(t.enrollments, actor, idempotency.value)
      case Some(k) =>
        if t.enrollments[k].requestHash != digest then Abort(t, 409)
        else Tx(t, Replay(k, t.enrollments[k], now))
      case None =>
        if exists k :: k in Slot(t.enrollments, request.role, request.identity)
                       && t.enrollments[k].generation == request.generation then Abort(t, 409)
        else if id in t.enrollments then Abort(t, 500)
        else
          var row := PendingRow(cfg, request, digest, actor, idempotency.value,
                                NextCreated(t.enrollments, request.role, request.identity, requested), requested);
          var denied := Deny(t, Displaced(t, request.role, request.identity), now);
          Commit(denied.(enrollments := denied.enrollments[id := row]), Reserved(id))
  }

  /** Last transaction of `enroll` when the remote key exists.  The denial of a
      reservation that lost a race is committed; the exception comes after. */
  function CompleteKey(t: Tables, id: Id, keyId: Id, key: Id, now: Time): (r: Tx<EnrollReply>)
  {
    if id !in t.enrollments then Abort(t, 404)
    else
      var row := t.enrollments[id].(keyId := Some(keyId), updated := now);
      if row.state != Pending || row.expires <= now then
        Tx(Deny(t.(enrollments := t.enrollments[id := row]), {id}, now), Raised(410))
      else
        var issued := row.(ciphertext := Some(key), state := KeyIssued);
        Tx(t.(enrollments := t.enrollments[id := issued]), Replay(id, issued, now))
  }

  /** Last transaction of `enroll` when the control plane failed. */
  function FailKey(t: Tables, id: Id, unknown: bool): (r: Tx<EnrollReply>)
  {
    if id !in t.enrollments then Abort(t, 404)
    else if t.enrollments[id].state != Pending then Tx(t, Raised(503))
    else
      var row := t.enrollments[id].(state := if unknown then UnknownResult else Failed);
      Tx(t.(enrollments := t.enrollments[id := row]), Raised(503))
  }

  /** `current`: refuse a superseded or dead enrollment. */
  function Current(t: Tables, id: Id): (r: Outcome<()>)
    requires id in t.enrollments
  {
    if Superseded(t, id) then Raised(409)
    else if Dead(t.enrollments[id].state) then Raised(410)
    else Ok(())
  }

  /** A node as the control plane lists it. */
  datatype Node = Node(
    id: Id, keyId: Id, tags: seq<Tag>, ips: seq<Address>, online: bool,
    expiry: Option<Time>, ephemeral: bool, reusable: bool)

  function Matching(nodes: seq<Node>, keyId: Option<Id>): (r: seq<Node>)
  {
    if nodes == [] then []
    else (if Some(nodes[0].keyId) == keyId then [nodes[0]] else []) + Matching(nodes[1..], keyId)
  }

  predicate AcceptableAddresses(ips: seq<Address>, excluded: set<Id>)
  {
    ips != [] && forall a :: a in ips ==> a.Ip? && a.routable && a.text !in excluded
  }

  function Texts(ips: seq<Address>): (r: set<Id>)
  {
    set a | a in ips && a.Ip? :: a.text
  }

  /** The addresses an endpoint may not use: those of every gateway row. */
  function GatewayTexts(t: Tables): (r: set<Id>)
  {
    set k, a | k in t.enrollments && t.enrollments[k].role == GatewayRole && a in t.enrollments[k].ips && a.Ip? :: a.text
  }

  predicate NodeFits(e: Enrollment, node: Node)
  {
    && multiset(node.tags) == multiset(e.tags)
    && node.ephemeral == (e.role == EndpointRole)
    && !node.reusable
    && (e.nodeId == None || e.nodeId == Some(node.id))
  }

  predicate NodeGone(node: Node, now: Time)
  {
    !node.online || (node.expiry.Some? && node.expiry.value != 0.0 && node.expiry.value <= now)
  }

  function SetOnline(t: Tables, id: Id, online: bool): (r: Tables)
    requires id in t.enrollments
  {
    t.(enrollments := t.enrollments[id := t.enrollments[id].(online := online)])
  }

  /** What a node list says about an enrollment: no fitting node that is online,
      an address it must not have, a changed address, or a verified node. */
  datatype Sight = Unverified | Unroutable | Moved | Verified(node: Node)

  function Look(e: Enrollment, gateways: set<Id>, nodes: seq<Node>, now: Time): (r: Sight)
    ensures r.Verified? ==> e.keyId.Some?
  {
    var found := Matching(nodes, e.keyId);
    if |found| != 1 || !NodeFits(e, found[0]) then Unverified
    else
      var node := found[0];
      MatchingKey(nodes, e.keyId);
      assert node in found;
      if !AcceptableAddresses(node.ips, if e.role == EndpointRole then gateways else {}) then Unroutable
      else if NodeGone(node, now) then Unverified
      else if e.ips != [] && e.ips != node.ips then Moved
      else Verified(node)
  }

  lemma {:induction false} MatchingKey(nodes: seq<Node>, keyId: Option<Id>)
    ensures forall n :: n in Matching(nodes, keyId) ==> n in nodes && keyId == Some(n.keyId)
  {
    if nodes != [] {
      MatchingKey(nodes[1..], keyId);
    }
  }

  function ConfirmedRow(e: Enrollment, node: Node, now: Time): (r: Enrollment)
  {
    e.(nodeId := Some(node.id), ips := node.ips, observed := Some(now), online := true,
       state := Confirmed, ciphertext := None)
  }

  /** `observe`: match an enrollment against a node list.  The tables carry the
      writes made before the outcome, which the caller may still roll back. */
  function Observe(t: Tables, id: Id, nodes: seq<Node>, now: Time): (r: Tx<bool>)
    requires id in t.enrollments
    ensures SameRows(t, r.tables)
  {
    match Look(t.enrollments[id], GatewayTexts(t), nodes, now)
    case Unverified => Commit(SetOnline(t, id, false), false)
    case Unroutable => Tx(t, Raised(422))
    case Moved => Commit(Deny(t, {id}, now), false)
    case Verified(node) =>
      Commit(t.(enrollments := t.enrollments[id := ConfirmedRow(t.enrollments[id], node, now)]), true)
  }

  /** Second transaction of `confirm`, after the node list arrived. */
  function Confirm(t: Tables, id: Id, nodes: seq<Node>, now: Time): (r: Tx<()>)
  {
    if id !in t.enrollments then Abort(t, 404)
    else if Current(t, id).Raised? then Abort(t, Current(t, id).status)
    else if t.enrollments[id].state != Confirmed && t.enrollments[id].expires <= now then Abort(t, 410)
    else
      var seen := Observe(t, id, nodes, now);
      match seen.outcome
      case Raised(status) => Abort(t, status)
      case Ok(verified) => if verified then Commit(seen.tables, ()) else Abort(t, 409)
  }

  function RevokeEnrollment(t: Tables, id: Id, actor: Actor, now: Time): (r: Tx<()>)
  {
    if actor != Controller then Abort(t, 403)
    else if id !in t.enrollments then Abort(t, 404)
    else Commit(Deny(t, {id}, now), ())
  }

  // --------------------------------------------------------------------- endpoints

  predicate Membership(cfg: Settings, e: Enrollment, now: Time)
  {
    e.state == Confirmed && e.online && e.observed.Some? && now < e.observed.value + cfg.observationTtl
  }

  /** The configured gateway's enrollment, if its membership is fresh. */
  ghost function GatewayRow(cfg: Settings, rows: Enrollments, now: Time): (r: Option<Id>)
    ensures r.Some? ==> r.value in rows && rows[r.value].role == GatewayRole && Membership(cfg, rows[r.value], now)
  {
    if k :| k in Slot(rows, GatewayRole, cfg.gatewayId) && rows[k].generation == cfg.gatewayGeneration
    then (if Membership(cfg, rows[k], now) then Some(k) else None)
    else None
  }

  /** Python truth of an optional timestamp. */
  predicate Stamped(stamp: Option<Time>)
  {
    stamp.Some? && stamp.value != 0.0
  }

  /** `available`: may traffic be directed at this endpoint?  On success the
      enrollment whose addresses serve it. */
  ghost function Available(cfg: Settings, rows: Enrollments, p: Endpoint, ready: bool, now: Time): (r: Outcome<Id>)
    ensures r.Ok? ==> r.value == p.enrollmentId && p.enrollmentId in rows
  {
    if Withdrawn(p.state) then Raised(410)
    else if p.enrollmentId !in rows then Raised(404)
    else if p.leaseExpires <= now || !Membership(cfg, rows[p.enrollmentId], now) then Raised(404)
    else if ready && (p.state != Ready || !Stamped(p.probed) || p.probed.value + cfg.observationTtl <= now)
    then Raised(404)
    else
      match GatewayRow(cfg, rows, now)
      case None => Raised(503)
      case Some(g) =>
        if AcceptableAddresses(rows[p.enrollmentId].ips, Texts(rows[g].ips))
        then Ok(p.enrollmentId) else Raised(422)
  }

  datatype RegisterRequest = RegisterRequest(
    owner: Id, enrollmentId: Id, generation: Id, service: Id, protocol: Id, port: int)

  function RegisteredRow(cfg: Settings, request: RegisterRequest, owner: Id, version: Id,
                         previous: Option<Endpoint>, now: Time): (r: Endpoint)
  {
    Endpoint(owner, request.generation, request.enrollmentId, request.service, request.protocol, request.port,
             version, now + cfg.resourceLease, Registered, None,
             if previous.Some? then previous.value.probeExpires else None,
             if previous.Some? then previous.value.probeGateway else None,
             None)
  }

  function Register(cfg: Settings, t: Tables, resource: Id, request: RegisterRequest, actor: Actor,
                    version: Id, now: Time): (r: Tx<Endpoint>)
  {
    if actor != Controller then Abort(t, 403)
    else if request.enrollmentId !in t.enrollments then Abort(t, 404)
    else
      var e := t.enrollments[request.enrollmentId];
      if e.role != EndpointRole || e.identity != resource then Abort(t, 422)
      else if e.generation != request.generation then Abort(t, 409)
      else if Superseded(t, request.enrollmentId) then Abort(t, 409)
      else if !Membership(cfg, e, now) || request.port !in cfg.ports then Abort(t, 422)
      else if resource in t.endpoints then
        var p := t.endpoints[resource];
        if p.owner != request.owner then Abort(t, 403)
        else if p.enrollmentId == request.enrollmentId then
          if (p.service, p.port, p.protocol) != (request.service, request.port, request.protocol)
          then Abort(t, 409) else Commit(t, p)
        else
          var row := RegisteredRow(cfg, request, p.owner, version, Some(p), now);
          var cleared := Invalidate(t, {resource});
          Commit(cleared.(endpoints := cleared.endpoints[resource := row]), row)
      else
        var row := RegisteredRow(cfg, request, request.owner, version, None, now);
        Commit(t.(endpoints := t.endpoints[resource := row]), row)
  }

  function SetEndpoint(t: Tables, r: Id, p: Endpoint): (u: Tables)
  {
    t.(endpoints := t.endpoints[r := p])
  }

  function RenewResource(cfg: Settings, t: Tables, resource: Id, generation: Id, actor: Actor, now: Time): (r: Tx<Endpoint>)
  {
    if actor != Controller then Abort(t, 403)
    else if resource !in t.endpoints then Abort(t, 404)
    else
      var p := t.endpoints[resource];
      if p.generation != generation then Abort(t, 409)
      else if Withdrawn(p.state) || p.leaseExpires <= now then Abort(t, 410)
      else
        var row := p.(leaseExpires := now + cfg.resourceLease);
        Commit(SetEndpoint(t, resource, row), row)
  }

  /** A probe assignment stays stable until it is answered or expires. */
  function Assigned(cfg: Settings, p: Endpoint, probeId: Id, now: Time): (r: Endpoint)
  {
    if p.probeId == None || p.probeExpires == None || p.probeExpires.value <= now
    then p.(probeId := Some(probeId), probeExpires := Some(now + cfg.observationTtl), probeGateway := Some(cfg.gatewayId))
    else p
  }

  /** `targets`: give every reachable endpoint a probe assignment. `minted` holds
      the identifiers generated for this call. */
  ghost function Targets(cfg: Settings, t: Tables, gatewayId: Id, actor: Actor, minted: map<Id, Id>, now: Time): (r: Tx<set<Id>>)
    requires t.endpoints.Keys <= minted.Keys
  {
    if actor != Gateway then Abort(t, 403)
    else if gatewayId != cfg.gatewayId then Abort(t, 403)
    else if GatewayRow(cfg, t.enrollments, now) == None then Abort(t, 503)
    else
      var reachable := set r | r in t.endpoints && Available(cfg, t.enrollments, t.endpoints[r], false, now).Ok?;
      Commit(
        t.(endpoints := map r | r in t.endpoints ::
             if r in reachable then Assigned(cfg, t.endpoints[r], minted[r], now) else t.endpoints[r]),
        reachable)
  }

  datatype ProbeRequest = ProbeRequest(generation: Id, version: Id, probeId: Id, success: bool)

  /** The transaction the probe route runs first for a reported success: the
      membership is read again and must still be verified. */
  function ProbeMembership(t: Tables, resource: Id, request: ProbeRequest, nodes: seq<Node>, now: Time): (r: Tx<()>)
  {
    if resource !in t.endpoints then Abort(t, 404)
    else
      var p := t.endpoints[resource];
      if p.generation != request.generation || p.version != request.version then Abort(t, 409)
      else if p.enrollmentId !in t.enrollments then Abort(t, 404)
      else if Current(t, p.enrollmentId).Raised? then Abort(t, Current(t, p.enrollmentId).status)
      else
        var seen := Observe(t, p.enrollmentId, nodes, now);
        match seen.outcome
        case Raised(status) => Abort(t, status)
        case Ok(verified) => if verified then Commit(seen.tables, ()) else Abort(t, 404)
  }

  ghost function Probe(cfg: Settings, t: Tables, resource: Id, request: ProbeRequest, actor: Actor, now: Time): (r: Tx<Endpoint>)
  {
    if actor != Gateway then Abort(t, 403)
    else if resource !in t.endpoints then Abort(t, 404)
    else
      var p := t.endpoints[resource];
      if p.generation != request.generation then Abort(t, 409)
      else
        match Available(cfg, t.enrollments, p, false, now)
        case Raised(status) => Abort(t, status)
        case Ok(_) =>
          if request.version != p.version || Some(request.probeId) != p.probeId
             || p.probeGateway != Some(cfg.gatewayId) then Abort(t, 409)
          else if p.probeExpires == None then Abort(t, 500)
          else if p.probeExpires.value <= now then Abort(t, 409)
          else
            var row := p.(state := if request.success then Ready else Offline,
                          probed := if request.success then Some(now) else None,
                          probeId := None);
            Commit(SetEndpoint(t, resource, row), row)
  }

  function RevokeEndpoint(t: Tables, resource: Id, actor: Actor, now: Time): (r: Tx<()>)
  {
    if actor != Controller then Abort(t, 403)
    else if resource !in t.endpoints then Abort(t, 404)
    else if t.endpoints[resource].enrollmentId !in t.enrollments then Abort(t, 404)
    else Commit(Deny(t, {t.endpoints[resource].enrollmentId}, now), ())
  }

  // ------------------------------------------------------------- grants and sessions

  datatype IssueRequest = IssueRequest(
    user: Id, resourceId: Id, generation: Id, service: Id, gatewayId: Id, purpose: Purpose)

  ghost function Issue(cfg: Settings, t: Tables, request: IssueRequest, actor: Actor, jti: Id, now: Time): (r: Tx<Ticket>)
  {
    if actor != Controller then Abort(t, 403)
    else if request.resourceId !in t.endpoints then Abort(t, 404)
    else
      var p := t.endpoints[request.resourceId];
      if request.user != p.owner || request.gatewayId != cfg.gatewayId then Abort(t, 403)
      else if p.generation != request.generation then Abort(t, 409)
      else if p.service != request.service then Abort(t, 404)
      else
        match Available(cfg, t.enrollments, p, true, now)
        case Raised(status) => Abort(t, status)
        case Ok(_) =>
          if jti in t.grants then Abort(t, 500)
          else
            var second := now.Floor as real;
            var cap := if request.purpose == Ssh then cfg.sshSessionMax else cfg.sessionMax;
            var ticket := Ticket(jti, request.gatewayId, request.user, second, second + cfg.admissionTtl,
                                 request.resourceId, p.generation, p.service, request.purpose);
            var grant := Grant(request.user, request.resourceId, p.generation, p.service, request.gatewayId,
                               second + cfg.admissionTtl, second + cap, Issued, ticket, request.purpose);
            Commit(t.(grants := t.grants[jti := grant]), ticket)
  }

  /** What the gateway receives about a session. */
  datatype Destination = Destination(
    sessionId: Id, user: Id, resourceId: Id, generation: Id, version: Id, service: Id,
    ips: seq<Address>, port: int, leaseExpires: Time, deadline: Time)

  /** `destination`: the single guard every use of a session passes. */
  ghost function Route(cfg: Settings, t: Tables, sessionId: Id, now: Time): (r: Outcome<Destination>)
    requires sessionId in t.sessions
  {
    var s := t.sessions[sessionId];
    if s.grantId !in t.grants then Raised(404)
    else
      var g := t.grants[s.grantId];
      if g.resourceId !in t.endpoints then Raised(404)
      else
        var p := t.endpoints[g.resourceId];
        if s.state != Active || g.state != Claimed || s.deadline <= now || s.leaseExpires <= now
           || p.generation != g.generation || p.version != s.version then Raised(410)
        else
          match Available(cfg, t.enrollments, p, true, now)
          case Raised(status) => Raised(status)
          case Ok(e) =>
            Ok(Destination(sessionId, g.user, g.resourceId, p.generation, s.version, p.service,
                           t.enrollments[e].ips, p.port, s.leaseExpires, s.deadline))
  }

  ghost function SessionOf(sessions: Sessions, grantId: Id): (r: Option<Id>)
    ensures r.Some? ==> r.value in sessions && sessions[r.value].grantId == grantId
    ensures r.None? ==> forall s :: s in sessions ==> sessions[s].grantId != grantId
  {
    if s :| s in sessions && sessions[s].grantId == grantId then Some(s) else None
  }

  predicate RequestUsed(cfg: Settings, sessions: Sessions, requestId: Id)
  {
    exists s :: s in sessions && sessions[s].gateway == cfg.gatewayId && sessions[s].requestId == requestId
  }

  /** `claim`: redeem a ticket.  `verified` says that the ticket's signature and
      audience check against a key valid now. */
  ghost function Claim(cfg: Settings, t: Tables, ticket: Ticket, verified: bool, requestId: Id, actor: Actor,
                       id: Id, now: Time): (r: Tx<Destination>)
  {
    if actor != Gateway then Abort(t, 403)
    else if !verified || now < ticket.issuedAt then Abort(t, 401)
    else if ticket.jti !in t.grants then Abort(t, 404)
    else
      var g := t.grants[ticket.jti];
      if g.ticket != ticket || g.gateway != cfg.gatewayId then Abort(t, 401)
      else
        match SessionOf(t.sessions, ticket.jti)
        case Some(s) =>
          if t.sessions[s].requestId != requestId || t.sessions[s].gateway != cfg.gatewayId then Abort(t, 410)
          else Tx(t, Route(cfg, t, s, now))
        case None =>
          if g.state != Issued || g.expires <= now then Abort(t, 410)
          else if RequestUsed(cfg, t.sessions, requestId) then Abort(t, 409)
          else if g.resourceId !in t.endpoints then Abort(t, 404)
          else
            var p := t.endpoints[g.resourceId];
            if p.generation != g.generation then Abort(t, 409)
            else if Available(cfg, t.enrollments, p, true, now).Raised? then Abort(t, Available(cfg, t.enrollments, p, true, now).status)
            else if id in t.sessions then Abort(t, 500)
            else
              var session := Session(ticket.jti, cfg.gatewayId, requestId, p.version,
                                     Least(now + cfg.sessionLease, g.deadline), g.deadline, Active);
              var t' := t.(grants := t.grants[ticket.jti := g.(state := Claimed)],
                           sessions := t.sessions[id := session]);
              match Route(cfg, t', id, now)
              case Raised(status) => Abort(t, status)
              case Ok(d) => Commit(t', d)
  }

  ghost function Renew(cfg: Settings, t: Tables, sessionId: Id, actor: Actor, now: Time): (r: Tx<Destination>)
  {
    if actor != Gateway then Abort(t, 403)
    else if sessionId !in t.sessions then Abort(t, 404)
    else if t.sessions[sessionId].gateway != cfg.gatewayId then Abort(t, 403)
    else
      match Route(cfg, t, sessionId, now)
      case Raised(status) => Abort(t, status)
      case Ok(_) =>
        var s := t.sessions[sessionId];
        var t' := t.(sessions := t.sessions[sessionId :=
          s.(leaseExpires := Least(now + cfg.sessionLease, s.deadline))]);
        match Route(cfg, t', sessionId, now)
        case Raised(status) => Abort(t, status)
        case Ok(d) => Commit(t', d)
  }

  function ReleaseSession(cfg: Settings, t: Tables, sessionId: Id, actor: Actor): (r: Tx<SessionState>)
  {
    if actor != Gateway then Abort(t, 403)
    else if sessionId !in t.sessions then Abort(t, 404)
    else if t.sessions[sessionId].gateway != cfg.gatewayId then Abort(t, 403)
    else
      var s := t.sessions[sessionId];
      var row := if s.state == Active then s.(state := Released) else s;
      Commit(t.(sessions := t.sessions[sessionId := row]), row.state)
  }

  function RevokeGrant(t: Tables, grantId: Id, actor: Actor): (r: Tx<()>)
  {
    if actor != Controller then Abort(t, 403)
    else if grantId !in t.grants then Abort(t, 404)
    else
      Commit(
        t.(grants := t.grants[grantId := t.grants[grantId].(state := GrantRevoked)],
           sessions := map s | s in t.sessions ::
             if t.sessions[s].grantId == grantId
             then t.sessions[s].(state := SessionRevoked) else t.sessions[s]),
        ())
  }

  // ------------------------------------------------------------------ reconciliation

  /** Remote objects to delete for one enrollment. */
  datatype Cleanup = Cleanup(enrollmentId: Id, keyId: Option<Id>, nodeIds: seq<Id>)

  function NodeIds(nodes: seq<Node>): (r: seq<Id>)
  {
    if nodes == [] then [] else [nodes[0].id] + NodeIds(nodes[1..])
  }

  /** The remote objects that belong to a dead enrollment: its key, the nodes
      that used it, and the node it was confirmed with. */
  function CleanupFor(id: Id, e: Enrollment, nodes: seq<Node>): (r: Cleanup)
  {
    var exact := NodeIds(Matching(nodes, e.keyId));
    Cleanup(id, e.keyId, if e.nodeId.Some? && e.nodeId.value !in exact then exact + [e.nodeId.value] else exact)
  }

  function AgedState(e: Enrollment, started: Time): (r: Enrollment)
  {
    if (e.state == KeyIssued || e.state == UnknownResult || e.state == Pending) && e.expires <= started
    then e.(state := Expired, ciphertext := None) else e
  }

  /** A sweep started at `started` finds the enrollment dead and may try, or try
      again, to clean up after it. */
  predicate Due(e: Enrollment, started: Time)
  {
    var aged := AgedState(e, started);
    (aged.state == Revoking || aged.state == Revoked || aged.state == Expired) && aged.retryAfter <= started
  }

  function CleanupOf(id: Id, e: Enrollment, nodes: Option<seq<Node>>, started: Time): (r: seq<Cleanup>)
  {
    if nodes.Some? && Due(e, started) then [CleanupFor(id, e, nodes.value)] else []
  }

  /** The cleanups of the rows as they were before the sweep, in its order. */
  function CleanupList(rows: Enrollments, order: seq<Id>, nodes: Option<seq<Node>>, started: Time): (r: seq<Cleanup>)
    requires forall k :: k in order ==> k in rows
    decreases |order|
  {
    if order == [] then []
    else
      var last := order[|order| - 1];
      CleanupList(rows, order[..|order| - 1], nodes, started) + CleanupOf(last, rows[last], nodes, started)
  }

  function SetEnrollment(t: Tables, id: Id, e: Enrollment): (r: Tables)
  {
    t.(enrollments := t.enrollments[id := e])
  }

  /** The sweep of one enrollment whose expiry was already applied: take a dead
      one offline, observe one that has or had a key. */
  function SweepAged(t: Tables, id: Id, nodes: Option<seq<Node>>, now: Time): (r: Tables)
    requires id in t.enrollments
    ensures SameRows(t, r)
  {
    var e := t.enrollments[id];
    if e.state == Revoking || e.state == Revoked || e.state == Expired then
      SetEnrollment(t, id, e.(ciphertext := None, online := false))
    else if nodes.Some? && (e.state == KeyIssued || e.state == Confirmed) then
      var seen := Observe(t, id, nodes.value, now);
      if seen.outcome.Raised? then SetOnline(t, id, false) else seen.tables
    else t
  }

  /** One enrollment of the sweep.  `started` is the clock before the node list
      was fetched, `now` the clock inside the transaction. */
  function SweepEnrollment(t: Tables, id: Id, nodes: Option<seq<Node>>, started: Time, now: Time): (r: Tables)
    requires id in t.enrollments
    ensures SameRows(t, r)
  {
    SweepAged(SetEnrollment(t, id, AgedState(t.enrollments[id], started)), id, nodes, now)
  }

  function SweepEnrollments(t: Tables, order: seq<Id>, nodes: Option<seq<Node>>, started: Time, now: Time): (r: Tables)
    requires forall k :: k in order ==> k in t.enrollments
    ensures SameRows(t, r)
    decreases |order|
  {
    if order == [] then t
    else
      var next := SweepEnrollment(t, order[0], nodes, started, now);
      SweepEnrollments(next, order[1..], nodes, started, now)
  }

  /** One endpoint of the sweep. */
  function SweepEndpoint(cfg: Settings, t: Tables, r: Id, started: Time, now: Time): (u: Tables)
    requires r in t.endpoints
    ensures SameRows(t, u)
  {
    var p := t.endpoints[r];
    if Withdrawn(p.state) || p.enrollmentId !in t.enrollments then t
    else if p.leaseExpires <= started then Deny(t, {p.enrollmentId}, now)
    else if !Membership(cfg, t.enrollments[p.enrollmentId], now) || !Stamped(p.probed)
            || p.probed.value + cfg.observationTtl <= started
    then SetEndpoint(t, r, p.(state := if Stamped(p.probed) then Offline else Registered))
    else t
  }

  function SweepEndpoints(cfg: Settings, t: Tables, order: seq<Id>, started: Time, now: Time): (u: Tables)
    requires forall k :: k in order ==> k in t.endpoints
    ensures SameRows(t, u)
    decreases |order|
  {
    if order == [] then t
    else SweepEndpoints(cfg, SweepEndpoint(cfg, t, order[0], started, now), order[1..], started, now)
  }

  predicate Lapsed(s: Session, started: Time)
  {
    s.leaseExpires <= started || s.deadline <= started
  }

  function SweepSessions(t: Tables, started: Time): (r: Tables)
  {
    t.(sessions := map s | s in t.sessions ::
         if t.sessions[s].state == Active && Lapsed(t.sessions[s], started)
         then t.sessions[s].(state := SessionRevoked) else t.sessions[s])
  }

  predicate Lists(order: seq<Id>, keys: set<Id>)
  {
    (forall k :: k in order ==> k in keys) && (forall k :: k in keys ==> k in order)
  }

  /** Each row is read once. */
  ghost predicate NoRepeats(order: seq<Id>)
  {
    forall i, j :: 0 <= i < j < |order| ==> order[i] != order[j]
  }

  /** The sweep transaction of `Reconciler.once`; the row orders are the
      database's choice. */
  function Sweep(cfg: Settings, t: Tables, enrollmentOrder: seq<Id>, endpointOrder: seq<Id>,
                 nodes: Option<seq<Node>>, started: Time, now: Time): (r: Tables)
    requires Lists(enrollmentOrder, t.enrollments.Keys) && Lists(endpointOrder, t.endpoints.Keys)
  {
    var aged := SweepEnrollments(t, enrollmentOrder, nodes, started, now);
    SweepSessions(SweepEndpoints(cfg, aged, endpointOrder, started, now), started)
  }

  /** Back-off after a failed cleanup, without its random fraction. */
  function Backoff(retries: nat): (r: Time)
  {
    if 5 <= retries then 30.0 else
    if retries == 4 then 16.0 else if retries == 3 then 8.0 else if retries == 2 then 4.0 else
    if retries == 1 then 2.0 else 1.0
  }

  /** The transaction after a remote cleanup finished or failed. */
  function FinishCleanup(cfg: Settings, t: Tables, id: Id, success: bool, started: Time, jitter: Time): (r: Tables)
  {
    if id !in t.enrollments then t
    else
      var e := t.enrollments[id];
      if success then
        t.(enrollments := t.enrollments[id :=
             e.(state := if e.state == Revoking then Revoked else e.state,
                retryAfter := started + cfg.reconcileInterval)],
           endpoints := map r | r in t.endpoints ::
             if t.endpoints[r].enrollmentId == id && t.endpoints[r].state == EndpointRevoking
             then t.endpoints[r].(state := EndpointRevoked) else t.endpoints[r])
      else
        t.(enrollments := t.enrollments[id :=
             e.(retries := e.retries + 1, retryAfter := started + Backoff(e.retries + 1) + jitter)])
  }
}
