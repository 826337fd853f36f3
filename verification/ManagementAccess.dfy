/** The endpoint and grant services, as objects over the shared database. */
module ManagementAccess {
  import opened Common
  import opened ManagementTables
  import opened ManagementTransactions
  import opened ManagementInvariants
  import opened ManagementService

  /** The gateway row is unique: role, identity and generation are a key. */
  lemma GatewayRowUnique(cfg: Settings, rows: Enrollments, k: Id, now: Time)
    requires UniqueGenerations(rows) && k in Slot(rows, GatewayRole, cfg.gatewayId)
    requires rows[k].generation == cfg.gatewayGeneration
    ensures GatewayRow(cfg, rows, now) == if Membership(cfg, rows[k], now) then Some(k) else None
  {
    forall i | i in Slot(rows, GatewayRole, cfg.gatewayId) && rows[i].generation == cfg.gatewayGeneration
      ensures i == k
    {
      assert SameSlot(rows[i], rows[k]);
    }
  }

  class EndpointService {
    const cfg: Settings
    const db: Database
    const enrollments: EnrollmentService

    constructor (enrollments: EnrollmentService)
      ensures this.enrollments == enrollments && this.db == enrollments.db && this.cfg == enrollments.cfg
    {
      this.enrollments := enrollments;
      this.db := enrollments.db;
      this.cfg := enrollments.cfg;
    }

    ghost predicate Valid()
      reads db
    {
      enrollments.db == db && enrollments.cfg == cfg && db.Valid()
    }

    method FindGateway(now: Time) returns (found: Option<Id>)
      requires EnrollmentsSound(db.enrollments)
      ensures found == GatewayRow(cfg, db.enrollments, now)
    {
      var todo := db.enrollments.Keys;
      while todo != {}
        invariant forall k :: k in todo ==> k in db.enrollments
        invariant forall k :: k in Slot(db.enrollments, GatewayRole, cfg.gatewayId) && k !in todo ==>
                                db.enrollments[k].generation != cfg.gatewayGeneration
        decreases |todo|
      {
        Inhabited(todo);
        var k :| k in todo;
        var e := db.enrollments[k];
        if e.role == GatewayRole && e.identity == cfg.gatewayId && e.generation == cfg.gatewayGeneration {
          GatewayRowUnique(cfg, db.enrollments, k, now);
          return if Membership(cfg, e, now) then Some(k) else None;
        }
        todo := todo - {k};
      }
      return None;
    }

    method CheckAvailable(p: Endpoint, ready: bool, now: Time) returns (out: Outcome<Id>)
      requires EnrollmentsSound(db.enrollments)
      ensures out == Available(cfg, db.enrollments, p, ready, now)
    {
      if Withdrawn(p.state) {
        return Raised(410);
      }
      if p.enrollmentId !in db.enrollments {
        return Raised(404);
      }
      var e := db.enrollments[p.enrollmentId];
      if p.leaseExpires <= now || !Membership(cfg, e, now) {
        return Raised(404);
      }
      if ready && (p.state != Ready || !Stamped(p.probed) || p.probed.value + cfg.observationTtl <= now) {
        return Raised(404);
      }
      var gateway := FindGateway(now);
      if gateway == None {
        return Raised(503);
      }
      if !AcceptableAddresses(e.ips, Texts(db.enrollments[gateway.value].ips)) {
        return Raised(422);
      }
      return Ok(p.enrollmentId);
    }

    method RegisterEndpoint(resource: Id, request: RegisterRequest, actor: Actor, version: Id, now: Time)
      returns (out: Outcome<Endpoint>)
      requires Valid()
      modifies db
      ensures Valid()
      ensures out == Register(cfg, old(db.View()), resource, request, actor, version, now).outcome
      ensures SameContents(db.View(), Register(cfg, old(db.View()), resource, request, actor, version, now).tables)
    {
      ghost var was := db.View();
      RegisterKeeps(cfg, was, resource, request, actor, version, now);
      out := RegisterOn(resource, request, actor, version, now);
      SameContentsInvariant(db.View(), Register(cfg, was, resource, request, actor, version, now).tables);
    }

    method RegisterOn(resource: Id, request: RegisterRequest, actor: Actor, version: Id, now: Time)
      returns (out: Outcome<Endpoint>)
      requires enrollments.db == db && EnrollmentsSound(db.enrollments)
      modifies db
      ensures out == Register(cfg, old(db.View()), resource, request, actor, version, now).outcome
      ensures SameContents(db.View(), Register(cfg, old(db.View()), resource, request, actor, version, now).tables)
    {
      if actor != Controller {
        return Raised(403);
      }
      if request.enrollmentId !in db.enrollments {
        return Raised(404);
      }
      var e := db.enrollments[request.enrollmentId];
      if e.role != EndpointRole || e.identity != resource {
        return Raised(422);
      }
      if e.generation != request.generation {
        return Raised(409);
      }
      var newest, _ := enrollments.ScanSlot(EndpointRole, resource, request.generation);
      assert request.enrollmentId in Slot(db.enrollments, EndpointRole, resource);
      if newest.Some? && newest.value != request.enrollmentId {
        assert SameSlot(db.enrollments[newest.value], e);
        return Raised(409);
      }
      if !Membership(cfg, e, now) || request.port !in cfg.ports {
        return Raised(422);
      }
      var previous := if resource in db.endpoints then Some(db.endpoints[resource]) else None;
      if previous.Some? {
        if previous.value.owner != request.owner {
          return Raised(403);
        }
        if previous.value.enrollmentId == request.enrollmentId {
          if (previous.value.service, previous.value.port, previous.value.protocol)
             != (request.service, request.port, request.protocol) {
            return Raised(409);
          }
          return Ok(previous.value);
        }
        enrollments.InvalidateRows(resource);
      }
      var row := RegisteredRow(cfg, request, request.owner, version, previous, now);
      db.endpoints := db.endpoints[resource := row];
      return Ok(row);
    }

    method RenewLease(resource: Id, generation: Id, actor: Actor, now: Time) returns (out: Outcome<Endpoint>)
      requires Valid()
      modifies db
      ensures Valid()
      ensures Tx(db.View(), out) == RenewResource(cfg, old(db.View()), resource, generation, actor, now)
    {
      if actor != Controller {
        return Raised(403);
      }
      if resource !in db.endpoints {
        return Raised(404);
      }
      if db.endpoints[resource].generation != generation {
        return Raised(409);
      }
      if Withdrawn(db.endpoints[resource].state) || db.endpoints[resource].leaseExpires <= now {
        return Raised(410);
      }
      RenewResourceKeeps(cfg, db.View(), resource, generation, actor, now);
      db.endpoints := db.endpoints[resource := db.endpoints[resource].(leaseExpires := now + cfg.resourceLease)];
      return Ok(db.endpoints[resource]);
    }

    method AssignReachable(minted: map<Id, Id>, now: Time) returns (targets: set<Id>)
      requires EnrollmentsSound(db.enrollments) && forall r :: r in db.endpoints ==> r in minted
      modifies db`endpoints
      ensures forall r :: r in db.endpoints <==> r in old(db.endpoints)
      ensures forall r :: r in targets <==>
                r in old(db.endpoints) && Available(cfg, db.enrollments, old(db.endpoints)[r], false, now).Ok?
      ensures forall r :: r in db.endpoints ==>
                db.endpoints[r] == if r in targets then Assigned(cfg, old(db.endpoints)[r], minted[r], now)
                                   else old(db.endpoints)[r]
    {
      targets := {};
      var todo := db.endpoints.Keys;
      while todo != {}
        invariant forall r :: r in todo ==> r in old(db.endpoints)
        invariant forall r :: r in db.endpoints <==> r in old(db.endpoints)
        invariant forall r :: r in targets <==>
                    r in old(db.endpoints) && r !in todo
                    && Available(cfg, db.enrollments, old(db.endpoints)[r], false, now).Ok?
        invariant forall r :: r in db.endpoints ==>
                    db.endpoints[r] == if r in targets then Assigned(cfg, old(db.endpoints)[r], minted[r], now)
                                       else old(db.endpoints)[r]
        decreases |todo|
      {
        Inhabited(todo);
        var r :| r in todo;
        var reachable := CheckAvailable(db.endpoints[r], false, now);
        if reachable.Ok? {
          db.endpoints := db.endpoints[r := Assigned(cfg, db.endpoints[r], minted[r], now)];
          targets := targets + {r};
        }
        todo := todo - {r};
      }
    }

    /** Give every reachable endpoint a probe assignment. */
    method AssignProbes(gatewayId: Id, actor: Actor, minted: map<Id, Id>, now: Time) returns (out: Outcome<set<Id>>)
      requires Valid() && db.endpoints.Keys <= minted.Keys
      modifies db
      ensures Valid()
      ensures var spec := Targets(cfg, old(db.View()), gatewayId, actor, minted, now);
              && SameContents(db.View(), spec.tables)
              && (out.Raised? ==> out == spec.outcome)
              && (out.Ok? ==> spec.outcome.Ok? && forall r :: r in out.value <==> r in spec.outcome.value)
    {
      ghost var was := db.View();
      TargetsKeeps(cfg, was, gatewayId, actor, minted, now);
      out := AssignOn(gatewayId, actor, minted, now);
      SameContentsInvariant(db.View(), Targets(cfg, was, gatewayId, actor, minted, now).tables);
    }

    method AssignOn(gatewayId: Id, actor: Actor, minted: map<Id, Id>, now: Time) returns (out: Outcome<set<Id>>)
      requires EnrollmentsSound(db.enrollments) && db.endpoints.Keys <= minted.Keys
      modifies db
      ensures var spec := Targets(cfg, old(db.View()), gatewayId, actor, minted, now);
              && SameContents(db.View(), spec.tables)
              && (out.Raised? ==> out == spec.outcome)
              && (out.Ok? ==> spec.outcome.Ok? && forall r :: r in out.value <==> r in spec.outcome.value)
    {
      if actor != Gateway || gatewayId != cfg.gatewayId {
        return Raised(403);
      }
      var gateway := FindGateway(now);
      if gateway == None {
        return Raised(503);
      }
      var targets := AssignReachable(minted, now);
      return Ok(targets);
    }

    /** The membership transaction of the probe route. */
    method ProbeMembershipAgain(resource: Id, request: ProbeRequest, nodes: seq<Node>, now: Time) returns (out: Outcome<()>)
      requires Valid()
      modifies db
      ensures Valid()
      ensures out == ProbeMembership(old(db.View()), resource, request, nodes, now).outcome
      ensures SameContents(db.View(), ProbeMembership(old(db.View()), resource, request, nodes, now).tables)
    {
      var saved := db.View();
      ProbeMembershipKeeps(saved, resource, request, nodes, now);
      if resource !in db.endpoints {
        return Raised(404);
      }
      var p := db.endpoints[resource];
      if p.generation != request.generation || p.version != request.version {
        return Raised(409);
      }
      assert EndpointBound(db.enrollments, resource, p);
      var standing := enrollments.CheckCurrent(p.enrollmentId);
      if standing.Raised? {
        return Raised(standing.status);
      }
      var seen := enrollments.ObserveRow(p.enrollmentId, nodes, now);
      if seen == Ok(true) {
        SameContentsInvariant(db.View(), ProbeMembership(saved, resource, request, nodes, now).tables);
        return Ok(());
      }
      db.Rollback(saved);
      return Raised(if seen.Raised? then seen.status else 404);
    }

    method ProbeResult(resource: Id, request: ProbeRequest, actor: Actor, now: Time) returns (out: Outcome<Endpoint>)
      requires Valid()
      modifies db
      ensures Valid()
      ensures Tx(db.View(), out) == Probe(cfg, old(db.View()), resource, request, actor, now)
    {
      if actor != Gateway {
        return Raised(403);
      }
      if resource !in db.endpoints {
        return Raised(404);
      }
      var p := db.endpoints[resource];
      if p.generation != request.generation {
        return Raised(409);
      }
      var reachable := CheckAvailable(p, false, now);
      if reachable.Raised? {
        return Raised(reachable.status);
      }
      if request.version != p.version || Some(request.probeId) != p.probeId || p.probeGateway != Some(cfg.gatewayId) {
        return Raised(409);
      }
      if p.probeExpires == None {
        return Raised(500);
      }
      if p.probeExpires.value <= now {
        return Raised(409);
      }
      var row := p.(state := if request.success then Ready else Offline,
                    probed := if request.success then Some(now) else None, probeId := None);
      ProbeKeeps(cfg, db.View(), resource, request, actor, now);
      db.endpoints := db.endpoints[resource := row];
      return Ok(row);
    }

    method Revoke(resource: Id, actor: Actor, now: Time) returns (out: Outcome<()>)
      requires Valid()
      modifies db
      ensures Valid()
      ensures out == RevokeEndpoint(old(db.View()), resource, actor, now).outcome
      ensures SameContents(db.View(), RevokeEndpoint(old(db.View()), resource, actor, now).tables)
    {
      if actor != Controller {
        return Raised(403);
      }
      if resource !in db.endpoints || db.endpoints[resource].enrollmentId !in db.enrollments {
        return Raised(404);
      }
      ghost var was := db.View();
      DenyKeeps(was, {db.endpoints[resource].enrollmentId}, now);
      enrollments.DenyRow(db.endpoints[resource].enrollmentId, now);
      SameContentsInvariant(db.View(), RevokeEndpoint(was, resource, actor, now).tables);
      return Ok(());
    }
  }

  class GrantService {
    const cfg: Settings
    const db: Database
    const endpoints: EndpointService

    constructor (endpoints: EndpointService)
      ensures this.endpoints == endpoints && this.db == endpoints.db && this.cfg == endpoints.cfg
    {
      this.endpoints := endpoints;
      this.db := endpoints.db;
      this.cfg := endpoints.cfg;
    }

    ghost predicate Valid()
      reads db
    {
      endpoints.db == db && endpoints.cfg == cfg && endpoints.Valid()
    }

    method IssueTicket(request: IssueRequest, actor: Actor, jti: Id, now: Time) returns (out: Outcome<Ticket>)
      requires Valid()
      modifies db
      ensures Valid()
      ensures Tx(db.View(), out) == Issue(cfg, old(db.View()), request, actor, jti, now)
    {
      IssueKeeps(cfg, db.View(), request, actor, jti, now);
      out := IssueOn(request, actor, jti, now);
    }

    method IssueOn(request: IssueRequest, actor: Actor, jti: Id, now: Time) returns (out: Outcome<Ticket>)
      requires endpoints.db == db && endpoints.cfg == cfg && EnrollmentsSound(db.enrollments)
      modifies db
      ensures Tx(db.View(), out) == Issue(cfg, old(db.View()), request, actor, jti, now)
    {
      if actor != Controller {
        return Raised(403);
      }
      if request.resourceId !in db.endpoints {
        return Raised(404);
      }
      var p := db.endpoints[request.resourceId];
      if request.user != p.owner || request.gatewayId != cfg.gatewayId {
        return Raised(403);
      }
      if p.generation != request.generation {
        return Raised(409);
      }
      if p.service != request.service {
        return Raised(404);
      }
      var reachable := endpoints.CheckAvailable(p, true, now);
      if reachable.Raised? {
        return Raised(reachable.status);
      }
      if jti in db.grants {
        return Raised(500);
      }
      var second := now.Floor as real;
      var cap := if request.purpose == Ssh then cfg.sshSessionMax else cfg.sessionMax;
      var ticket := Ticket(jti, request.gatewayId, request.user, second, second + cfg.admissionTtl,
                           request.resourceId, p.generation, p.service, request.purpose);
      db.grants := db.grants[jti := Grant(request.user, request.resourceId, p.generation, p.service, request.gatewayId,
                                          second + cfg.admissionTtl, second + cap, Issued, ticket, request.purpose)];
      return Ok(ticket);
    }

    /** `destination`: the read-only guard of every use of a session. */
    method FindRoute(sessionId: Id, now: Time) returns (out: Outcome<Destination>)
      requires endpoints.db == db && endpoints.cfg == cfg && EnrollmentsSound(db.enrollments) && sessionId in db.sessions
      ensures out == Route(cfg, db.View(), sessionId, now)
    {
      var s := db.sessions[sessionId];
      if s.grantId !in db.grants {
        return Raised(404);
      }
      var g := db.grants[s.grantId];
      if g.resourceId !in db.endpoints {
        return Raised(404);
      }
      var p := db.endpoints[g.resourceId];
      if s.state != Active || g.state != Claimed || s.deadline <= now || s.leaseExpires <= now
         || p.generation != g.generation || p.version != s.version {
        return Raised(410);
      }
      var reachable := endpoints.CheckAvailable(p, true, now);
      if reachable.Raised? {
        return Raised(reachable.status);
      }
      return Ok(Destination(sessionId, g.user, g.resourceId, p.generation, s.version, p.service,
                            db.enrollments[reachable.value].ips, p.port, s.leaseExpires, s.deadline));
    }

    /** The session that holds a grant, if any, and whether the gateway already
        used a request identifier. */
    method ScanSessions(grantId: Id, requestId: Id) returns (holder: Option<Id>, used: bool)
      requires UniqueSessions(db.sessions)
      ensures holder == SessionOf(db.sessions, grantId)
      ensures used == RequestUsed(cfg, db.sessions, requestId)
    {
      holder, used := None, false;
      var todo := db.sessions.Keys;
      while todo != {}
        invariant forall s :: s in todo ==> s in db.sessions
        invariant holder.None? ==> forall s :: s in db.sessions && s !in todo ==> db.sessions[s].grantId != grantId
        invariant holder.Some? ==> holder == SessionOf(db.sessions, grantId)
        invariant used <==> exists s :: s in db.sessions && s !in todo && db.sessions[s].gateway == cfg.gatewayId
                                        && db.sessions[s].requestId == requestId
        decreases |todo|
      {
        Inhabited(todo);
        var s :| s in todo;
        if db.sessions[s].grantId == grantId {
          holder := Some(s);
        }
        used := used || (db.sessions[s].gateway == cfg.gatewayId && db.sessions[s].requestId == requestId);
        todo := todo - {s};
      }
    }

    /** Admit the first claim of a ticket; undone if the session cannot be routed. */
    method AdmitSession(ticket: Ticket, requestId: Id, id: Id, now: Time) returns (out: Outcome<Destination>)
      requires endpoints.db == db && endpoints.cfg == cfg && EnrollmentsSound(db.enrollments)
      requires ticket.jti in db.grants && db.grants[ticket.jti].resourceId in db.endpoints && id !in db.sessions
      modifies db
      ensures var t := old(db.View());
              var g := t.grants[ticket.jti];
              var session := Session(ticket.jti, cfg.gatewayId, requestId, t.endpoints[g.resourceId].version,
                                     Least(now + cfg.sessionLease, g.deadline), g.deadline, Active);
              var t' := t.(grants := t.grants[ticket.jti := g.(state := Claimed)], sessions := t.sessions[id := session]);
              && out == Route(cfg, t', id, now)
              && db.View() == if out.Ok? then t' else t
    {
      var saved := db.View();
      var g := db.grants[ticket.jti];
      db.grants := db.grants[ticket.jti := g.(state := Claimed)];
      db.sessions := db.sessions[id :=
        Session(ticket.jti, cfg.gatewayId, requestId, db.endpoints[g.resourceId].version,
                Least(now + cfg.sessionLease, g.deadline), g.deadline, Active)];
      out := FindRoute(id, now);
      if out.Raised? {
        db.Rollback(saved);
      }
    }

    method ClaimTicket(ticket: Ticket, verified: bool, requestId: Id, actor: Actor, id: Id, now: Time)
      returns (out: Outcome<Destination>)
      requires Valid()
      modifies db
      ensures Valid()
      ensures Tx(db.View(), out) == Claim(cfg, old(db.View()), ticket, verified, requestId, actor, id, now)
    {
      ClaimKeeps(cfg, db.View(), ticket, verified, requestId, actor, id, now);
      out := ClaimOn(ticket, verified, requestId, actor, id, now);
    }

    method ClaimOn(ticket: Ticket, verified: bool, requestId: Id, actor: Actor, id: Id, now: Time)
      returns (out: Outcome<Destination>)
      requires endpoints.db == db && endpoints.cfg == cfg && EnrollmentsSound(db.enrollments)
      requires GrantsBound(db.endpoints, db.grants) && UniqueSessions(db.sessions)
      modifies db
      ensures Tx(db.View(), out) == Claim(cfg, old(db.View()), ticket, verified, requestId, actor, id, now)
    {
      if actor != Gateway {
        return Raised(403);
      }
      if !verified || now < ticket.issuedAt {
        return Raised(401);
      }
      if ticket.jti !in db.grants {
        return Raised(404);
      }
      var g := db.grants[ticket.jti];
      if g.ticket != ticket || g.gateway != cfg.gatewayId {
        return Raised(401);
      }
      var holder, used := ScanSessions(ticket.jti, requestId);
      if holder.Some? {
        if db.sessions[holder.value].requestId != requestId || db.sessions[holder.value].gateway != cfg.gatewayId {
          return Raised(410);
        }
        out := FindRoute(holder.value, now);
        return;
      }
      if g.state != Issued || g.expires <= now {
        return Raised(410);
      }
      if used {
        return Raised(409);
      }
      assert GrantBound(db.endpoints, ticket.jti, g);
      var p := db.endpoints[g.resourceId];
      var reachable := endpoints.CheckAvailable(p, true, now);
      if reachable.Raised? {
        return Raised(reachable.status);
      }
      if id in db.sessions {
        return Raised(500);
      }
      out := AdmitSession(ticket, requestId, id, now);
    }

    /** Extend a lease; undone if the session can then not be routed. */
    method ExtendLease(sessionId: Id, now: Time) returns (out: Outcome<Destination>)
      requires endpoints.db == db && endpoints.cfg == cfg && EnrollmentsSound(db.enrollments) && sessionId in db.sessions
      modifies db
      ensures var t := old(db.View());
              var s := t.sessions[sessionId];
              var t' := t.(sessions := t.sessions[sessionId :=
                s.(leaseExpires := Least(now + cfg.sessionLease, s.deadline))]);
              && out == Route(cfg, t', sessionId, now)
              && db.View() == if out.Ok? then t' else t
    {
      var saved := db.View();
      var s := db.sessions[sessionId];
      db.sessions := db.sessions[sessionId := s.(leaseExpires := Least(now + cfg.sessionLease, s.deadline))];
      out := FindRoute(sessionId, now);
      if out.Raised? {
        db.Rollback(saved);
      }
    }

    method RenewSession(sessionId: Id, actor: Actor, now: Time) returns (out: Outcome<Destination>)
      requires Valid() && LeasesBounded(cfg, db.sessions, now)
      modifies db
      ensures Valid()
      ensures Tx(db.View(), out) == Renew(cfg, old(db.View()), sessionId, actor, now)
    {
      if actor != Gateway {
        return Raised(403);
      }
      if sessionId !in db.sessions {
        return Raised(404);
      }
      if db.sessions[sessionId].gateway != cfg.gatewayId {
        return Raised(403);
      }
      out := FindRoute(sessionId, now);
      if out.Ok? {
        RenewKeeps(cfg, db.View(), sessionId, actor, now);
        out := ExtendLease(sessionId, now);
      }
    }

    method Release(sessionId: Id, actor: Actor) returns (out: Outcome<SessionState>)
      requires Valid()
      modifies db
      ensures Valid()
      ensures Tx(db.View(), out) == ReleaseSession(cfg, old(db.View()), sessionId, actor)
    {
      ReleaseKeeps(cfg, db.View(), sessionId, actor, 0.0);
      if actor != Gateway {
        return Raised(403);
      }
      if sessionId !in db.sessions {
        return Raised(404);
      }
      var s := db.sessions[sessionId];
      if s.gateway != cfg.gatewayId {
        return Raised(403);
      }
      db.sessions := db.sessions[sessionId := if s.state == Active then s.(state := Released) else s];
      return Ok(db.sessions[sessionId].state);
    }

    method Revoke(grantId: Id, actor: Actor) returns (out: Outcome<()>)
      requires Valid()
      modifies db
      ensures Valid()
      ensures out == RevokeGrant(old(db.View()), grantId, actor).outcome
      ensures SameContents(db.View(), RevokeGrant(old(db.View()), grantId, actor).tables)
    {
      if actor != Controller {
        return Raised(403);
      }
      if grantId !in db.grants {
        return Raised(404);
      }
      ghost var was := db.View();
      RevokeGrantKeeps(was, grantId, actor, 0.0);
      endpoints.enrollments.RevokeGrantRow(grantId);
      SameContentsInvariant(db.View(), RevokeGrant(was, grantId, actor).tables);
      return Ok(());
    }
  }
}
