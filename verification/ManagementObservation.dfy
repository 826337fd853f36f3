/**
 What a node list does to an enrollment outside the sweep: a confirmation and a probe keep
 nothing but a verified sight.
 */
module ManagementObservation {
  import opened Common
  import opened ManagementTables
  import opened ManagementTransactions
  import opened ManagementInvariants
  import opened ManagementRuns
  import opened ManagementTheorems

  /** The tables that record a sight. */
  function Recorded(t: Tables, id: Id, sight: Sight, now: Time): (r: Tables)
    requires id in t.enrollments
  {
    match sight
    case Unverified => SetOnline(t, id, false)
    case Unroutable => SetOnline(t, id, false)
    case Moved => Deny(t, {id}, now)
    case Verified(node) => SetEnrollment(t, id, ConfirmedRow(t.enrollments[id], node, now))
  }

  function Seen(t: Tables, id: Id, nodes: seq<Node>, now: Time): (r: Sight)
    requires id in t.enrollments
  {
    Look(t.enrollments[id], GatewayTexts(t), nodes, now)
  }

  /** A confirmation keeps exactly a verified sight of a current enrollment that is
      confirmed or in time; every other write, the offline mark and the denial of a
      changed address included, is rolled back. */
  lemma ConfirmKeepsIff(t: Tables, id: Id, nodes: seq<Node>, now: Time)
    requires id in t.enrollments
    ensures var tx := Confirm(t, id, nodes, now);
            && (tx.outcome.Ok? <==>
                  && Current(t, id).Ok? && (t.enrollments[id].state == Confirmed || now < t.enrollments[id].expires)
                  && Seen(t, id, nodes, now).Verified?)
            && tx.tables == if tx.outcome.Ok? then Recorded(t, id, Seen(t, id, nodes, now), now) else t
  {
  }

  /** So does the membership transaction of a probe. */
  lemma ProbeKeepsIff(t: Tables, resource: Id, request: ProbeRequest, nodes: seq<Node>, now: Time)
    requires resource in t.endpoints && t.endpoints[resource].enrollmentId in t.enrollments
    ensures var tx := ProbeMembership(t, resource, request, nodes, now);
            var p := t.endpoints[resource];
            && (tx.outcome.Ok? <==>
                  && p.generation == request.generation && p.version == request.version
                  && Current(t, p.enrollmentId).Ok? && Seen(t, p.enrollmentId, nodes, now).Verified?)
            && tx.tables == if tx.outcome.Ok? then Recorded(t, p.enrollmentId, Seen(t, p.enrollmentId, nodes, now), now) else t
  {
  }

  /** A changed address of a confirmed enrollment, in any node list: a confirmation is
      refused and leaves everything standing. */
  lemma AddressChangeConfirmed(t: Tables, id: Id, nodes: seq<Node>, now: Time)
    requires id in t.enrollments && t.enrollments[id].state == Confirmed && Seen(t, id, nodes, now) == Moved
    ensures Confirm(t, id, nodes, now) == Abort(t, if Current(t, id).Raised? then Current(t, id).status else 409)
  {
  }

  /** A successful probe that meets it is refused too, and leaves everything standing. */
  lemma AddressChangeProbed(t: Tables, resource: Id, request: ProbeRequest, nodes: seq<Node>, now: Time)
    requires resource in t.endpoints && t.endpoints[resource].enrollmentId in t.enrollments
    requires t.endpoints[resource].generation == request.generation && t.endpoints[resource].version == request.version
    requires Seen(t, t.endpoints[resource].enrollmentId, nodes, now) == Moved
    ensures ProbeMembership(t, resource, request, nodes, now)
            == Abort(t, if Current(t, t.endpoints[resource].enrollmentId).Raised?
                        then Current(t, t.endpoints[resource].enrollmentId).status else 404)
  {
  }

  /** No confirmation and no probe takes a confirmed enrollment down. */
  lemma StandsThroughRefusals(t: Tables, id: Id, resource: Id, request: ProbeRequest, nodes: seq<Node>, now: Time)
    requires id in t.enrollments && t.enrollments[id].state == Confirmed
    ensures Confirm(t, id, nodes, now).tables.enrollments[id].state == Confirmed
    ensures resource in t.endpoints && t.endpoints[resource].enrollmentId == id ==>
              ProbeMembership(t, resource, request, nodes, now).tables.enrollments[id].state == Confirmed
  {
    ConfirmKeepsIff(t, id, nodes, now);
    if resource in t.endpoints && t.endpoints[resource].enrollmentId == id {
      ProbeKeepsIff(t, resource, request, nodes, now);
    }
  }

  // ------------------------------------------------------------------- a run that gets there

  lemma ThreeEvents(cfg: Settings, a: Event, b: Event, c: Event)
    requires 0.0 <= a.at <= b.at <= c.at
    ensures Timed(0.0, [a, b, c]) && End(0.0, [a, b, c]) == c.at
    ensures After(cfg, [a, b, c]) == Step(cfg, Step(cfg, Step(cfg, EMPTY, a.op, a.at), b.op, b.at), c.op, c.at)
  {
    assert [a, b, c][1..] == [b, c] && [b, c][1..] == [c] && [c][1..] == [];
    assert Timed(b.at, [c]) && Timed(a.at, [b, c]);
    assert End(b.at, [c]) == End(c.at, []) && End(a.at, [b, c]) == End(b.at, [c]);
    var t := Step(cfg, EMPTY, a.op, a.at);
    var u := Step(cfg, t, b.op, b.at);
    assert Exec(cfg, u, [c]) == Exec(cfg, Step(cfg, u, c.op, c.at), []);
    assert Exec(cfg, t, [b, c]) == Exec(cfg, u, [c]);
  }

  lemma MatchingOne(node: Node, keyId: Option<Id>)
    requires keyId == Some(node.keyId)
    ensures Matching([node], keyId) == [node]
  {
    assert Matching([node][1..], keyId) == [];
  }

  /** The only enrollment there is, and no endpoint. */
  predicate Only(t: Tables, id: Id, e: Enrollment)
  {
    && id in t.enrollments && t.enrollments[id] == e && (forall k :: k in t.enrollments ==> k == id)
    && forall r :: r !in t.endpoints
  }

  lemma WitnessReserved(cfg: Settings, request: EnrollRequest, id: Id)
    requires request.role == EndpointRole
    ensures Only(Reserve(cfg, EMPTY, request, 4, Controller, Some("k"), id, 0.0, 0.0).tables, id,
                 PendingRow(cfg, request, 4, Controller, "k", 0.0, 0.0))
  {
  }

  lemma WitnessIssued(t: Tables, id: Id, e: Enrollment, keyId: Id)
    requires Only(t, id, e) && e.state == Pending && 1.0 < e.expires
    ensures Only(CompleteKey(t, id, keyId, 9, 1.0).tables, id,
                 e.(keyId := Some(keyId), updated := 1.0, ciphertext := Some(9), state := KeyIssued))
  {
  }

  lemma OnlySees(t: Tables, id: Id, e: Enrollment, node: Node, now: Time)
    requires Only(t, id, e) && e.role == EndpointRole && e.keyId == Some(node.keyId) && NodeFits(e, node)
    requires AcceptableAddresses(node.ips, {}) && !NodeGone(node, now) && Live(e.state)
    ensures Current(t, id).Ok?
    ensures Seen(t, id, [node], now) == if e.ips != [] && e.ips != node.ips then Moved else Verified(node)
  {
    MatchingOne(node, e.keyId);
    assert GatewayTexts(t) == {};
  }

  lemma WitnessConfirmed(t: Tables, id: Id, e: Enrollment, node: Node)
    requires Only(t, id, e) && e.role == EndpointRole && e.keyId == Some(node.keyId) && NodeFits(e, node)
    requires AcceptableAddresses(node.ips, {}) && !NodeGone(node, 2.0) && e.state == KeyIssued && e.ips == [] && 2.0 < e.expires
    ensures Only(Confirm(t, id, [node], 2.0).tables, id, ConfirmedRow(e, node, 2.0))
  {
    OnlySees(t, id, e, node, 2.0);
    ConfirmKeepsIff(t, id, [node], 2.0);
  }

  const WITNESS_NODE := Node(3, 8, [RoleTag(EndpointRole)], [Ip(20, true)], true, None, true, false)

  /** An enrollment is reserved, its key stored and a node confirmed. */
  lemma ConfirmedReachable() returns (cfg: Settings, run: seq<Event>, row: Enrollment)
    ensures Timed(0.0, run) && End(0.0, run) == 2.0 && Only(After(cfg, run), 7, row) && cfg.enrollmentTtl == 60.0
    ensures row.state == Confirmed && row.actor == Controller && row.role == EndpointRole && row.identity == 5
    ensures row.generation == 1 && row.idempotency == "k" && row.keyId == Some(8) && row.nodeId == Some(3)
    ensures row.tags == [RoleTag(EndpointRole)] && row.ips == [Ip(20, true)] && row.created == 0.0 && row.retryAfter == 0.0
  {
    cfg := Settings(1, 1, 60.0, 60.0, 60.0, 60.0, 60.0, 10.0, 10.0, 5.0, {});
    var request := EnrollRequest(EndpointRole, 5, 1);
    var reserve := Event(DoReserve(request, 4, Controller, Some("k"), 7, 0.0), 0.0);
    var complete, confirm := Event(DoCompleteKey(7, 8, 9), 1.0), Event(DoConfirm(7, [WITNESS_NODE]), 2.0);
    run := [reserve, complete, confirm];
    ThreeEvents(cfg, reserve, complete, confirm);
    var pending := PendingRow(cfg, request, 4, Controller, "k", 0.0, 0.0);
    WitnessReserved(cfg, request, 7);
    var t := Reserve(cfg, EMPTY, request, 4, Controller, Some("k"), 7, 0.0, 0.0).tables;
    WitnessIssued(t, 7, pending, 8);
    var issued := pending.(keyId := Some(8), updated := 1.0, ciphertext := Some(9), state := KeyIssued);
    WitnessConfirmed(CompleteKey(t, 7, 8, 9, 1.0).tables, 7, issued, WITNESS_NODE);
    row := ConfirmedRow(issued, WITNESS_NODE, 2.0);
  }

  /** A state in which an address change happens is reachable: the node is then listed
      with another address. */
  lemma AddressChangeReachable() returns (cfg: Settings, run: seq<Event>, id: Id, nodes: seq<Node>, now: Time)
    ensures Timed(0.0, run) && End(0.0, run) <= now
    ensures var t := After(cfg, run);
            && id in t.enrollments && t.enrollments[id].state == Confirmed && Current(t, id).Ok?
            && Seen(t, id, nodes, now) == Moved
  {
    var row: Enrollment;
    cfg, run, row := ConfirmedReachable();
    var moved := WITNESS_NODE.(ips := [Ip(21, true)]);
    id, nodes, now := 7, [moved], 3.0;
    OnlySees(After(cfg, run), id, row, moved, now);
  }

  // ------------------------------------------------------------------- two enrollments

  /** The only two enrollments there are, and no endpoint. */
  predicate Two(t: Tables, i: Id, a: Enrollment, j: Id, b: Enrollment)
  {
    && i != j && i in t.enrollments && j in t.enrollments && t.enrollments[i] == a && t.enrollments[j] == b
    && (forall k :: k in t.enrollments ==> k == i || k == j) && forall r :: r !in t.endpoints
  }

  lemma CompleteSecond(t: Tables, i: Id, a: Enrollment, j: Id, b: Enrollment, keyId: Id)
    requires Two(t, i, a, j, b) && b.state == Pending && 4.0 < b.expires
    ensures Two(CompleteKey(t, j, keyId, 9, 4.0).tables, i, a, j,
                b.(keyId := Some(keyId), updated := 4.0, ciphertext := Some(9), state := KeyIssued))
  {
  }

  lemma {:induction false} TimedSnoc(clock: Time, run: seq<Event>, last: Event)
    requires Timed(clock, run) && End(clock, run) <= last.at
    ensures Timed(clock, run + [last]) && End(clock, run + [last]) == last.at
    decreases |run|
  {
    if run == [] {
      assert run + [last] == [last] && [last][1..] == [];
    } else {
      assert (run + [last])[0] == run[0] && (run + [last])[1..] == run[1..] + [last];
      TimedSnoc(run[0].at, run[1..], last);
    }
  }
}
