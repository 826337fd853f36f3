/**
 What a whole sweep leaves of every enrollment, in closed form over the rows before it:
 its own visit, which may find addresses that gateways visited earlier have just
 recorded, and then the lease of its endpoint.
 */
module ManagementSwept {
  import opened Common
  import opened ManagementTables
  import opened ManagementTransactions
  import opened ManagementInvariants
  import opened ManagementRuns
  import opened ManagementTheorems
  import opened ManagementObservation

  /** An enrollment after its own visit, when `gateways` are the addresses it may not use. */
  function VisitedRow(e: Enrollment, gateways: set<Id>, nodes: Option<seq<Node>>, started: Time, now: Time): (r: Enrollment)
  {
    var aged := AgedState(e, started);
    if aged.state == Revoking || aged.state == Revoked || aged.state == Expired then
      aged.(ciphertext := None, online := false)
    else if nodes.Some? && (aged.state == KeyIssued || aged.state == Confirmed) then
      match Look(aged, gateways, nodes.value, now)
      case Unverified => aged.(online := false)
      case Unroutable => aged.(online := false)
      case Moved => DeniedRow(aged, now)
      case Verified(node) => ConfirmedRow(aged, node, now)
    else aged
  }

  /** The addresses of the gateways once those in `visited` have had their visit. */
  function GatewaysAt(rows: Enrollments, visited: seq<Id>, nodes: Option<seq<Node>>, started: Time, now: Time): (r: set<Id>)
  {
    set k, a | k in rows && rows[k].role == GatewayRole
               && a in (if k in visited then VisitedRow(rows[k], {}, nodes, started, now) else rows[k]).ips && a.Ip? :: a.text
  }

  /** The endpoint of the enrollment stands and its lease has run out. */
  ghost predicate Lapses(t: Tables, id: Id, started: Time)
  {
    exists r :: r in t.endpoints && t.endpoints[r].enrollmentId == id && !Withdrawn(t.endpoints[r].state)
                && t.endpoints[r].leaseExpires <= started
  }

  // -------------------------------------------------------------------------- one visit

  lemma LookMembers(e: Enrollment, a: set<Id>, b: set<Id>, nodes: seq<Node>, now: Time)
    requires e.role == GatewayRole || forall x :: x in a <==> x in b
    ensures Look(e, a, nodes, now) == Look(e, b, nodes, now)
  {
  }

  lemma VisitedMembers(e: Enrollment, a: set<Id>, b: set<Id>, nodes: Option<seq<Node>>, started: Time, now: Time)
    requires e.role == GatewayRole || forall x :: x in a <==> x in b
    ensures VisitedRow(e, a, nodes, started, now) == VisitedRow(e, b, nodes, started, now)
  {
    if nodes.Some? {
      LookMembers(AgedState(e, started), a, b, nodes.value, now);
    }
  }

  lemma AgedTexts(t: Tables, id: Id, started: Time)
    requires id in t.enrollments
    ensures forall x :: x in GatewayTexts(SetEnrollment(t, id, AgedState(t.enrollments[id], started))) <==> x in GatewayTexts(t)
  {
    var u := SetEnrollment(t, id, AgedState(t.enrollments[id], started));
    forall k | k in t.enrollments ensures k in u.enrollments && u.enrollments[k].role == t.enrollments[k].role
                                          && u.enrollments[k].ips == t.enrollments[k].ips {
    }
  }

  lemma VisitOthers(t: Tables, id: Id, nodes: Option<seq<Node>>, started: Time, now: Time, k: Id)
    requires id in t.enrollments && k in t.enrollments && k != id
    ensures SweepEnrollment(t, id, nodes, started, now).enrollments[k] == t.enrollments[k]
  {
  }

  lemma VisitOwn(t: Tables, id: Id, nodes: Option<seq<Node>>, started: Time, now: Time)
    requires id in t.enrollments
    ensures SweepEnrollment(t, id, nodes, started, now).enrollments[id]
            == VisitedRow(t.enrollments[id], GatewayTexts(t), nodes, started, now)
  {
    var aged := AgedState(t.enrollments[id], started);
    var u := SetEnrollment(t, id, aged);
    AgedTexts(t, id, started);
    if nodes.Some? {
      LookMembers(aged, GatewayTexts(u), GatewayTexts(t), nodes.value, now);
      assert Observe(u, id, nodes.value, now).outcome.Raised? <==> Look(aged, GatewayTexts(u), nodes.value, now) == Unroutable;
    }
  }

  /** A visit makes its row the visited one and leaves the other rows alone. */
  lemma VisitRows(t: Tables, id: Id, nodes: Option<seq<Node>>, started: Time, now: Time, k: Id)
    requires id in t.enrollments && k in t.enrollments
    ensures SweepEnrollment(t, id, nodes, started, now).enrollments[k]
            == if k == id then VisitedRow(t.enrollments[id], GatewayTexts(t), nodes, started, now) else t.enrollments[k]
  {
    if k == id {
      VisitOwn(t, id, nodes, started, now);
    } else {
      VisitOthers(t, id, nodes, started, now, k);
    }
  }

  /** A visit takes down no endpoint of another enrollment, and its own only by denying. */
  lemma VisitEndpoints(t: Tables, id: Id, nodes: Option<seq<Node>>, started: Time, now: Time)
    requires id in t.enrollments
    ensures var u := SweepEnrollment(t, id, nodes, started, now);
            || u.endpoints == t.endpoints
            || (u.enrollments[id] == DeniedRow(u.enrollments[id], now) && u.endpoints == Deny(t, {id}, now).endpoints)
  {
  }

  lemma VisitLapses(t: Tables, id: Id, nodes: Option<seq<Node>>, started: Time, now: Time, k: Id)
    requires id in t.enrollments && k in t.enrollments
    ensures var u := SweepEnrollment(t, id, nodes, started, now);
            && (Lapses(u, k, started) ==> Lapses(t, k, started))
            && (Lapses(t, k, started) ==> Lapses(u, k, started) || (k == id && u.enrollments[k] == DeniedRow(u.enrollments[k], now)))
  {
    var u := SweepEnrollment(t, id, nodes, started, now);
    VisitEndpoints(t, id, nodes, started, now);
    if u.endpoints != t.endpoints {
      DenyLapses(t, id, now, k, started);
    }
  }

  lemma DenyLapses(t: Tables, id: Id, now: Time, k: Id, started: Time)
    ensures var u := Deny(t, {id}, now);
            (Lapses(u, k, started) ==> Lapses(t, k, started)) && (k != id && Lapses(t, k, started) ==> Lapses(u, k, started))
  {
    var u := Deny(t, {id}, now);
    if r :| r in t.endpoints && k != id && t.endpoints[r].enrollmentId == k && !Withdrawn(t.endpoints[r].state)
            && t.endpoints[r].leaseExpires <= started {
      assert u.endpoints[r] == t.endpoints[r];
    }
  }

  // --------------------------------------------------------------------- all enrollments

  lemma {:induction false} PassUntouched(t: Tables, order: seq<Id>, nodes: Option<seq<Node>>, started: Time, now: Time, k: Id)
    requires (forall x :: x in order ==> x in t.enrollments) && k in t.enrollments && k !in order
    ensures var u := SweepEnrollments(t, order, nodes, started, now);
            u.enrollments[k] == t.enrollments[k] && (Lapses(u, k, started) <==> Lapses(t, k, started))
    decreases |order|
  {
    if order != [] {
      VisitRows(t, order[0], nodes, started, now, k);
      VisitLapses(t, order[0], nodes, started, now, k);
      PassUntouched(SweepEnrollment(t, order[0], nodes, started, now), order[1..], nodes, started, now, k);
    }
  }

  /** `next` is `rows` after the visit of `first`, as far as gateways go. */
  ghost predicate FirstVisited(rows: Enrollments, first: Id, next: Enrollments, nodes: Option<seq<Node>>, started: Time, now: Time)
  {
    && (forall k :: k in next <==> k in rows)
    && (forall k :: k in rows ==> next[k].role == rows[k].role)
    && (forall k :: k in rows && rows[k].role == GatewayRole ==>
          next[k] == if k == first then VisitedRow(rows[k], {}, nodes, started, now) else rows[k])
  }

  lemma VisitGateways(t: Tables, id: Id, nodes: Option<seq<Node>>, started: Time, now: Time)
    requires id in t.enrollments
    ensures FirstVisited(t.enrollments, id, SweepEnrollment(t, id, nodes, started, now).enrollments, nodes, started, now)
  {
    forall k | k in t.enrollments
      ensures var next := SweepEnrollment(t, id, nodes, started, now).enrollments;
              && next[k].role == t.enrollments[k].role
              && (t.enrollments[k].role == GatewayRole ==>
                    next[k] == if k == id then VisitedRow(t.enrollments[k], {}, nodes, started, now) else t.enrollments[k])
    {
      VisitRows(t, id, nodes, started, now, k);
      if t.enrollments[k].role == GatewayRole {
        VisitedMembers(t.enrollments[k], GatewayTexts(t), {}, nodes, started, now);
      }
    }
  }

  /** Visiting one gateway and then others comes to the same addresses as visiting all. */
  lemma FirstGateways(rows: Enrollments, next: Enrollments, first: Id, rest: seq<Id>, visited: seq<Id>,
                      nodes: Option<seq<Node>>, started: Time, now: Time)
    requires FirstVisited(rows, first, next, nodes, started, now) && first !in rest && visited == [first] + rest
    ensures forall x :: x in GatewaysAt(next, rest, nodes, started, now) <==> x in GatewaysAt(rows, visited, nodes, started, now)
  {
    assert forall k :: k in visited <==> k == first || k in rest;
  }

  lemma NoneVisited(t: Tables, nodes: Option<seq<Node>>, started: Time, now: Time)
    ensures forall x :: x in GatewaysAt(t.enrollments, [], nodes, started, now) <==> x in GatewayTexts(t)
  {
  }

  /** After the pass over the enrollments, each row is what its own visit made of it, with
      the gateways before it already visited. */
  lemma {:induction false} PassRow(t: Tables, order: seq<Id>, i: nat, nodes: Option<seq<Node>>, started: Time, now: Time)
    requires (forall x :: x in order ==> x in t.enrollments) && NoRepeats(order) && i < |order|
    ensures SweepEnrollments(t, order, nodes, started, now).enrollments[order[i]]
            == VisitedRow(t.enrollments[order[i]], GatewaysAt(t.enrollments, order[..i], nodes, started, now), nodes, started, now)
    decreases |order|
  {
    var id, first, rest := order[i], order[0], order[1..];
    var next := SweepEnrollment(t, first, nodes, started, now);
    VisitRows(t, first, nodes, started, now, id);
    if i == 0 {
      PassUntouched(next, rest, nodes, started, now, id);
      NoneVisited(t, nodes, started, now);
      assert order[..0] == [];
      VisitedMembers(t.enrollments[id], GatewayTexts(t), GatewaysAt(t.enrollments, [], nodes, started, now), nodes, started, now);
    } else {
      assert rest[i - 1] == id && id != first;
      PassRow(next, rest, i - 1, nodes, started, now);
      LaterGateways(t, order, i, nodes, started, now);
      VisitedMembers(t.enrollments[id], GatewaysAt(next.enrollments, rest[..i - 1], nodes, started, now),
                     GatewaysAt(t.enrollments, order[..i], nodes, started, now), nodes, started, now);
    }
  }

  lemma LaterGateways(t: Tables, order: seq<Id>, i: nat, nodes: Option<seq<Node>>, started: Time, now: Time)
    requires 0 < i <= |order| && NoRepeats(order) && order[0] in t.enrollments
    ensures var next := SweepEnrollment(t, order[0], nodes, started, now).enrollments;
            forall x :: x in GatewaysAt(next, order[1..][..i - 1], nodes, started, now)
                        <==> x in GatewaysAt(t.enrollments, order[..i], nodes, started, now)
  {
    var next, rest := SweepEnrollment(t, order[0], nodes, started, now).enrollments, order[1..][..i - 1];
    VisitGateways(t, order[0], nodes, started, now);
    assert order[..i] == [order[0]] + rest;
    FirstGateways(t.enrollments, next, order[0], rest, order[..i], nodes, started, now);
  }

  /** The endpoint of an enrollment is taken down in the pass only by a denial of its own. */
  lemma {:induction false} PassLapses(t: Tables, order: seq<Id>, nodes: Option<seq<Node>>, started: Time, now: Time, id: Id)
    requires (forall x :: x in order ==> x in t.enrollments) && NoRepeats(order) && id in t.enrollments
    ensures var u := SweepEnrollments(t, order, nodes, started, now);
            && (Lapses(u, id, started) ==> Lapses(t, id, started))
            && (Lapses(t, id, started) ==> Lapses(u, id, started) || u.enrollments[id] == DeniedRow(u.enrollments[id], now))
    decreases |order|
  {
    if order != [] {
      var next := SweepEnrollment(t, order[0], nodes, started, now);
      VisitLapses(t, order[0], nodes, started, now, id);
      if order[0] == id {
        PassUntouched(next, order[1..], nodes, started, now, id);
      } else {
        PassLapses(next, order[1..], nodes, started, now, id);
      }
    }
  }

  // ----------------------------------------------------------------------- all endpoints

  ghost predicate LapsesIn(t: Tables, order: seq<Id>, id: Id, started: Time)
  {
    exists r :: r in order && r in t.endpoints && t.endpoints[r].enrollmentId == id && !Withdrawn(t.endpoints[r].state)
                && t.endpoints[r].leaseExpires <= started
  }

  lemma EndpointVisit(cfg: Settings, t: Tables, r: Id, order: seq<Id>, started: Time, now: Time, id: Id)
    requires r in t.endpoints && t.endpoints[r].enrollmentId in t.enrollments && id in t.enrollments
    ensures var u := SweepEndpoint(cfg, t, r, started, now);
            && u.enrollments[id] == (if LapsesIn(t, [r], id, started) then DeniedRow(t.enrollments[id], now) else t.enrollments[id])
            && (LapsesIn(u, order, id, started) ==> LapsesIn(t, order, id, started))
            && (LapsesIn(t, order, id, started) ==> LapsesIn(u, order, id, started) || LapsesIn(t, [r], id, started))
  {
    var u := SweepEndpoint(cfg, t, r, started, now);
    forall k | k in t.endpoints
      ensures u.endpoints[k].enrollmentId == t.endpoints[k].enrollmentId && u.endpoints[k].leaseExpires == t.endpoints[k].leaseExpires
      ensures !Withdrawn(u.endpoints[k].state) ==> !Withdrawn(t.endpoints[k].state)
      ensures t.endpoints[k].enrollmentId == id && !LapsesIn(t, [r], id, started) && !Withdrawn(t.endpoints[k].state) ==>
                !Withdrawn(u.endpoints[k].state)
    {
      assert r in [r];
    }
  }

  lemma {:induction false} EndpointPass(cfg: Settings, t: Tables, order: seq<Id>, started: Time, now: Time, id: Id)
    requires Invariant(t) && (forall r :: r in order ==> r in t.endpoints) && id in t.enrollments
    ensures SweepEndpoints(cfg, t, order, started, now).enrollments[id]
            == if LapsesIn(t, order, id, started) then DeniedRow(t.enrollments[id], now) else t.enrollments[id]
    decreases |order|
  {
    if order != [] {
      assert EndpointBound(t.enrollments, order[0], t.endpoints[order[0]]);
      EndpointVisit(cfg, t, order[0], order[1..], started, now, id);
      SweepEndpointKeeps(cfg, t, order[0], started, now);
      EndpointPass(cfg, SweepEndpoint(cfg, t, order[0], started, now), order[1..], started, now, id);
      LapsesInCons(t, order, id, started);
    }
  }

  lemma LapsesInCons(t: Tables, order: seq<Id>, id: Id, started: Time)
    requires order != []
    ensures LapsesIn(t, order, id, started) <==> LapsesIn(t, [order[0]], id, started) || LapsesIn(t, order[1..], id, started)
  {
    assert order == [order[0]] + order[1..];
  }

  // --------------------------------------------------------------------- the whole sweep

  /** Every enrollment after a sweep, for every order in which the rows are read. */
  lemma SweptRow(cfg: Settings, t: Tables, order: seq<Id>, i: nat, id: Id, endpointOrder: seq<Id>, nodes: Option<seq<Node>>,
                 started: Time, now: Time)
    requires Invariant(t) && Lists(order, t.enrollments.Keys) && Lists(endpointOrder, t.endpoints.Keys)
    requires NoRepeats(order) && i < |order| && order[i] == id && id in t.enrollments
    ensures var gateways := GatewaysAt(t.enrollments, order[..i], nodes, started, now);
            var visited := VisitedRow(t.enrollments[id], gateways, nodes, started, now);
            Sweep(cfg, t, order, endpointOrder, nodes, started, now).enrollments[id]
            == if Lapses(t, id, started) then DeniedRow(visited, now) else visited
  {
    var aged := SweepEnrollments(t, order, nodes, started, now);
    PassRow(t, order, i, nodes, started, now);
    PassLapses(t, order, nodes, started, now, id);
    SweepEnrollmentsKeeps(t, order, nodes, started, now);
    EndpointPass(cfg, aged, endpointOrder, started, now, id);
    assert LapsesIn(aged, endpointOrder, id, started) <==> Lapses(aged, id, started);
  }

  /** Exactly when a sweep takes a confirmed enrollment down: its node is listed with
      other, acceptable addresses, or the lease of its endpoint has run out. */
  lemma TakenDownIff(cfg: Settings, t: Tables, order: seq<Id>, i: nat, id: Id, endpointOrder: seq<Id>, nodes: Option<seq<Node>>,
                     started: Time, now: Time)
    requires Invariant(t) && Lists(order, t.enrollments.Keys) && Lists(endpointOrder, t.endpoints.Keys)
    requires NoRepeats(order) && i < |order| && order[i] == id
    requires id in t.enrollments && t.enrollments[id].state == Confirmed
    ensures var gateways := GatewaysAt(t.enrollments, order[..i], nodes, started, now);
            Dead(Sweep(cfg, t, order, endpointOrder, nodes, started, now).enrollments[id].state) <==>
              || (nodes.Some? && Look(t.enrollments[id], gateways, nodes.value, now) == Moved)
              || Lapses(t, id, started)
  {
    SweptRow(cfg, t, order, i, id, endpointOrder, nodes, started, now);
    VisitDenies(t.enrollments[id], GatewaysAt(t.enrollments, order[..i], nodes, started, now), nodes, started, now);
  }

  lemma VisitDenies(e: Enrollment, gateways: set<Id>, nodes: Option<seq<Node>>, started: Time, now: Time)
    requires e.state == Confirmed
    ensures Dead(VisitedRow(e, gateways, nodes, started, now).state)
            <==> nodes.Some? && Look(e, gateways, nodes.value, now) == Moved
  {
  }

  /** A gateway among `visited` has, after its visit, one of these addresses. */
  ghost predicate TakenBy(rows: Enrollments, visited: seq<Id>, ips: seq<Address>, nodes: seq<Node>, started: Time, now: Time)
  {
    exists k, a, b :: && k in visited && k in rows && rows[k].role == GatewayRole && b in ips && b.Ip?
                      && a in VisitedRow(rows[k], {}, Some(nodes), started, now).ips && a.Ip? && a.text == b.text
  }

  lemma MovedStill(t: Tables, id: Id, visited: seq<Id>, nodes: seq<Node>, started: Time, now: Time)
    requires id in t.enrollments && Seen(t, id, nodes, now) == Moved
    ensures var e := t.enrollments[id];
            var gateways := GatewaysAt(t.enrollments, visited, Some(nodes), started, now);
            && |Matching(nodes, e.keyId)| == 1
            && (Look(e, gateways, nodes, now) == Moved <==>
                  e.role == GatewayRole || !TakenBy(t.enrollments, visited, Matching(nodes, e.keyId)[0].ips, nodes, started, now))
  {
    var e, gateways := t.enrollments[id], GatewaysAt(t.enrollments, visited, Some(nodes), started, now);
    var ips := Matching(nodes, e.keyId)[0].ips;
    if e.role != GatewayRole {
      forall b | b in ips
        ensures b.Ip? && (b.text in gateways ==> TakenBy(t.enrollments, visited, ips, nodes, started, now))
      {
        assert b.text !in GatewayTexts(t);
      }
    }
  }

  /** A changed address of a confirmed enrollment, in any node list: a confirmation is
      refused and leaves everything standing.  The sweep makes the denial durable, except
      where a gateway visited before has just been given one of the new addresses; then
      the enrollment stands unless the lease of its endpoint has run out. */
  lemma AddressChange(cfg: Settings, t: Tables, order: seq<Id>, i: nat, id: Id, endpointOrder: seq<Id>, nodes: seq<Node>,
                      started: Time, now: Time)
    requires Invariant(t) && Lists(order, t.enrollments.Keys) && Lists(endpointOrder, t.endpoints.Keys)
    requires NoRepeats(order) && i < |order| && order[i] == id
    requires id in t.enrollments && t.enrollments[id].state == Confirmed && Seen(t, id, nodes, now) == Moved
    ensures Confirm(t, id, nodes, now) == Abort(t, if Current(t, id).Raised? then Current(t, id).status else 409)
    ensures var e := t.enrollments[id];
            && |Matching(nodes, e.keyId)| == 1
            && (Dead(Sweep(cfg, t, order, endpointOrder, Some(nodes), started, now).enrollments[id].state) <==>
                  || e.role == GatewayRole || Lapses(t, id, started)
                  || !TakenBy(t.enrollments, order[..i], Matching(nodes, e.keyId)[0].ips, nodes, started, now))
  {
    AddressChangeConfirmed(t, id, nodes, now);
    MovedStill(t, id, order[..i], nodes, started, now);
    TakenDownIff(cfg, t, order, i, id, endpointOrder, Some(nodes), started, now);
  }

  // ------------------------------------------------------------------- a run that gets there

  lemma ReserveGateway(cfg: Settings, t: Tables, i: Id, a: Enrollment, request: EnrollRequest, j: Id) returns (b: Enrollment)
    requires Only(t, i, a) && i != j && a.role == EndpointRole && a.actor == Controller && a.idempotency == "k"
    requires request == EnrollRequest(GatewayRole, cfg.gatewayId, cfg.gatewayGeneration)
    ensures Two(Reserve(cfg, t, request, 4, Controller, Some("m"), j, 3.0, 3.0).tables, i, a, j, b)
    ensures b == PendingRow(cfg, request, 4, Controller, "m", b.created, 3.0)
  {
    b := PendingRow(cfg, request, 4, Controller, "m", NextCreated(t.enrollments, request.role, request.identity, 3.0), 3.0);
    assert Displaced(t, request.role, request.identity) == {};
  }

  /** Beside a confirmed endpoint enrollment a gateway has been given a key. */
  lemma GatewayKeyed() returns (cfg: Settings, run: seq<Event>, a: Enrollment, b: Enrollment)
    ensures Timed(0.0, run) && End(0.0, run) == 4.0 && Two(After(cfg, run), 7, a, 9, b)
    ensures a.state == Confirmed && a.role == EndpointRole && a.keyId == Some(8) && a.nodeId == Some(3)
    ensures a.tags == [RoleTag(EndpointRole)] && a.ips == [Ip(20, true)]
    ensures b.state == KeyIssued && b.role == GatewayRole && b.keyId == Some(10) && b.nodeId == None && b.ips == []
    ensures b.tags == [RoleTag(GatewayRole)] && 5.0 < b.expires
  {
    var first: seq<Event>, older: Enrollment;
    cfg, first, older := ConfirmedReachable();
    var request := EnrollRequest(GatewayRole, cfg.gatewayId, cfg.gatewayGeneration);
    var reserve := Event(DoReserve(request, 4, Controller, Some("m"), 9, 3.0), 3.0);
    var complete := Event(DoCompleteKey(9, 10, 9), 4.0);
    TimedSnoc(0.0, first, reserve);
    TimedSnoc(0.0, first + [reserve], complete);
    run := first + [reserve] + [complete];
    ExecOne(cfg, first, reserve);
    ExecOne(cfg, first + [reserve], complete);
    var pending := ReserveGateway(cfg, After(cfg, first), 7, older, request, 9);
    CompleteSecond(After(cfg, first + [reserve]), 7, older, 9, pending, 10);
    a, b := older, pending.(keyId := Some(10), updated := 4.0, ciphertext := Some(9), state := KeyIssued);
  }

  const MOVED_NODE := WITNESS_NODE.(ips := [Ip(21, true)])
  const GATEWAY_NODE := Node(4, 10, [RoleTag(GatewayRole)], [Ip(21, true)], true, None, false, false)

  lemma GatewayTakes(rows: Enrollments, b: Enrollment)
    requires 9 in rows && rows[9] == b && b.state == KeyIssued && b.role == GatewayRole && b.keyId == Some(10)
    requires b.nodeId == None && b.ips == [] && b.tags == [RoleTag(GatewayRole)] && 5.0 < b.expires
    ensures TakenBy(rows, [9], MOVED_NODE.ips, [MOVED_NODE, GATEWAY_NODE], 5.0, 5.0)
  {
    PairMatching(MOVED_NODE, GATEWAY_NODE);
    var x := Ip(21, true);
    assert VisitedRow(b, {}, Some([MOVED_NODE, GATEWAY_NODE]), 5.0, 5.0).ips == [x] && MOVED_NODE.ips == [x];
    assert 9 in [9] && x in [x];
  }

  lemma EndpointMoved(t: Tables, a: Enrollment, b: Enrollment)
    requires Two(t, 7, a, 9, b) && a.state == Confirmed && a.role == EndpointRole && a.keyId == Some(8) && a.nodeId == Some(3)
    requires a.tags == [RoleTag(EndpointRole)] && a.ips == [Ip(20, true)] && b.ips == []
    ensures Seen(t, 7, [MOVED_NODE, GATEWAY_NODE], 5.0) == Moved
    ensures Matching([MOVED_NODE, GATEWAY_NODE], a.keyId) == [MOVED_NODE]
  {
    PairMatching(MOVED_NODE, GATEWAY_NODE);
    assert GatewayTexts(t) == {};
  }

  /** And that happens: the gateway and the endpoint are both listed with one new address,
      the gateway is visited first, and the endpoint's enrollment stands. */
  lemma AddressChangeMissed() returns (cfg: Settings, run: seq<Event>, order: seq<Id>, nodes: seq<Node>, now: Time)
    ensures Timed(0.0, run) && End(0.0, run) <= now && NoRepeats(order) && Lists(order, After(cfg, run).enrollments.Keys)
    ensures var t := After(cfg, run);
            && 7 in t.enrollments && t.enrollments[7].state == Confirmed && Seen(t, 7, nodes, now) == Moved
            && Lists([], t.endpoints.Keys)
            && Live(Sweep(cfg, t, order, [], Some(nodes), now, now).enrollments[7].state)
  {
    var a: Enrollment, b: Enrollment;
    cfg, run, a, b := GatewayKeyed();
    order, nodes, now := [9, 7], [MOVED_NODE, GATEWAY_NODE], 5.0;
    RunKeeps(cfg, EMPTY, 0.0, run);
    MissedIn(cfg, After(cfg, run), a, b);
  }

  lemma MissedIn(cfg: Settings, t: Tables, a: Enrollment, b: Enrollment)
    requires Invariant(t) && Two(t, 7, a, 9, b) && a.state == Confirmed && a.role == EndpointRole
    requires a.keyId == Some(8) && a.nodeId == Some(3) && a.tags == [RoleTag(EndpointRole)] && a.ips == [Ip(20, true)]
    requires b.state == KeyIssued && b.role == GatewayRole && b.keyId == Some(10)
    requires b.nodeId == None && b.ips == [] && b.tags == [RoleTag(GatewayRole)] && 5.0 < b.expires
    ensures Seen(t, 7, [MOVED_NODE, GATEWAY_NODE], 5.0) == Moved && NoRepeats([9, 7])
    ensures Lists([9, 7], t.enrollments.Keys) && Lists([], t.endpoints.Keys)
    ensures Live(Sweep(cfg, t, [9, 7], [], Some([MOVED_NODE, GATEWAY_NODE]), 5.0, 5.0).enrollments[7].state)
  {
    EndpointMoved(t, a, b);
    GatewayTakes(t.enrollments, b);
    assert [9, 7][..1] == [9];
    AddressChange(cfg, t, [9, 7], 1, 7, [], [MOVED_NODE, GATEWAY_NODE], 5.0, 5.0);
  }

  lemma PairMatching(a: Node, b: Node)
    requires a.keyId != b.keyId
    ensures Matching([a, b], Some(a.keyId)) == [a] && Matching([a, b], Some(b.keyId)) == [b]
  {
    assert [a, b][1..] == [b];
    MatchingNone(b, Some(a.keyId));
    MatchingOne(b, Some(b.keyId));
    assert [a] + [] == [a] && [] + [b] == [b];
  }

  lemma MatchingNone(node: Node, keyId: Option<Id>)
    requires keyId != Some(node.keyId)
    ensures Matching([node], keyId) == []
  {
    assert [node][1..] == [];
    assert Matching([], keyId) == [];
  }
}
