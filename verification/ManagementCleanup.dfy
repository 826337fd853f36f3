/**
 What the reconciler deletes at the control plane after a sweep: the keys and nodes of
 dead enrollments, and when those of a live one are among them.
 */
module ManagementCleanup {
  import opened Common
  import opened ManagementTables
  import opened ManagementTransactions
  import opened ManagementRuns
  import opened ManagementTheorems
  import opened ManagementInvariants
  import opened ManagementObservation
  import opened ManagementSwept

  /** The cleanup deletes neither the key nor the node of the enrollment. */
  predicate Spares(c: Cleanup, e: Enrollment)
  {
    && (e.keyId.Some? ==> c.keyId != e.keyId)
    && (e.nodeId.Some? ==> e.nodeId.value !in c.nodeIds)
  }

  /** The two enrollments have no key and no node in common, and no listed node that
      used the key of `d` is the node of `e`. */
  ghost predicate Apart(d: Enrollment, e: Enrollment, nodes: seq<Node>)
  {
    && (e.keyId.Some? ==> d.keyId != e.keyId)
    && (e.nodeId.Some? ==> d.nodeId != e.nodeId)
    && (e.nodeId.Some? ==> forall n :: n in nodes && Some(n.keyId) == d.keyId ==> n.id != e.nodeId.value)
  }

  lemma {:induction false} NodeIdsIff(nodes: seq<Node>, keyId: Option<Id>, id: Id)
    ensures id in NodeIds(Matching(nodes, keyId)) <==> exists n :: n in nodes && Some(n.keyId) == keyId && n.id == id
  {
    if nodes != [] {
      NodeIdsIff(nodes[1..], keyId, id);
      var rest := Matching(nodes[1..], keyId);
      if Some(nodes[0].keyId) == keyId {
        assert Matching(nodes, keyId) == [nodes[0]] + rest && ([nodes[0]] + rest)[1..] == rest;
      } else {
        assert Matching(nodes, keyId) == [] + rest == rest;
      }
      assert forall n :: n in nodes <==> n == nodes[0] || n in nodes[1..];
    }
  }

  /** What one cleanup deletes: the enrollment's key, and exactly the listed nodes that
      used it and the node it was confirmed with. */
  lemma SparesIff(id: Id, d: Enrollment, nodes: seq<Node>, e: Enrollment)
    ensures Spares(CleanupFor(id, d, nodes), e) <==> Apart(d, e, nodes)
  {
    if e.nodeId.Some? {
      NodeIdsIff(nodes, d.keyId, e.nodeId.value);
    }
  }

  /** The cleanups of a sweep are complete and nothing else: one for each due row, and
      each is that of its row. */
  lemma {:induction false} CleanupComplete(rows: Enrollments, order: seq<Id>, nodes: seq<Node>, started: Time)
    requires forall k :: k in order ==> k in rows
    ensures forall c :: c in CleanupList(rows, order, Some(nodes), started) <==>
              c.enrollmentId in order && Due(rows[c.enrollmentId], started)
              && c == CleanupFor(c.enrollmentId, rows[c.enrollmentId], nodes)
    ensures CleanupList(rows, order, None, started) == []
    decreases |order|
  {
    if order != [] {
      var rest, last := order[..|order| - 1], order[|order| - 1];
      CleanupComplete(rows, rest, nodes, started);
      assert order == rest + [last];
    }
  }

  /** A sweep spares the key and the node of an enrollment exactly when every due
      row is apart from it. */
  lemma CleanupSparesIff(rows: Enrollments, order: seq<Id>, nodes: seq<Node>, started: Time, e: Enrollment)
    requires forall k :: k in order ==> k in rows
    ensures (forall c :: c in CleanupList(rows, order, Some(nodes), started) ==> Spares(c, e))
            <==> (forall d :: d in order && Due(rows[d], started) ==> Apart(rows[d], e, nodes))
  {
    CleanupComplete(rows, order, nodes, started);
    var list := CleanupList(rows, order, Some(nodes), started);
    forall d | d in order && Due(rows[d], started)
      ensures CleanupFor(d, rows[d], nodes) in list && (Spares(CleanupFor(d, rows[d], nodes), e) <==> Apart(rows[d], e, nodes))
    {
      SparesIff(d, rows[d], nodes, e);
    }
  }

  /** What the control plane promises of its keys and nodes: no two enrollments hold
      the same key or node, a node that is listed is listed under the key of the
      enrollment it belongs to, and no two listed nodes have one identifier. */
  ghost predicate OwnedApart(rows: Enrollments, nodes: seq<Node>)
  {
    && (forall i, j :: i in rows && j in rows && i != j && rows[i].keyId.Some? ==> rows[i].keyId != rows[j].keyId)
    && (forall i, j :: i in rows && j in rows && i != j && rows[i].nodeId.Some? ==> rows[i].nodeId != rows[j].nodeId)
    && (forall i, n :: i in rows && n in nodes && rows[i].nodeId == Some(n.id) ==> rows[i].keyId == Some(n.keyId))
    && (forall m, n :: m in nodes && n in nodes && m.id == n.id ==> m == n)
  }

  /** The key of an enrollment stays; a visit may give it a listed node that used the key. */
  lemma VisitedOwns(e: Enrollment, gateways: set<Id>, nodes: seq<Node>, started: Time, now: Time)
    ensures var v := VisitedRow(e, gateways, Some(nodes), started, now);
            && v.keyId == e.keyId
            && (v.nodeId == e.nodeId || exists n :: n in nodes && v.nodeId == Some(n.id) && e.keyId == Some(n.keyId))
            && (Due(e, started) ==> Dead(v.state))
  {
    var aged := AgedState(e, started);
    MatchingKey(nodes, aged.keyId);
    var found := Matching(nodes, aged.keyId);
    assert |found| == 1 ==> found[0] in found;
  }

  /** Where the control plane keeps its promises, no cleanup names the key or the node
      that an enrollment has after the sweep, if it is live then: neither one it had
      before nor a node it was just confirmed with. */
  lemma CleanupSparesLive(cfg: Settings, t: Tables, order: seq<Id>, i: nat, id: Id, endpointOrder: seq<Id>,
                          nodes: seq<Node>, started: Time, now: Time)
    requires Invariant(t) && Lists(order, t.enrollments.Keys) && Lists(endpointOrder, t.endpoints.Keys)
    requires NoRepeats(order) && i < |order| && order[i] == id && id in t.enrollments
    requires OwnedApart(t.enrollments, nodes)
    ensures var e := Sweep(cfg, t, order, endpointOrder, Some(nodes), started, now).enrollments[id];
            Live(e.state) ==> forall c :: c in CleanupList(t.enrollments, order, Some(nodes), started) ==> Spares(c, e)
  {
    var e := Sweep(cfg, t, order, endpointOrder, Some(nodes), started, now).enrollments[id];
    SweptRow(cfg, t, order, i, id, endpointOrder, Some(nodes), started, now);
    VisitedOwns(t.enrollments[id], GatewaysAt(t.enrollments, order[..i], Some(nodes), started, now), nodes, started, now);
    if Live(e.state) {
      forall d | d in order && Due(t.enrollments[d], started) ensures Apart(t.enrollments[d], e, nodes) {
        OthersApart(t.enrollments, nodes, d, id, e);
      }
      CleanupSparesIff(t.enrollments, order, nodes, started, e);
    }
  }

  lemma OthersApart(rows: Enrollments, nodes: seq<Node>, d: Id, id: Id, e: Enrollment)
    requires OwnedApart(rows, nodes) && d in rows && id in rows && d != id && e.keyId == rows[id].keyId
    requires e.nodeId == rows[id].nodeId || exists n :: n in nodes && e.nodeId == Some(n.id) && e.keyId == Some(n.keyId)
    ensures Apart(rows[d], e, nodes)
  {
  }

  // ------------------------------------------------------------------- a run that gets there

  lemma ReserveSecond(cfg: Settings, t: Tables, i: Id, a: Enrollment, request: EnrollRequest, j: Id) returns (b: Enrollment)
    requires Only(t, i, a) && i != j && a.state == Confirmed && a.actor == Controller && a.idempotency == "k"
    requires request.role == a.role == EndpointRole && request.identity == a.identity && request.generation != a.generation
    ensures Two(Reserve(cfg, t, request, 4, Controller, Some("m"), j, 3.0, 3.0).tables, i, DeniedRow(a, 3.0), j, b)
    ensures b == PendingRow(cfg, request, 4, Controller, "m", b.created, 3.0) && a.created < b.created
  {
    b := PendingRow(cfg, request, 4, Controller, "m", NextCreated(t.enrollments, request.role, request.identity, 3.0), 3.0);
    assert i in Slot(t.enrollments, request.role, request.identity);
    assert i in Displaced(t, request.role, request.identity);
  }

  lemma ConfirmSecond(t: Tables, i: Id, a: Enrollment, j: Id, b: Enrollment, node: Node)
    requires Two(t, i, a, j, b) && a.role == b.role == EndpointRole && a.created < b.created && b.state == KeyIssued
    requires b.keyId == Some(node.keyId) && NodeFits(b, node) && b.ips == [] && 5.0 < b.expires
    requires AcceptableAddresses(node.ips, {}) && !NodeGone(node, 5.0)
    ensures Two(Confirm(t, j, [node], 5.0).tables, i, a, j, ConfirmedRow(b, node, 5.0))
  {
    MatchingOne(node, b.keyId);
    assert GatewayTexts(t) == {};
    ConfirmKeepsIff(t, j, [node], 5.0);
  }

  /** The node of a confirmed enrollment registers again under the key of the next
      generation, which is confirmed with it. */
  lemma NodeReused() returns (cfg: Settings, run: seq<Event>, a: Enrollment, b: Enrollment)
    ensures Timed(0.0, run) && End(0.0, run) == 5.0 && Two(After(cfg, run), 7, a, 9, b)
    ensures a.state == Revoking && a.retryAfter == 0.0 && b.state == Confirmed && a.nodeId == b.nodeId == Some(3)
    ensures b.role == EndpointRole && b.keyId == Some(10) && b.tags == [RoleTag(EndpointRole)] && b.ips == [Ip(20, true)]
    ensures a.role == EndpointRole
  {
    var first: seq<Event>, older: Enrollment;
    cfg, first, older := ConfirmedReachable();
    var request := EnrollRequest(EndpointRole, 5, 2);
    var node := WITNESS_NODE.(keyId := 10);
    var reserve := Event(DoReserve(request, 4, Controller, Some("m"), 9, 3.0), 3.0);
    var complete, confirm := Event(DoCompleteKey(9, 10, 9), 4.0), Event(DoConfirm(9, [node]), 5.0);
    TimedSnoc(0.0, first, reserve);
    TimedSnoc(0.0, first + [reserve], complete);
    TimedSnoc(0.0, first + [reserve] + [complete], confirm);
    run := first + [reserve] + [complete] + [confirm];
    ExecOne(cfg, first, reserve);
    ExecOne(cfg, first + [reserve], complete);
    ExecOne(cfg, first + [reserve] + [complete], confirm);
    var pending := ReserveSecond(cfg, After(cfg, first), 7, older, request, 9);
    CompleteSecond(After(cfg, first + [reserve]), 7, DeniedRow(older, 3.0), 9, pending, 10);
    var issued := pending.(keyId := Some(10), updated := 4.0, ciphertext := Some(9), state := KeyIssued);
    ConfirmSecond(After(cfg, first + [reserve] + [complete]), 7, DeniedRow(older, 3.0), 9, issued, node);
    a, b := DeniedRow(older, 3.0), ConfirmedRow(issued, node, 5.0);
  }

  /** Without that promise it can happen: in this run the node is deleted with the older
      enrollment, while the sweep has just verified the newer one with it. */
  lemma CleanupCanNameLive() returns (cfg: Settings, run: seq<Event>, order: seq<Id>, nodes: seq<Node>, now: Time, k: Id)
    ensures Timed(0.0, run) && End(0.0, run) <= now
    ensures var t := After(cfg, run);
            && NoRepeats(order) && Lists(order, t.enrollments.Keys) && Lists([], t.endpoints.Keys) && k in t.enrollments
            && var e := Sweep(cfg, t, order, [], Some(nodes), now, now).enrollments[k];
            && e.state == Confirmed && e.online
            && exists c :: c in CleanupList(t.enrollments, order, Some(nodes), now) && !Spares(c, e)
  {
    var a: Enrollment, b: Enrollment;
    cfg, run, a, b := NodeReused();
    order, nodes, now, k := [7, 9], [WITNESS_NODE.(keyId := 10)], 6.0, 9;
    RunKeeps(cfg, EMPTY, 0.0, run);
    NamedIn(cfg, After(cfg, run), a, b);
  }

  lemma NamedIn(cfg: Settings, t: Tables, a: Enrollment, b: Enrollment)
    requires Invariant(t) && Two(t, 7, a, 9, b) && a.state == Revoking && a.retryAfter == 0.0 && a.nodeId == Some(3)
    requires a.role == b.role == EndpointRole && b.state == Confirmed && b.nodeId == Some(3) && b.keyId == Some(10)
    requires b.tags == [RoleTag(EndpointRole)] && b.ips == [Ip(20, true)]
    ensures NoRepeats([7, 9]) && Lists([7, 9], t.enrollments.Keys) && Lists([], t.endpoints.Keys)
    ensures var nodes := [WITNESS_NODE.(keyId := 10)];
            var e := Sweep(cfg, t, [7, 9], [], Some(nodes), 6.0, 6.0).enrollments[9];
            && e.state == Confirmed && e.online
            && exists c :: c in CleanupList(t.enrollments, [7, 9], Some(nodes), 6.0) && !Spares(c, e)
  {
    SweptVerified(cfg, t, a, b);
    var node := WITNESS_NODE.(keyId := 10);
    SharedNodeNamed(t.enrollments, [7, 9], [node], 6.0, 7, ConfirmedRow(b, node, 6.0));
  }

  lemma SweptVerified(cfg: Settings, t: Tables, a: Enrollment, b: Enrollment)
    requires Invariant(t) && Two(t, 7, a, 9, b) && a.role == b.role == EndpointRole && b.state == Confirmed
    requires b.nodeId == Some(3) && b.keyId == Some(10) && b.tags == [RoleTag(EndpointRole)] && b.ips == [Ip(20, true)]
    ensures Lists([7, 9], t.enrollments.Keys) && Lists([], t.endpoints.Keys)
    ensures var node := WITNESS_NODE.(keyId := 10);
            Sweep(cfg, t, [7, 9], [], Some([node]), 6.0, 6.0).enrollments[9] == ConfirmedRow(b, node, 6.0)
  {
    var nodes := Some([WITNESS_NODE.(keyId := 10)]);
    var gateways := GatewaysAt(t.enrollments, [7, 9][..1], nodes, 6.0, 6.0);
    assert forall x :: x !in gateways;
    VerifiedAgain(b, gateways);
    SweptRow(cfg, t, [7, 9], 1, 9, [], nodes, 6.0, 6.0);
  }

  lemma VerifiedAgain(b: Enrollment, gateways: set<Id>)
    requires b.role == EndpointRole && b.state == Confirmed && b.nodeId == Some(3) && b.keyId == Some(10)
    requires b.tags == [RoleTag(EndpointRole)] && b.ips == [Ip(20, true)] && forall x :: x !in gateways
    ensures var node := WITNESS_NODE.(keyId := 10);
            VisitedRow(b, gateways, Some([node]), 6.0, 6.0) == ConfirmedRow(b, node, 6.0)
  {
    MatchingOne(WITNESS_NODE.(keyId := 10), b.keyId);
  }

  lemma SharedNodeNamed(rows: Enrollments, order: seq<Id>, nodes: seq<Node>, started: Time, d: Id, e: Enrollment)
    requires (forall k :: k in order ==> k in rows) && d in order && Due(rows[d], started)
    requires e.nodeId.Some? && rows[d].nodeId == e.nodeId
    ensures exists c :: c in CleanupList(rows, order, Some(nodes), started) && !Spares(c, e)
  {
    CleanupSparesIff(rows, order, nodes, started, e);
    assert !Apart(rows[d], e, nodes);
  }
}
