/** What one pass of the reconciler leaves behind. */
module ManagementSweep {
  import opened Common
  import opened ManagementTables
  import opened ManagementTransactions
  import opened ManagementInvariants

  /** The enrollment is not an unconfirmed one past its expiry. */
  predicate Aged(e: Enrollment, started: Time)
  {
    e.state.Pending? || e.state.KeyIssued? || e.state.UnknownResult? ==> started < e.expires
  }

  ghost predicate AllAged(rows: Enrollments, ids: set<Id>, started: Time)
  {
    forall k :: k in ids && k in rows ==> Aged(rows[k], started)
  }

  lemma ObserveAges(t: Tables, id: Id, nodes: seq<Node>, now: Time, started: Time, ids: set<Id>)
    requires id in t.enrollments && AllAged(t.enrollments, ids, started)
    ensures AllAged(Observe(t, id, nodes, now).tables.enrollments, ids, started)
  {
  }

  lemma SweepAgedAges(t: Tables, id: Id, nodes: Option<seq<Node>>, now: Time, started: Time, ids: set<Id>)
    requires id in t.enrollments && AllAged(t.enrollments, ids, started)
    ensures AllAged(SweepAged(t, id, nodes, now).enrollments, ids, started)
  {
    if nodes.Some? {
      ObserveAges(t, id, nodes.value, now, started, ids);
    }
  }

  lemma SweepEnrollmentAges(t: Tables, id: Id, nodes: Option<seq<Node>>, started: Time, now: Time, ids: set<Id>)
    requires id in t.enrollments && AllAged(t.enrollments, ids, started)
    ensures AllAged(SweepEnrollment(t, id, nodes, started, now).enrollments, ids + {id}, started)
  {
    SweepAgedAges(SetEnrollment(t, id, AgedState(t.enrollments[id], started)), id, nodes, now, started, ids + {id});
  }

  lemma {:induction false} SweepEnrollmentsAge(t: Tables, order: seq<Id>, nodes: Option<seq<Node>>, started: Time, now: Time, ids: set<Id>)
    requires forall k :: k in order ==> k in t.enrollments
    requires AllAged(t.enrollments, ids, started)
    ensures AllAged(SweepEnrollments(t, order, nodes, started, now).enrollments, ids + (set k | k in order), started)
    decreases |order|
  {
    if order != [] {
      SweepEnrollmentAges(t, order[0], nodes, started, now, ids);
      SweepEnrollmentsAge(SweepEnrollment(t, order[0], nodes, started, now), order[1..], nodes, started, now, ids + {order[0]});
      assert ids + (set k | k in order) == (ids + {order[0]}) + (set k | k in order[1..]);
    }
  }

  /** The endpoint is withdrawn, or its lease runs and it is advertised as ready
      only on fresh evidence. */
  predicate Settled(cfg: Settings, t: Tables, r: Id, started: Time, now: Time)
  {
    r in t.endpoints && (!Withdrawn(t.endpoints[r].state) ==>
      var p := t.endpoints[r];
      && started < p.leaseExpires
      && (p.state.Ready? ==>
            && p.enrollmentId in t.enrollments && Membership(cfg, t.enrollments[p.enrollmentId], now)
            && Stamped(p.probed) && started < p.probed.value + cfg.observationTtl))
  }

  lemma SweepEndpointSettles(cfg: Settings, t: Tables, r: Id, started: Time, now: Time)
    requires Invariant(t) && r in t.endpoints
    ensures Settled(cfg, SweepEndpoint(cfg, t, r, started, now), r, started, now)
  {
    assert EndpointBound(t.enrollments, r, t.endpoints[r]);
  }

  lemma SweepEndpointKeepsSettled(cfg: Settings, t: Tables, r: Id, other: Id, started: Time, now: Time)
    requires r in t.endpoints && other != r && Settled(cfg, t, other, started, now)
    ensures Settled(cfg, SweepEndpoint(cfg, t, r, started, now), other, started, now)
  {
  }

  lemma SweepEndpointAges(cfg: Settings, t: Tables, r: Id, started: Time, now: Time, ids: set<Id>)
    requires r in t.endpoints && AllAged(t.enrollments, ids, started)
    ensures AllAged(SweepEndpoint(cfg, t, r, started, now).enrollments, ids, started)
  {
  }

  lemma {:induction false} SweepEndpointsSettle(cfg: Settings, t: Tables, order: seq<Id>, started: Time, now: Time,
                                                ids: set<Id>, done: set<Id>)
    requires Invariant(t) && (forall k :: k in order ==> k in t.endpoints)
    requires AllAged(t.enrollments, ids, started) && forall r :: r in done ==> Settled(cfg, t, r, started, now)
    ensures AllAged(SweepEndpoints(cfg, t, order, started, now).enrollments, ids, started)
    ensures forall r :: r in done || r in order ==>
              Settled(cfg, SweepEndpoints(cfg, t, order, started, now), r, started, now)
    decreases |order|
  {
    if order != [] {
      var next := SweepEndpoint(cfg, t, order[0], started, now);
      SweepEndpointKeeps(cfg, t, order[0], started, now);
      SweepEndpointAges(cfg, t, order[0], started, now, ids);
      forall r | r in done + {order[0]} ensures Settled(cfg, next, r, started, now) {
        if r == order[0] {
          SweepEndpointSettles(cfg, t, r, started, now);
        } else {
          SweepEndpointKeepsSettled(cfg, t, order[0], r, started, now);
        }
      }
      SweepEndpointsSettle(cfg, next, order[1..], started, now, ids, done + {order[0]});
    }
  }

  /** Before the sessions are swept: the first two parts of the result. */
  lemma SweepSettles(cfg: Settings, t: Tables, enrollmentOrder: seq<Id>, endpointOrder: seq<Id>,
                     nodes: Option<seq<Node>>, started: Time, now: Time)
    requires Invariant(t)
    requires Lists(enrollmentOrder, t.enrollments.Keys) && Lists(endpointOrder, t.endpoints.Keys)
    ensures var aged := SweepEnrollments(t, enrollmentOrder, nodes, started, now);
            var swept := SweepEndpoints(cfg, aged, endpointOrder, started, now);
            && (forall k :: k in t.enrollments ==> Aged(swept.enrollments[k], started))
            && (forall r :: r in t.endpoints ==> Settled(cfg, swept, r, started, now))
  {
    var aged := SweepEnrollments(t, enrollmentOrder, nodes, started, now);
    SweepEnrollmentsKeeps(t, enrollmentOrder, nodes, started, now);
    SweepEnrollmentsAge(t, enrollmentOrder, nodes, started, now, {});
    var all := set k | k in enrollmentOrder;
    assert {} + all == all;
    SweepEndpointsSettle(cfg, aged, endpointOrder, started, now, all, {});
    assert AllAged(SweepEndpoints(cfg, aged, endpointOrder, started, now).enrollments, all, started);
  }

  /** After a sweep no unconfirmed enrollment past its expiry, no standing
      endpoint past its lease, no readiness without fresh evidence and no active
      session past its lease or deadline is left. */
  lemma SweepClears(cfg: Settings, t: Tables, enrollmentOrder: seq<Id>, endpointOrder: seq<Id>,
                    nodes: Option<seq<Node>>, started: Time, now: Time)
    requires Invariant(t)
    requires Lists(enrollmentOrder, t.enrollments.Keys) && Lists(endpointOrder, t.endpoints.Keys)
    ensures var u := Sweep(cfg, t, enrollmentOrder, endpointOrder, nodes, started, now);
            && (forall k :: k in u.enrollments ==> Aged(u.enrollments[k], started))
            && (forall r :: r in u.endpoints ==> Settled(cfg, u, r, started, now))
            && (forall s :: s in u.sessions && u.sessions[s].state == Active ==> !Lapsed(u.sessions[s], started))
  {
    SweepSettles(cfg, t, enrollmentOrder, endpointOrder, nodes, started, now);
    var aged := SweepEnrollments(t, enrollmentOrder, nodes, started, now);
    SweepSessionsSettles(cfg, SweepEndpoints(cfg, aged, endpointOrder, started, now), started, now);
  }

  lemma SweepSessionsSettles(cfg: Settings, t: Tables, started: Time, now: Time)
    ensures var u := SweepSessions(t, started);
            && (forall r :: r in t.endpoints && Settled(cfg, t, r, started, now) ==> Settled(cfg, u, r, started, now))
            && (forall s :: s in u.sessions && u.sessions[s].state == Active ==> !Lapsed(u.sessions[s], started))
  {
  }
}
