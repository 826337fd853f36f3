/** The reconciler: one sweep over every row, then one transaction per cleanup. */
module ManagementReconciler {
  import opened Common
  import opened ManagementTables
  import opened ManagementTransactions
  import opened ManagementInvariants
  import opened ManagementService

  // -------------------------------------------- the sweep depends on contents only

  lemma LookSame(t: Tables, u: Tables, e: Enrollment, nodes: seq<Node>, now: Time)
    requires SameMap(t.enrollments, u.enrollments)
    ensures Look(e, GatewayTexts(t), nodes, now) == Look(e, GatewayTexts(u), nodes, now)
  {
    forall x ensures x in GatewayTexts(t) <==> x in GatewayTexts(u) {
    }
  }

  lemma SetEnrollmentSame(t: Tables, u: Tables, id: Id, row: Enrollment)
    requires SameContents(t, u)
    ensures SameContents(SetEnrollment(t, id, row), SetEnrollment(u, id, row))
  {
  }

  lemma ObserveSame(t: Tables, u: Tables, id: Id, nodes: seq<Node>, now: Time)
    requires SameContents(t, u) && id in t.enrollments
    ensures Observe(t, id, nodes, now).outcome == Observe(u, id, nodes, now).outcome
    ensures SameContents(Observe(t, id, nodes, now).tables, Observe(u, id, nodes, now).tables)
  {
    LookSame(t, u, t.enrollments[id], nodes, now);
    var e := t.enrollments[id];
    match Look(e, GatewayTexts(t), nodes, now)
    case Unverified => SetEnrollmentSame(t, u, id, e.(online := false));
    case Unroutable =>
    case Moved => DenySame(t, u, {id}, now);
    case Verified(node) => SetEnrollmentSame(t, u, id, ConfirmedRow(e, node, now));
  }

  lemma SweepAgedSame(t: Tables, u: Tables, id: Id, nodes: Option<seq<Node>>, now: Time)
    requires SameContents(t, u) && id in t.enrollments
    ensures SameContents(SweepAged(t, id, nodes, now), SweepAged(u, id, nodes, now))
  {
    var e := t.enrollments[id];
    if e.state == Revoking || e.state == Revoked || e.state == Expired {
      SetEnrollmentSame(t, u, id, e.(ciphertext := None, online := false));
    } else if nodes.Some? && (e.state == KeyIssued || e.state == Confirmed) {
      ObserveSame(t, u, id, nodes.value, now);
      SetEnrollmentSame(t, u, id, e.(online := false));
    }
  }

  lemma SweepEnrollmentSame(t: Tables, u: Tables, id: Id, nodes: Option<seq<Node>>, started: Time, now: Time)
    requires SameContents(t, u) && id in t.enrollments
    ensures SameContents(SweepEnrollment(t, id, nodes, started, now), SweepEnrollment(u, id, nodes, started, now))
  {
    var e := AgedState(t.enrollments[id], started);
    SweepAgedSame(SetEnrollment(t, id, e), SetEnrollment(u, id, e), id, nodes, now);
  }

  lemma SweepEndpointSame(cfg: Settings, t: Tables, u: Tables, r: Id, started: Time, now: Time)
    requires SameContents(t, u) && r in t.endpoints
    ensures SameContents(SweepEndpoint(cfg, t, r, started, now), SweepEndpoint(cfg, u, r, started, now))
  {
    DenySame(t, u, {t.endpoints[r].enrollmentId}, now);
  }

  lemma {:induction false} SweepEnrollmentsSnoc(t: Tables, order: seq<Id>, last: Id, nodes: Option<seq<Node>>, started: Time, now: Time)
    requires (forall k :: k in order ==> k in t.enrollments) && last in t.enrollments
    ensures forall k :: k in order + [last] ==> k in t.enrollments
    ensures SweepEnrollments(t, order + [last], nodes, started, now)
            == SweepEnrollment(SweepEnrollments(t, order, nodes, started, now), last, nodes, started, now)
    decreases |order|
  {
    if order == [] {
      assert [last][1..] == [];
    } else {
      assert (order + [last])[1..] == order[1..] + [last];
      SweepEnrollmentsSnoc(SweepEnrollment(t, order[0], nodes, started, now), order[1..], last, nodes, started, now);
    }
  }

  lemma {:induction false} SweepEndpointsSnoc(cfg: Settings, t: Tables, order: seq<Id>, last: Id, started: Time, now: Time)
    requires (forall k :: k in order ==> k in t.endpoints) && last in t.endpoints
    ensures forall k :: k in order + [last] ==> k in t.endpoints
    ensures SweepEndpoints(cfg, t, order + [last], started, now)
            == SweepEndpoint(cfg, SweepEndpoints(cfg, t, order, started, now), last, started, now)
    decreases |order|
  {
    if order == [] {
      assert [last][1..] == [];
    } else {
      assert (order + [last])[1..] == order[1..] + [last];
      SweepEndpointsSnoc(cfg, SweepEndpoint(cfg, t, order[0], started, now), order[1..], last, started, now);
    }
  }

  lemma SameContentsTransitive(t: Tables, u: Tables, v: Tables)
    requires SameContents(t, u) && SameContents(u, v)
    ensures SameContents(t, v)
  {
  }

  /** One more visit extends a sweep that has reached `order`. */
  lemma SweepEnrollmentsExtend(was: Tables, order: seq<Id>, id: Id, before: Tables, after: Tables,
                               nodes: Option<seq<Node>>, started: Time, now: Time)
    requires (forall k :: k in order ==> k in was.enrollments) && id in was.enrollments && id in before.enrollments
    requires SameContents(before, SweepEnrollments(was, order, nodes, started, now))
    requires SameContents(after, SweepEnrollment(before, id, nodes, started, now))
    ensures forall k :: k in order + [id] ==> k in was.enrollments
    ensures SameContents(after, SweepEnrollments(was, order + [id], nodes, started, now))
  {
    var reached := SweepEnrollments(was, order, nodes, started, now);
    SweepEnrollmentSame(before, reached, id, nodes, started, now);
    SweepEnrollmentsSnoc(was, order, id, nodes, started, now);
    SameContentsTransitive(after, SweepEnrollment(before, id, nodes, started, now),
                           SweepEnrollment(reached, id, nodes, started, now));
  }

  lemma SweepEndpointsExtend(cfg: Settings, was: Tables, order: seq<Id>, r: Id, before: Tables, after: Tables,
                             started: Time, now: Time)
    requires (forall k :: k in order ==> k in was.endpoints) && r in was.endpoints && r in before.endpoints
    requires SameContents(before, SweepEndpoints(cfg, was, order, started, now))
    requires SameContents(after, SweepEndpoint(cfg, before, r, started, now))
    ensures forall k :: k in order + [r] ==> k in was.endpoints
    ensures SameContents(after, SweepEndpoints(cfg, was, order + [r], started, now))
  {
    var reached := SweepEndpoints(cfg, was, order, started, now);
    SweepEndpointSame(cfg, before, reached, r, started, now);
    SweepEndpointsSnoc(cfg, was, order, r, started, now);
    SameContentsTransitive(after, SweepEndpoint(cfg, before, r, started, now),
                           SweepEndpoint(cfg, reached, r, started, now));
  }

  /** Dead enrollments stay dead and no enrollment disappears. */
  lemma VisitSettled(t: Tables, id: Id, nodes: Option<seq<Node>>, started: Time, now: Time, u: Tables)
    requires Invariant(t) && id in t.enrollments && SameMap(u.enrollments, SweepEnrollment(t, id, nodes, started, now).enrollments)
    ensures forall k :: k in t.enrollments ==> k in u.enrollments && (Dead(t.enrollments[k].state) ==> Dead(u.enrollments[k].state))
  {
    SweepEnrollmentKeeps(t, id, nodes, started, now);
  }

  /** A visit changes no other enrollment. */
  lemma OthersUntouched(t: Tables, id: Id, nodes: Option<seq<Node>>, started: Time, now: Time, u: Tables, k: Id)
    requires id in t.enrollments && k in t.enrollments && k != id
    requires SameMap(u.enrollments, SweepEnrollment(t, id, nodes, started, now).enrollments)
    ensures k in u.enrollments && u.enrollments[k] == t.enrollments[k]
  {
  }

  /** The rows from `i` on are still as they were. */
  ghost predicate Unvisited(rows: Enrollments, was: Enrollments, order: seq<Id>, i: nat)
    requires i <= |order|
  {
    forall j :: i <= j < |order| && order[j] in was ==> order[j] in rows && rows[order[j]] == was[order[j]]
  }

  lemma OneMoreVisited(was: Enrollments, order: seq<Id>, i: nat, t: Tables, nodes: Option<seq<Node>>, started: Time,
                       now: Time, u: Tables)
    requires i < |order| && NoRepeats(order) && order[i] in t.enrollments && Unvisited(t.enrollments, was, order, i)
    requires SameMap(u.enrollments, SweepEnrollment(t, order[i], nodes, started, now).enrollments)
    ensures Unvisited(u.enrollments, was, order, i + 1)
  {
    forall j | i < j < |order| && order[j] in was
      ensures order[j] in u.enrollments && u.enrollments[order[j]] == was[order[j]]
    {
      OthersUntouched(t, order[i], nodes, started, now, u, order[j]);
    }
  }

  /** What the cleanups collected from the first `i` rows are: each names a row that
      is dead now, and they are those of the rows before the sweep. */
  ghost predicate Collected(rows: Enrollments, was: Enrollments, order: seq<Id>, i: nat, nodes: Option<seq<Node>>,
                            started: Time, cleanup: seq<Cleanup>)
    requires i <= |order| && forall k :: k in order ==> k in was
  {
    && (forall c :: c in cleanup ==> c.enrollmentId in rows && Dead(rows[c.enrollmentId].state))
    && (NoRepeats(order) ==>
          && Unvisited(rows, was, order, i)
          && cleanup == CleanupList(was, order[..i], nodes, started))
  }

  lemma CollectMore(t: Tables, u: Tables, was: Enrollments, order: seq<Id>, i: nat, nodes: Option<seq<Node>>,
                    started: Time, now: Time, sofar: seq<Cleanup>, found: seq<Cleanup>)
    requires i < |order| && forall k :: k in order ==> k in was
    requires order[i] in t.enrollments && Collected(t.enrollments, was, order, i, nodes, started, sofar)
    requires SameMap(u.enrollments, SweepEnrollment(t, order[i], nodes, started, now).enrollments)
    requires forall k :: k in t.enrollments ==> k in u.enrollments && (Dead(t.enrollments[k].state) ==> Dead(u.enrollments[k].state))
    requires found == CleanupOf(order[i], t.enrollments[order[i]], nodes, started)
    requires found != [] ==> Dead(u.enrollments[order[i]].state)
    ensures Collected(u.enrollments, was, order, i + 1, nodes, started, sofar + found)
  {
    if NoRepeats(order) {
      OneMoreVisited(was, order, i, t, nodes, started, now, u);
      OneMoreCleanup(was, order, i, nodes, started);
    }
  }

  lemma OneMoreCleanup(rows: Enrollments, order: seq<Id>, i: nat, nodes: Option<seq<Node>>, started: Time)
    requires i < |order| && forall k :: k in order ==> k in rows
    ensures forall k :: k in order[..i + 1] ==> k in rows
    ensures CleanupList(rows, order[..i + 1], nodes, started)
            == CleanupList(rows, order[..i], nodes, started) + CleanupOf(order[i], rows[order[i]], nodes, started)
  {
    assert order[..i + 1][..i] == order[..i];
  }

  class Reconciler {
    const cfg: Settings
    const db: Database
    const service: EnrollmentService

    constructor (service: EnrollmentService)
      ensures this.service == service && this.db == service.db && this.cfg == service.cfg
    {
      this.service := service;
      this.db := service.db;
      this.cfg := service.cfg;
    }

    ghost predicate Valid()
      reads db
    {
      service.db == db && service.cfg == cfg && db.Valid()
    }

    /** An enrollment whose expiry was already applied: collect the cleanup of a
        dead one, observe one that has or had a key. */
    method VisitAged(id: Id, nodes: Option<seq<Node>>, started: Time, now: Time) returns (cleanup: seq<Cleanup>)
      requires service.db == db && id in db.enrollments
      requires AgedState(db.enrollments[id], started) == db.enrollments[id]
      modifies db
      ensures SameContents(db.View(), SweepAged(old(db.View()), id, nodes, now))
      ensures cleanup == CleanupOf(id, old(db.enrollments)[id], nodes, started)
      ensures cleanup != [] ==> id in db.enrollments && Dead(db.enrollments[id].state)
    {
      cleanup := [];
      var e := db.enrollments[id];
      if e.state == Revoking || e.state == Revoked || e.state == Expired {
        db.enrollments := db.enrollments[id := e.(ciphertext := None, online := false)];
        if nodes.Some? && e.retryAfter <= started {
          cleanup := [CleanupFor(id, e, nodes.value)];
        }
      } else if nodes.Some? && (e.state == KeyIssued || e.state == Confirmed) {
        var seen := service.ObserveRow(id, nodes.value, now);
        if seen.Raised? {
          db.enrollments := db.enrollments[id := e.(online := false)];
        }
      }
    }

    /** One enrollment: apply its expiry, then visit it. */
    method VisitEnrollment(id: Id, nodes: Option<seq<Node>>, started: Time, now: Time) returns (cleanup: seq<Cleanup>)
      requires Valid() && id in db.enrollments
      modifies db
      ensures Valid()
      ensures SameContents(db.View(), SweepEnrollment(old(db.View()), id, nodes, started, now))
      ensures cleanup == CleanupOf(id, old(db.enrollments)[id], nodes, started)
      ensures cleanup != [] ==> id in db.enrollments && Dead(db.enrollments[id].state)
    {
      ghost var was := db.View();
      SweepEnrollmentKeeps(was, id, nodes, started, now);
      var e := db.enrollments[id];
      if e.state == Pending && e.expires <= started {
        e := e.(state := UnknownResult);
      }
      if (e.state == KeyIssued || e.state == UnknownResult || e.state == Pending) && e.expires <= started {
        e := e.(state := Expired, ciphertext := None);
      }
      assert e == AgedState(was.enrollments[id], started);
      db.enrollments := db.enrollments[id := e];
      cleanup := VisitAged(id, nodes, started, now);
      SameContentsInvariant(db.View(), SweepEnrollment(was, id, nodes, started, now));
    }

    /** The next enrollment of a sweep that has reached `i`. */
    method VisitNextEnrollment(ghost was: Tables, order: seq<Id>, i: nat, nodes: Option<seq<Node>>, started: Time, now: Time,
                               sofar: seq<Cleanup>)
      returns (cleanup: seq<Cleanup>)
      requires Valid() && i < |order| && forall k :: k in order ==> k in was.enrollments
      requires SameContents(db.View(), SweepEnrollments(was, order[..i], nodes, started, now))
      requires Collected(db.enrollments, was.enrollments, order, i, nodes, started, sofar)
      modifies db
      ensures Valid() && SameContents(db.View(), SweepEnrollments(was, order[..i + 1], nodes, started, now))
      ensures Collected(db.enrollments, was.enrollments, order, i + 1, nodes, started, cleanup)
    {
      ghost var before := db.View();
      assert order[i] in order;
      assert order[..i + 1] == order[..i] + [order[i]];
      cleanup := VisitEnrollment(order[i], nodes, started, now);
      SweepEnrollmentsExtend(was, order[..i], order[i], before, db.View(), nodes, started, now);
      VisitSettled(before, order[i], nodes, started, now, db.View());
      CollectMore(before, db.View(), was.enrollments, order, i, nodes, started, now, sofar, cleanup);
      cleanup := sofar + cleanup;
    }

    /** Every enrollment in turn.  The cleanups are those of the rows as they were
        when the sweep began. */
    method VisitEnrollments(order: seq<Id>, nodes: Option<seq<Node>>, started: Time, now: Time)
      returns (cleanup: seq<Cleanup>)
      requires Valid() && forall k :: k in order ==> k in db.enrollments
      modifies db
      ensures Valid()
      ensures SameContents(db.View(), SweepEnrollments(old(db.View()), order, nodes, started, now))
      ensures Collected(db.enrollments, old(db.enrollments), order, |order|, nodes, started, cleanup)
    {
      ghost var was := db.View();
      cleanup := [];
      var i := 0;
      assert order[..0] == [];
      while i < |order|
        invariant 0 <= i <= |order| && Valid()
        invariant SameContents(db.View(), SweepEnrollments(was, order[..i], nodes, started, now))
        invariant Collected(db.enrollments, was.enrollments, order, i, nodes, started, cleanup)
      {
        cleanup := VisitNextEnrollment(was, order, i, nodes, started, now, cleanup);
        i := i + 1;
      }
      assert order[..i] == order;
    }

    /** One endpoint: withdraw it when its lease lapsed, else recompute its state. */
    method VisitEndpoint(r: Id, started: Time, now: Time)
      requires Valid() && r in db.endpoints
      modifies db
      ensures Valid()
      ensures SameContents(db.View(), SweepEndpoint(cfg, old(db.View()), r, started, now))
    {
      ghost var was := db.View();
      SweepEndpointKeeps(cfg, was, r, started, now);
      assert EndpointBound(db.enrollments, r, db.endpoints[r]);
      VisitBound(r, started, now);
      SameContentsInvariant(db.View(), SweepEndpoint(cfg, was, r, started, now));
    }

    method VisitBound(r: Id, started: Time, now: Time)
      requires service.db == db && r in db.endpoints && EndpointBound(db.enrollments, r, db.endpoints[r])
      modifies db
      ensures SameContents(db.View(), SweepEndpoint(cfg, old(db.View()), r, started, now))
    {
      var p := db.endpoints[r];
      if !Withdrawn(p.state) {
        if p.leaseExpires <= started {
          service.DenyRow(p.enrollmentId, now);
        } else if !Membership(cfg, db.enrollments[p.enrollmentId], now) || !Stamped(p.probed)
                  || p.probed.value + cfg.observationTtl <= started {
          db.endpoints := db.endpoints[r := p.(state := if Stamped(p.probed) then Offline else Registered)];
        }
      }
    }

    /** The next endpoint of a sweep that has reached `i`. */
    method VisitNextEndpoint(ghost was: Tables, order: seq<Id>, i: nat, started: Time, now: Time)
      requires Valid() && i < |order| && forall k :: k in order ==> k in was.endpoints
      requires SameContents(db.View(), SweepEndpoints(cfg, was, order[..i], started, now))
      modifies db
      ensures Valid() && SameContents(db.View(), SweepEndpoints(cfg, was, order[..i + 1], started, now))
    {
      ghost var before := db.View();
      assert order[i] in order;
      assert order[..i + 1] == order[..i] + [order[i]];
      VisitEndpoint(order[i], started, now);
      SweepEndpointsExtend(cfg, was, order[..i], order[i], before, db.View(), started, now);
    }

    method VisitEndpoints(order: seq<Id>, started: Time, now: Time)
      requires Valid() && forall k :: k in order ==> k in db.endpoints
      modifies db
      ensures Valid()
      ensures SameContents(db.View(), SweepEndpoints(cfg, old(db.View()), order, started, now))
    {
      ghost var was := db.View();
      var i := 0;
      assert order[..0] == [];
      while i < |order|
        invariant 0 <= i <= |order| && Valid()
        invariant SameContents(db.View(), SweepEndpoints(cfg, was, order[..i], started, now))
      {
        VisitNextEndpoint(was, order, i, started, now);
        i := i + 1;
      }
      assert order[..i] == order;
    }

    method VisitSessions(started: Time)
      modifies db`sessions
      ensures SameMap(db.sessions, SweepSessions(old(db.View()), started).sessions)
    {
      var todo := db.sessions.Keys;
      while todo != {}
        invariant forall s :: s in todo ==> s in old(db.sessions)
        invariant forall s :: s in db.sessions <==> s in old(db.sessions)
        invariant forall s :: s in db.sessions ==>
                    db.sessions[s] == if s !in todo && old(db.sessions)[s].state == Active && Lapsed(old(db.sessions)[s], started)
                                      then old(db.sessions)[s].(state := SessionRevoked) else old(db.sessions)[s]
        decreases |todo|
      {
        Inhabited(todo);
        var s :| s in todo;
        if db.sessions[s].state == Active && Lapsed(db.sessions[s], started) {
          db.sessions := db.sessions[s := db.sessions[s].(state := SessionRevoked)];
        }
        todo := todo - {s};
      }
    }

    /** The sweep after the enrollments: endpoints, then sessions. */
    method VisitRest(order: seq<Id>, started: Time, now: Time)
      requires Valid() && forall k :: k in order ==> k in db.endpoints
      modifies db
      ensures SameContents(db.View(), SweepSessions(SweepEndpoints(cfg, old(db.View()), order, started, now), started))
      ensures forall k :: k in old(db.enrollments) && Dead(old(db.enrollments)[k].state) ==>
                k in db.enrollments && Dead(db.enrollments[k].state)
    {
      ghost var aged := db.View();
      VisitEndpoints(order, started, now);
      ghost var swept := db.View();
      VisitSessions(started);
      StillDead(cfg, aged, order, started, now, swept);
      SweptSessionsSame(swept, SweepEndpoints(cfg, aged, order, started, now), started, db.View());
    }

    /** The sweep transaction of `once`. */
    method Once(enrollmentOrder: seq<Id>, endpointOrder: seq<Id>, nodes: Option<seq<Node>>, started: Time, now: Time)
      returns (cleanup: seq<Cleanup>)
      requires Valid()
      requires Lists(enrollmentOrder, db.enrollments.Keys) && Lists(endpointOrder, db.endpoints.Keys)
      modifies db
      ensures Valid()
      ensures SameContents(db.View(), Sweep(cfg, old(db.View()), enrollmentOrder, endpointOrder, nodes, started, now))
      ensures forall c :: c in cleanup ==> c.enrollmentId in db.enrollments && Dead(db.enrollments[c.enrollmentId].state)
      ensures NoRepeats(enrollmentOrder) ==> cleanup == CleanupList(old(db.enrollments), enrollmentOrder, nodes, started)
    {
      ghost var was := db.View();
      assert enrollmentOrder[..|enrollmentOrder|] == enrollmentOrder;
      cleanup := VisitEnrollments(enrollmentOrder, nodes, started, now);
      ghost var aged := db.View();
      VisitRest(endpointOrder, started, now);
      SweepStagesSame(cfg, was, enrollmentOrder, endpointOrder, nodes, started, now, aged, db.View());
      SweptSound(cfg, was, enrollmentOrder, endpointOrder, nodes, started, now, db.View());
    }

    method SettleEndpoints(id: Id)
      modifies db`endpoints
      ensures forall r :: r in db.endpoints <==> r in old(db.endpoints)
      ensures forall r :: r in db.endpoints ==>
                db.endpoints[r] == if old(db.endpoints)[r].enrollmentId == id && old(db.endpoints)[r].state == EndpointRevoking
                                   then old(db.endpoints)[r].(state := EndpointRevoked) else old(db.endpoints)[r]
    {
      var todo := db.endpoints.Keys;
      while todo != {}
        invariant forall r :: r in todo ==> r in old(db.endpoints)
        invariant forall r :: r in db.endpoints <==> r in old(db.endpoints)
        invariant forall r :: r in db.endpoints ==>
                    db.endpoints[r] == if r !in todo && old(db.endpoints)[r].enrollmentId == id
                                          && old(db.endpoints)[r].state == EndpointRevoking
                                       then old(db.endpoints)[r].(state := EndpointRevoked) else old(db.endpoints)[r]
        decreases |todo|
      {
        Inhabited(todo);
        var r :| r in todo;
        if db.endpoints[r].enrollmentId == id && db.endpoints[r].state == EndpointRevoking {
          db.endpoints := db.endpoints[r := db.endpoints[r].(state := EndpointRevoked)];
        }
        todo := todo - {r};
      }
    }

    /** The transaction after one remote cleanup. */
    method Finish(id: Id, success: bool, started: Time, jitter: Time)
      requires Valid() && id in db.enrollments
      modifies db
      ensures Valid()
      ensures SameContents(db.View(), FinishCleanup(cfg, old(db.View()), id, success, started, jitter))
    {
      ghost var was := db.View();
      FinishCleanupKeeps(cfg, was, id, success, started, jitter, 0.0);
      FinishOn(id, success, started, jitter);
      SameContentsInvariant(db.View(), FinishCleanup(cfg, was, id, success, started, jitter));
    }

    method FinishOn(id: Id, success: bool, started: Time, jitter: Time)
      requires id in db.enrollments
      modifies db
      ensures SameContents(db.View(), FinishCleanup(cfg, old(db.View()), id, success, started, jitter))
    {
      var e := db.enrollments[id];
      if success {
        db.enrollments := db.enrollments[id :=
          e.(state := if e.state == Revoking then Revoked else e.state, retryAfter := started + cfg.reconcileInterval)];
        SettleEndpoints(id);
      } else {
        db.enrollments := db.enrollments[id :=
          e.(retries := e.retries + 1, retryAfter := started + Backoff(e.retries + 1) + jitter)];
      }
    }
  }

  lemma {:induction false} SweepEndpointsSame(cfg: Settings, t: Tables, u: Tables, order: seq<Id>, started: Time, now: Time)
    requires SameContents(t, u) && forall k :: k in order ==> k in t.endpoints
    ensures forall k :: k in order ==> k in u.endpoints
    ensures SameContents(SweepEndpoints(cfg, t, order, started, now), SweepEndpoints(cfg, u, order, started, now))
    decreases |order|
  {
    if order != [] {
      SweepEndpointSame(cfg, t, u, order[0], started, now);
      SweepEndpointsSame(cfg, SweepEndpoint(cfg, t, order[0], started, now), SweepEndpoint(cfg, u, order[0], started, now),
                         order[1..], started, now);
    }
  }

  lemma SweptSessionsSame(t: Tables, u: Tables, started: Time, end: Tables)
    requires SameContents(t, u)
    requires end == t.(sessions := end.sessions) && SameMap(end.sessions, SweepSessions(t, started).sessions)
    ensures SameContents(end, SweepSessions(u, started))
  {
  }

  /** The stages of a sweep, each right up to contents, make the sweep. */
  lemma SweepStagesSame(cfg: Settings, was: Tables, enrollmentOrder: seq<Id>, endpointOrder: seq<Id>,
                        nodes: Option<seq<Node>>, started: Time, now: Time, aged: Tables, end: Tables)
    requires Lists(enrollmentOrder, was.enrollments.Keys) && Lists(endpointOrder, was.endpoints.Keys)
    requires SameContents(aged, SweepEnrollments(was, enrollmentOrder, nodes, started, now))
    requires forall k :: k in endpointOrder ==> k in aged.endpoints
    requires SameContents(end, SweepSessions(SweepEndpoints(cfg, aged, endpointOrder, started, now), started))
    ensures SameContents(end, Sweep(cfg, was, enrollmentOrder, endpointOrder, nodes, started, now))
  {
    var exact := SweepEnrollments(was, enrollmentOrder, nodes, started, now);
    var mine, spec := SweepEndpoints(cfg, aged, endpointOrder, started, now), SweepEndpoints(cfg, exact, endpointOrder, started, now);
    SweepEndpointsSame(cfg, aged, exact, endpointOrder, started, now);
    SweptSessionsSame(mine, spec, started, SweepSessions(mine, started));
    SameContentsTransitive(end, SweepSessions(mine, started), SweepSessions(spec, started));
  }

  lemma SweptSound(cfg: Settings, was: Tables, enrollmentOrder: seq<Id>, endpointOrder: seq<Id>,
                   nodes: Option<seq<Node>>, started: Time, now: Time, end: Tables)
    requires Invariant(was)
    requires Lists(enrollmentOrder, was.enrollments.Keys) && Lists(endpointOrder, was.endpoints.Keys)
    requires SameContents(end, Sweep(cfg, was, enrollmentOrder, endpointOrder, nodes, started, now))
    ensures Invariant(end)
  {
    SweepKeeps(cfg, was, enrollmentOrder, endpointOrder, nodes, started, now);
    SameContentsInvariant(end, Sweep(cfg, was, enrollmentOrder, endpointOrder, nodes, started, now));
  }

  lemma StillDead(cfg: Settings, aged: Tables, endpointOrder: seq<Id>, started: Time, now: Time, swept: Tables)
    requires Invariant(aged) && forall k :: k in endpointOrder ==> k in aged.endpoints
    requires SameMap(swept.enrollments, SweepEndpoints(cfg, aged, endpointOrder, started, now).enrollments)
    ensures forall k :: k in aged.enrollments && Dead(aged.enrollments[k].state) ==>
              k in swept.enrollments && Dead(swept.enrollments[k].state)
  {
    SweepEndpointsKeeps(cfg, aged, endpointOrder, started, now);
  }
}
