/**
 The services as the program has them: objects that update the rows of a shared
 database inside a transaction, row by row, and roll back on an exception.
 Every method is proved to take the step its transaction specifies, and to keep
 the invariant.
 */
module ManagementService {
  import opened Common
  import opened ManagementTables
  import opened ManagementTransactions
  import opened ManagementInvariants

  class Database {
    var enrollments: Enrollments
    var endpoints: Endpoints
    var grants: Grants
    var sessions: Sessions

    constructor ()
      ensures View() == EMPTY && Valid()
    {
      enrollments, endpoints, grants, sessions := map[], map[], map[], map[];
    }

    function View(): (t: Tables)
      reads this
    {
      Tables(enrollments, endpoints, grants, sessions)
    }

    ghost predicate Valid()
      reads this
    {
      Invariant(View())
    }

    method Rollback(saved: Tables)
      modifies this
      ensures View() == saved
    {
      enrollments, endpoints, grants, sessions := saved.enrollments, saved.endpoints, saved.grants, saved.sessions;
    }
  }

  // ----------------------------------------------------------- algebra of denial

  function WithRow(t: Tables, id: Id, row: Enrollment): (r: Tables)
  {
    t.(enrollments := t.enrollments[id := row])
  }

  /** Denial depends on the contents only. */
  lemma DenySame(t: Tables, u: Tables, ids: set<Id>, now: Time)
    requires SameContents(t, u)
    ensures SameContents(Deny(t, ids, now), Deny(u, ids, now))
  {
    forall r ensures r in BoundTo(t, ids) <==> r in BoundTo(u, ids) {
    }
  }

  /** Invalidating one more resource after a set is invalidating the larger set. */
  lemma InvalidateOneMore(t: Tables, u: Tables, done: set<Id>, more: set<Id>, all: set<Id>)
    requires forall r :: r in all <==> r in done || r in more
    requires SameMap(u.grants, RevokeGrants(t.grants, done))
    requires SameMap(u.sessions, RevokeSessions(t.sessions, t.grants, done))
    ensures SameMap(Invalidate(u, more).grants, RevokeGrants(t.grants, all))
    ensures SameMap(Invalidate(u, more).sessions, RevokeSessions(t.sessions, t.grants, all))
  {
  }

  /** Denying one more enrollment after a set, beside a fresh reservation, is
      denying the larger set. */
  lemma DenyOneMore(t: Tables, done: set<Id>, k: Id, now: Time, id: Id, row: Enrollment)
    requires id != k && id !in done
    ensures SameContents(Deny(WithRow(Deny(t, done, now), id, row), {k}, now),
                         WithRow(Deny(t, done + {k}, now), id, row))
  {
    var mid := WithRow(Deny(t, done, now), id, row);
    assert SameMap(Deny(mid, {k}, now).enrollments, WithRow(Deny(t, done + {k}, now), id, row).enrollments);
    assert SameMap(Deny(mid, {k}, now).endpoints, Deny(t, done + {k}, now).endpoints);
    forall r ensures r in BoundTo(mid, {k}) <==> r in BoundTo(t, {k}) {
    }
    InvalidateOneMore(t, mid, BoundTo(t, done), BoundTo(mid, {k}), BoundTo(t, done + {k}));
  }

  lemma DenyNone(t: Tables, now: Time, id: Id, row: Enrollment)
    ensures SameContents(WithRow(t, id, row), WithRow(Deny(t, {}, now), id, row))
  {
    forall r ensures r !in BoundTo(t, {}) {
    }
  }

  lemma DenySameSet(t: Tables, a: set<Id>, b: set<Id>, now: Time)
    requires forall k :: k in a <==> k in b
    ensures SameContents(Deny(t, a, now), Deny(t, b, now))
  {
    forall r ensures r in BoundTo(t, a) <==> r in BoundTo(t, b) {
    }
  }

  /** `created` stamps are distinct within a slot, so its newest row is unique. */
  lemma LatestUnique(rows: Enrollments, role: Role, identity: Id, newest: Option<Id>)
    requires UniqueGenerations(rows)
    requires newest.None? ==> forall k :: k !in Slot(rows, role, identity)
    requires newest.Some? ==> newest.value in Slot(rows, role, identity)
                              && forall k :: k in Slot(rows, role, identity) ==> rows[k].created <= rows[newest.value].created
    ensures newest == Latest(rows, role, identity)
  {
    var found := Latest(rows, role, identity);
    if newest.Some? && found.Some? {
      var i, j := newest.value, found.value;
      assert i in rows && j in rows && SameSlot(rows[i], rows[j]);
      assert rows[i].created == rows[j].created;
    }
  }

  /** `u` is `was` with the endpoints `done` withdrawn and everything granted on
      them revoked. */
  ghost predicate WithdrawnSoFar(was: Tables, u: Tables, done: set<Id>)
  {
    && (forall r :: r in u.endpoints <==> r in was.endpoints)
    && (forall r :: r in u.endpoints ==>
          u.endpoints[r] == if r in done then was.endpoints[r].(state := EndpointRevoking) else was.endpoints[r])
    && SameMap(u.grants, RevokeGrants(was.grants, done))
    && SameMap(u.sessions, RevokeSessions(was.sessions, was.grants, done))
  }

  lemma WithdrawNone(was: Tables)
    ensures WithdrawnSoFar(was, was, {})
  {
  }

  lemma WithdrawOneMore(was: Tables, u: Tables, v: Tables, done: set<Id>, r: Id)
    requires WithdrawnSoFar(was, u, done) && r in u.endpoints
    requires v.endpoints == u.endpoints[r := u.endpoints[r].(state := EndpointRevoking)]
    requires SameMap(v.grants, RevokeGrants(u.grants, {r}))
    requires SameMap(v.sessions, RevokeSessions(u.sessions, u.grants, {r}))
    ensures WithdrawnSoFar(was, v, done + {r})
  {
    InvalidateOneMore(was, u, done, {r}, done + {r});
  }

  lemma WithdrawSameSet(was: Tables, u: Tables, a: set<Id>, b: set<Id>)
    requires WithdrawnSoFar(was, u, a) && forall r :: r in a <==> r in b
    ensures WithdrawnSoFar(was, u, b)
  {
  }

  class EnrollmentService {
    const cfg: Settings
    const db: Database

    constructor (cfg: Settings, db: Database)
      ensures this.cfg == cfg && this.db == db
    {
      this.cfg := cfg;
      this.db := db;
    }

    /** Revoke the sessions of one grant. */
    method RevokeSessionsOf(grantId: Id)
      modifies db`sessions
      ensures forall s :: s in db.sessions <==> s in old(db.sessions)
      ensures forall s :: s in db.sessions ==>
                db.sessions[s] == if old(db.sessions)[s].grantId == grantId
                                  then old(db.sessions)[s].(state := SessionRevoked) else old(db.sessions)[s]
    {
      var todo := db.sessions.Keys;
      while todo != {}
        invariant forall s :: s in todo ==> s in db.sessions
        invariant forall s :: s in db.sessions <==> s in old(db.sessions)
        invariant forall s :: s in db.sessions ==>
                    db.sessions[s] == if s !in todo && old(db.sessions)[s].grantId == grantId
                                      then old(db.sessions)[s].(state := SessionRevoked) else old(db.sessions)[s]
        decreases |todo|
      {
        Inhabited(todo);
        var s :| s in todo;
        if db.sessions[s].grantId == grantId {
          db.sessions := db.sessions[s := db.sessions[s].(state := SessionRevoked)];
        }
        todo := todo - {s};
      }
    }

    /** Revoke one grant with its sessions. */
    method RevokeGrantRow(g: Id)
      requires g in db.grants
      modifies db`grants, db`sessions
      ensures db.grants == old(db.grants)[g := old(db.grants)[g].(state := GrantRevoked)]
      ensures forall s :: s in db.sessions <==> s in old(db.sessions)
      ensures forall s :: s in db.sessions ==>
                db.sessions[s] == if old(db.sessions)[s].grantId == g
                                  then old(db.sessions)[s].(state := SessionRevoked) else old(db.sessions)[s]
    {
      db.grants := db.grants[g := db.grants[g].(state := GrantRevoked)];
      RevokeSessionsOf(g);
    }

    method InvalidateRows(resource: Id)
      modifies db`grants, db`sessions
      ensures SameMap(db.grants, RevokeGrants(old(db.grants), {resource}))
      ensures SameMap(db.sessions, RevokeSessions(old(db.sessions), old(db.grants), {resource}))
    {
      var todo := db.grants.Keys;
      while todo != {}
        invariant forall g :: g in todo ==> g in db.grants
        invariant forall g :: g in db.grants <==> g in old(db.grants)
        invariant forall s :: s in db.sessions <==> s in old(db.sessions)
        invariant forall g :: g in db.grants ==>
                    db.grants[g] == if g !in todo && old(db.grants)[g].resourceId == resource
                                    then old(db.grants)[g].(state := GrantRevoked) else old(db.grants)[g]
        invariant forall s :: s in db.sessions ==>
                    db.sessions[s] == if old(db.sessions)[s].grantId !in todo
                                         && OnResources(old(db.grants), old(db.sessions)[s], {resource})
                                      then old(db.sessions)[s].(state := SessionRevoked) else old(db.sessions)[s]
        decreases |todo|
      {
        Inhabited(todo);
        var g :| g in todo;
        if db.grants[g].resourceId == resource {
          RevokeGrantRow(g);
        }
        todo := todo - {g};
      }
    }

    method WithdrawEndpoint(r: Id)
      requires r in db.endpoints
      modifies db`endpoints, db`grants, db`sessions
      ensures db.endpoints == old(db.endpoints)[r := old(db.endpoints)[r].(state := EndpointRevoking)]
      ensures SameMap(db.grants, RevokeGrants(old(db.grants), {r}))
      ensures SameMap(db.sessions, RevokeSessions(old(db.sessions), old(db.grants), {r}))
    {
      db.endpoints := db.endpoints[r := db.endpoints[r].(state := EndpointRevoking)];
      InvalidateRows(r);
    }

    method WithdrawBound(id: Id)
      modifies db`endpoints, db`grants, db`sessions
      ensures WithdrawnSoFar(old(db.View()), db.View(), BoundTo(old(db.View()), {id}))
    {
      ghost var was := db.View();
      var todo := db.endpoints.Keys;
      ghost var done: set<Id> := {};
      WithdrawNone(was);
      while todo != {}
        invariant forall r :: r in todo ==> r in was.endpoints
        invariant forall r :: r in done <==> r in BoundTo(was, {id}) && r !in todo
        invariant WithdrawnSoFar(was, db.View(), done)
        decreases |todo|
      {
        Inhabited(todo);
        var r :| r in todo;
        if db.endpoints[r].enrollmentId == id {
          ghost var before := db.View();
          WithdrawEndpoint(r);
          WithdrawOneMore(was, before, db.View(), done, r);
          done := done + {r};
        }
        todo := todo - {r};
      }
      WithdrawSameSet(was, db.View(), done, BoundTo(was, {id}));
    }

    method DenyRow(id: Id, now: Time)
      requires id in db.enrollments
      modifies db
      ensures SameContents(db.View(), Deny(old(db.View()), {id}, now))
    {
      db.enrollments := db.enrollments[id := DeniedRow(db.enrollments[id], now)];
      WithdrawBound(id);
    }

    /** The enrollment an idempotency key of the actor names, if any. */
    method FindByIdempotency(actor: Actor, key: string) returns (found: Option<Id>)
      requires db.Valid()
      ensures found == ByIdempotency(db.enrollments, actor, key)
    {
      found := None;
      var todo := db.enrollments.Keys;
      while todo != {}
        invariant forall k :: k in todo ==> k in db.enrollments
        invariant found.None? ==>
                    forall k :: k in db.enrollments && db.enrollments[k].actor == actor && k !in todo ==>
                                  db.enrollments[k].idempotency != key
        invariant found.Some? ==> found == ByIdempotency(db.enrollments, actor, key)
        decreases |todo|
      {
        Inhabited(todo);
        var k :| k in todo;
        if db.enrollments[k].actor == actor && db.enrollments[k].idempotency == key {
          found := Some(k);
        }
        todo := todo - {k};
      }
    }

    /** The newest enrollment of a slot, and whether a generation is taken in it. */
    method ScanSlot(role: Role, identity: Id, generation: Id) returns (newest: Option<Id>, taken: bool)
      requires EnrollmentsSound(db.enrollments)
      ensures newest == Latest(db.enrollments, role, identity)
      ensures taken <==> exists k :: k in Slot(db.enrollments, role, identity) && db.enrollments[k].generation == generation
    {
      newest, taken := None, false;
      var todo := db.enrollments.Keys;
      while todo != {}
        invariant forall k :: k in todo ==> k in db.enrollments
        invariant taken <==> exists k :: k in Slot(db.enrollments, role, identity) && k !in todo
                                         && db.enrollments[k].generation == generation
        invariant newest.None? ==> forall k :: k in Slot(db.enrollments, role, identity) ==> k in todo
        invariant newest.Some? ==>
                    && newest.value in Slot(db.enrollments, role, identity) && newest.value !in todo
                    && forall k :: k in Slot(db.enrollments, role, identity) && k !in todo ==>
                                     db.enrollments[k].created <= db.enrollments[newest.value].created
        decreases |todo|
      {
        Inhabited(todo);
        var k :| k in todo;
        var e := db.enrollments[k];
        if e.role == role && e.identity == identity {
          assert k in Slot(db.enrollments, role, identity);
          taken := taken || e.generation == generation;
          if newest.None? || db.enrollments[newest.value].created < e.created {
            newest := Some(k);
          }
        }
        todo := todo - {k};
      }
      LatestUnique(db.enrollments, role, identity, newest);
    }

    /** Deny every displaced row of a slot, beside the new reservation `id`. */
    method DenyDisplaced(ids: set<Id>, id: Id, now: Time, ghost was: Tables)
      requires id in db.enrollments && id !in ids && forall k :: k in ids ==> k in db.enrollments
      requires SameContents(db.View(), WithRow(was, id, db.enrollments[id]))
      modifies db
      ensures SameContents(db.View(), WithRow(Deny(was, ids, now), id, old(db.enrollments)[id]))
    {
      ghost var row := db.enrollments[id];
      ghost var done: set<Id> := {};
      var todo := ids;
      DenyNone(was, now, id, row);
      while todo != {}
        invariant forall k :: k in todo ==> k in ids && k in db.enrollments
        invariant id !in done && forall k :: k in done <==> k in ids && k !in todo
        invariant SameContents(db.View(), WithRow(Deny(was, done, now), id, row))
        decreases |todo|
      {
        Inhabited(todo);
        var k :| k in todo;
        ghost var before := db.View();
        DenyRow(k, now);
        DenySame(before, WithRow(Deny(was, done, now), id, row), {k}, now);
        DenyOneMore(was, done, k, now, id, row);
        done := done + {k};
        todo := todo - {k};
      }
      DenySameSet(was, done, ids, now);
    }

    /** First transaction of `enroll`. */
    method EnrollReserve(request: EnrollRequest, digest: Id, actor: Actor, idempotency: Option<string>, id: Id,
                         requested: Time, now: Time) returns (out: Outcome<EnrollReply>)
      requires db.Valid()
      modifies db
      ensures db.Valid()
      ensures out == Reserve(cfg, old(db.View()), request, digest, actor, idempotency, id, requested, now).outcome
      ensures SameContents(db.View(),
                Reserve(cfg, old(db.View()), request, digest, actor, idempotency, id, requested, now).tables)
    {
      var refused := EnrollRefused(cfg, request, actor, idempotency);
      if refused.Some? {
        return Raised(refused.value);
      }
      var previous := FindByIdempotency(actor, idempotency.value);
      if previous.Some? {
        if db.enrollments[previous.value].requestHash != digest {
          return Raised(409);
        }
        return Replay(previous.value, db.enrollments[previous.value], now);
      }
      var latest, taken := ScanSlot(request.role, request.identity, request.generation);
      if taken {
        return Raised(409);
      }
      if id in db.enrollments {
        return Raised(500);
      }
      var created := if latest.None? then requested else Most(requested, db.enrollments[latest.value].created + 0.000001);
      assert created == NextCreated(db.enrollments, request.role, request.identity, requested);
      var row := PendingRow(cfg, request, digest, actor, idempotency.value, created, requested);
      ghost var was := db.View();
      ReserveKeeps(cfg, was, request, digest, actor, idempotency, id, requested, now);
      ghost var target := Reserve(cfg, was, request, digest, actor, idempotency, id, requested, now);
      var ids := Displaced(db.View(), request.role, request.identity);
      assert target == Commit(WithRow(Deny(was, ids, now), id, row), Reserved(id));
      AddRow(id, row, ids, now);
      SameContentsInvariant(db.View(), target.tables);
      return Ok(Reserved(id));
    }

    /** Add a reservation and deny the rows it displaces. */
    method AddRow(id: Id, row: Enrollment, ids: set<Id>, now: Time)
      requires id !in db.enrollments && forall k :: k in ids ==> k in db.enrollments
      modifies db
      ensures SameContents(db.View(), WithRow(Deny(old(db.View()), ids, now), id, row))
    {
      ghost var was := db.View();
      db.enrollments := db.enrollments[id := row];
      DenyDisplaced(ids, id, now, was);
    }

    /** Last transaction of `enroll` when the remote key exists. */
    method EnrollComplete(id: Id, keyId: Id, key: Id, now: Time) returns (out: Outcome<EnrollReply>)
      requires db.Valid()
      modifies db
      ensures db.Valid()
      ensures out == CompleteKey(old(db.View()), id, keyId, key, now).outcome
      ensures SameContents(db.View(), CompleteKey(old(db.View()), id, keyId, key, now).tables)
    {
      ghost var was := db.View();
      CompleteKeyKeeps(was, id, keyId, key, now);
      if id !in db.enrollments {
        return Raised(404);
      }
      db.enrollments := db.enrollments[id := db.enrollments[id].(keyId := Some(keyId), updated := now)];
      if db.enrollments[id].state != Pending || db.enrollments[id].expires <= now {
        DenyRow(id, now);
        out := Raised(410);
      } else {
        db.enrollments := db.enrollments[id := db.enrollments[id].(ciphertext := Some(key), state := KeyIssued)];
        out := Replay(id, db.enrollments[id], now);
      }
      SameContentsInvariant(db.View(), CompleteKey(was, id, keyId, key, now).tables);
    }

    /** Last transaction of `enroll` when the control plane failed. */
    method EnrollFail(id: Id, unknown: bool) returns (out: Outcome<EnrollReply>)
      requires db.Valid()
      modifies db
      ensures db.Valid()
      ensures Tx(db.View(), out) == FailKey(old(db.View()), id, unknown)
    {
      FailKeyKeeps(db.View(), id, unknown, 0.0);
      if id !in db.enrollments {
        return Raised(404);
      }
      if db.enrollments[id].state == Pending {
        db.enrollments := db.enrollments[id := db.enrollments[id].(state := if unknown then UnknownResult else Failed)];
      }
      out := Raised(503);
    }

    /** `observe` with its writes; the caller decides whether they stay. */
    method ObserveRow(id: Id, nodes: seq<Node>, now: Time) returns (out: Outcome<bool>)
      requires id in db.enrollments
      modifies db
      ensures out == Observe(old(db.View()), id, nodes, now).outcome
      ensures SameContents(db.View(), Observe(old(db.View()), id, nodes, now).tables)
    {
      var e := db.enrollments[id];
      match Look(e, GatewayTexts(db.View()), nodes, now) {
        case Unverified =>
          db.enrollments := db.enrollments[id := e.(online := false)];
          out := Ok(false);
        case Unroutable =>
          out := Raised(422);
        case Moved =>
          DenyRow(id, now);
          out := Ok(false);
        case Verified(node) =>
          db.enrollments := db.enrollments[id := ConfirmedRow(e, node, now)];
          out := Ok(true);
      }
    }

    /** `current`: the newest of the slot must be this one, and it must live. */
    method CheckCurrent(id: Id) returns (out: Outcome<()>)
      requires db.Valid() && id in db.enrollments
      ensures out == Current(db.View(), id)
    {
      var e := db.enrollments[id];
      var newest, taken := ScanSlot(e.role, e.identity, e.generation);
      assert id in Slot(db.enrollments, e.role, e.identity);
      if newest.Some? && newest.value != id {
        assert SameSlot(db.enrollments[newest.value], e);
        out := Raised(409);
      } else if Dead(e.state) {
        out := Raised(410);
      } else {
        out := Ok(());
      }
    }

    /** Second transaction of `confirm`. */
    method ConfirmNode(id: Id, nodes: seq<Node>, now: Time) returns (out: Outcome<()>)
      requires db.Valid()
      modifies db
      ensures db.Valid()
      ensures out == Confirm(old(db.View()), id, nodes, now).outcome
      ensures SameContents(db.View(), Confirm(old(db.View()), id, nodes, now).tables)
    {
      var saved := db.View();
      ConfirmKeeps(saved, id, nodes, now);
      if id !in db.enrollments {
        return Raised(404);
      }
      var standing := CheckCurrent(id);
      if standing.Raised? {
        return Raised(standing.status);
      }
      if db.enrollments[id].state != Confirmed && db.enrollments[id].expires <= now {
        return Raised(410);
      }
      var seen := ObserveRow(id, nodes, now);
      if seen == Ok(true) {
        SameContentsInvariant(db.View(), Confirm(saved, id, nodes, now).tables);
        return Ok(());
      }
      db.Rollback(saved);
      return Raised(if seen.Raised? then seen.status else 409);
    }

    method RevokeById(id: Id, actor: Actor, now: Time) returns (out: Outcome<()>)
      requires db.Valid()
      modifies db
      ensures db.Valid()
      ensures out == RevokeEnrollment(old(db.View()), id, actor, now).outcome
      ensures SameContents(db.View(), RevokeEnrollment(old(db.View()), id, actor, now).tables)
    {
      if actor != Controller {
        return Raised(403);
      }
      if id !in db.enrollments {
        return Raised(404);
      }
      ghost var was := db.View();
      DenyKeeps(was, {id}, now);
      DenyRow(id, now);
      SameContentsInvariant(db.View(), Deny(was, {id}, now));
      out := Ok(());
    }
  }
}
