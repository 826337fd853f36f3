/** What holds of the revision machine over every run. */
module RevisionTheorems {
  import opened Common
  import opened Revisions
  import opened RevisionInvariants

  lemma {:induction false} RunKeeps(names: Names, t: Tables, run: seq<Event>)
    requires Invariant(names, t)
    ensures Invariant(names, Exec(names, t, run))
    decreases |run|
  {
    if run != [] {
      DoKeeps(names, t, run[0].op, run[0].at);
      RunKeeps(names, Do(names, t, run[0].op, run[0].at), run[1..]);
    }
  }

  /** In every reachable state: a save operation has succeeded exactly when its
      revision is published and failed exactly when it failed or was cancelled; a
      workspace's saved head is a published revision of its own; a submission has at
      most one job, made from the revision's published digest. */
  lemma Consistent(names: Names, run: seq<Event>)
    ensures var t := Exec(names, EMPTY, run);
            && (forall k :: k in t.revisions && t.revisions[k].origin == Snapshot ==>
                  && t.revisions[k].save.Some? && t.revisions[k].save.value in t.saves
                  && var save := t.saves[t.revisions[k].save.value];
                  && save.target == Some(k)
                  && (save.state == Succeeded <==> t.revisions[k].state == ImageReady)
                  && (save.state == SaveFailed <==> t.revisions[k].state == Failed || t.revisions[k].state == Cancelled))
            && (forall w :: w in t.workspaces && t.workspaces[w].saved.Some? ==> ReadyOf(t.revisions, t.workspaces[w].saved.value, w))
            && (forall i, j :: i in t.jobs && j in t.jobs && t.jobs[i].save == t.jobs[j].save ==> i == j)
            && (forall j :: j in t.jobs ==>
                  && t.jobs[j].revision in t.revisions && t.revisions[t.jobs[j].revision].image.Some?
                  && t.revisions[t.jobs[j].revision].image.value.digestRef == t.jobs[j].image)
  {
    RunKeeps(names, EMPTY, run);
    var t := Exec(names, EMPTY, run);
    forall k | k in t.revisions && t.revisions[k].origin == Snapshot
      ensures && t.revisions[k].save.Some? && t.revisions[k].save.value in t.saves
              && var save := t.saves[t.revisions[k].save.value];
              && save.target == Some(k)
              && (save.state == Succeeded <==> t.revisions[k].state == ImageReady)
              && (save.state == SaveFailed <==> t.revisions[k].state == Failed || t.revisions[k].state == Cancelled)
    {
      assert SnapshotLinked(t.revisions[k], k, t.saves);
    }
    forall i, j | i in t.jobs && j in t.jobs && t.jobs[i].save == t.jobs[j].save ensures i == j {
      assert JobBound(t.jobs[i], i, t.revisions, t.submissions) && JobBound(t.jobs[j], j, t.revisions, t.submissions);
    }
    forall j | j in t.jobs
      ensures && t.jobs[j].revision in t.revisions && t.revisions[t.jobs[j].revision].image.Some?
              && t.revisions[t.jobs[j].revision].image.value.digestRef == t.jobs[j].image
    {
      assert JobBound(t.jobs[j], j, t.revisions, t.submissions);
    }
  }

  // ------------------------------------------------------------------- termination

  /** Attempts left, then the state: what every change of state uses up. */
  function Rank(row: Revision): (r: int)
  {
    match row.state
    case Queued => 2 * (MAX_ATTEMPTS - row.attempts) + 1
    case Building => 2 * (MAX_ATTEMPTS - row.attempts) + 2
    case _ => 0
  }

  /** A row stays put or climbs down; only a claim takes up an attempt, and it takes
      up one never issued before; a lapsed lease is never revived. */
  predicate Moves(was: Revision, row: Revision, issued: set<Id>, now: Time)
  {
    && Replaces(was, row)
    && (row.state == was.state || Rank(row) < Rank(was))
    && (row.state == was.state ==> row.attempts == was.attempts && row.builder == was.builder && row.attempt == was.attempt)
    && (row.attempts == was.attempts || (was.state == Queued && row.state == Building && row.attempts == was.attempts + 1))
    && (was.state == Queued && row.state == Building ==> row.attempts == was.attempts + 1)
    && (row.attempt.Some? && row.attempt.value in issued ==> row.attempt == was.attempt)
    && (row.state == Building && was.state == Building && Lapsed(was, now) ==> Lapsed(row, now))
    && (row.state == Building && row.attempt == was.attempt ==> was.state == Building)
    && (row.state == Building ==> row.lease == Some(now + LEASE) || (was.state == Building && row.lease == was.lease))
    && (row.state == was.state ==> row.excluded == was.excluded && row.excludedUntil == was.excludedUntil)
    && (row.state == Queued && was.state == Building ==>
          row.excluded == was.builder && row.excludedUntil == Some(now + LEASE))
  }

  /** No row is dropped, and a new one has no attempt made. */
  ghost predicate AllMove(rows: Rows, next: Rows, issued: set<Id>, now: Time)
  {
    && (forall k :: k in rows ==> k in next)
    && (forall k :: k in next ==>
          if k in rows then Moves(rows[k], next[k], issued, now)
          else next[k].state == Queued && next[k].attempts == 0 && next[k].attempt.None?)
  }

  lemma StaysPut(rows: Rows, issued: set<Id>, now: Time)
    requires RowsSound(rows)
    ensures AllMove(rows, rows, issued, now)
  {
  }

  lemma PublishMoves(t: Tables, id: Id, image: Image, developer: bool, ssh: bool, job: Id, now: Time)
    requires RowsSound(t.revisions) && id in t.revisions && t.revisions[id].workspace in t.workspaces
    requires t.revisions[id].state == Building
    ensures AllMove(t.revisions, Publish(t, id, image, developer, ssh, job).tables.revisions, t.issued, now)
  {
    assert RowSound(t.revisions[id]);
    OneMoves(t.revisions, id, Published(t.revisions[id], image, developer, ssh), t.issued, now);
    StaysPut(t.revisions, t.issued, now);
  }

  lemma OneMoves(rows: Rows, id: Id, row: Revision, issued: set<Id>, now: Time)
    requires RowsSound(rows) && id in rows && Moves(rows[id], row, issued, now)
    ensures AllMove(rows, rows[id := row], issued, now)
  {
    StaysPut(rows, issued, now);
  }

  lemma ReturnMoves(row: Revision, kind: FailureKind, issued: set<Id>, now: Time)
    requires RowSound(row) && row.state == Building
    ensures Moves(row, Returned(row, kind, true, now), issued, now)
    ensures row.attempts < MAX_ATTEMPTS ==> Moves(row, Returned(row, kind, false, now), issued, now)
  {
  }

  lemma ExpireMoves(t: Tables, id: Id, now: Time)
    requires RowsSound(t.revisions)
    ensures AllMove(t.revisions, Expire(t, id, now).revisions, t.issued, now)
  {
    if id in t.revisions && Lapsed(t.revisions[id], now) {
      var row := t.revisions[id];
      ReturnMoves(row, SystemFailure, t.issued, now);
      OneMoves(t.revisions, id, Returned(row, SystemFailure, row.attempts >= MAX_ATTEMPTS, now), t.issued, now);
    }
  }

  lemma CancelMoves(t: Tables, workspace: Id, id: Id, now: Time)
    requires RowsSound(t.revisions)
    ensures AllMove(t.revisions, Cancel(t, workspace, id).tables.revisions, t.issued, now)
  {
    if id in t.revisions && (t.revisions[id].state == Queued || t.revisions[id].state == Building) {
      assert RowSound(t.revisions[id]);
      OneMoves(t.revisions, id, t.revisions[id].(state := Cancelled, lease := None), t.issued, now);
    }
  }

  lemma FailureMoves(t: Tables, c: Callback, kind: FailureKind, now: Time)
    requires RowsSound(t.revisions)
    ensures AllMove(t.revisions, Failure(t, c, kind, now).tables.revisions, t.issued, now)
  {
    if Fenced(t.revisions, c, false, now) {
      var row := t.revisions[c.revision];
      ReturnMoves(row, kind, t.issued, now);
      OneMoves(t.revisions, c.revision, Returned(row, kind, kind == UserFailure || row.attempts >= MAX_ATTEMPTS, now), t.issued, now);
    }
  }

  lemma ReadyMoves(names: Names, t: Tables, c: Callback, image: Image, developer: bool, ssh: bool, job: Id, now: Time)
    requires RowsSound(t.revisions)
    ensures AllMove(t.revisions, MarkReady(names, t, c, image, developer, ssh, job, now).tables.revisions, t.issued, now)
  {
    StaysPut(t.revisions, t.issued, now);
    if Fenced(t.revisions, c, true, now) {
      var row := t.revisions[c.revision];
      if ImageMatches(names, row.workspace, c.revision, c.attempt, image) {
        if row.state == ImageReady {
          OneMoves(t.revisions, c.revision, row.(developer := row.developer || developer, ssh := row.ssh || ssh), t.issued, now);
        } else if row.workspace in t.workspaces {
          PublishMoves(t, c.revision, image, developer, ssh, job, now);
        }
      }
    }
  }

  lemma ClaimMoves(t: Tables, id: Id, builder: Id, attempt: Id, locked: set<Id>, now: Time)
    requires RowsSound(t.revisions)
    ensures AllMove(t.revisions, Claim(t, id, builder, attempt, locked, now).revisions, t.issued, now)
  {
    StaysPut(t.revisions, t.issued, now);
    if attempt !in t.issued && IsNext(t.revisions, locked, id, builder, now) {
      assert RowSound(t.revisions[id]);
      OneMoves(t.revisions, id, Claimed(t.revisions[id], builder, attempt, now), t.issued, now);
    }
  }

  lemma BeatMoves(t: Tables, c: Callback, now: Time)
    requires RowsSound(t.revisions)
    ensures AllMove(t.revisions, Beat(t, c, now).revisions, t.issued, now)
  {
    StaysPut(t.revisions, t.issued, now);
    if Fenced(t.revisions, c, false, now) {
      OneMoves(t.revisions, c.revision, t.revisions[c.revision].(lease := Some(now + LEASE)), t.issued, now);
    }
  }

  lemma AddMoves(rows: Rows, id: Id, row: Revision, issued: set<Id>, now: Time)
    requires RowsSound(rows) && id !in rows && row.state == Queued && row.attempts == 0 && row.attempt.None?
    ensures AllMove(rows, rows[id := row], issued, now)
  {
    StaysPut(rows, issued, now);
  }

  lemma EnvironmentMoves(names: Names, t: Tables, op: Op, now: Time)
    requires RowsSound(t.revisions)
    requires op.DoCreate? || op.DoRequestSave? || op.DoMoveSave? || op.DoQueueSnapshot?
    ensures AllMove(t.revisions, Do(names, t, op, now).revisions, t.issued, now)
  {
    StaysPut(t.revisions, t.issued, now);
    if op.DoCreate? && op.id !in t.revisions {
      AddMoves(t.revisions, op.id, NewRow(op.workspace, 1, op.origin, None, op.created), t.issued, now);
    } else if op.DoQueueSnapshot? && op.s in t.saves && op.id !in t.revisions {
      AddMoves(t.revisions, op.id, NewRow(t.saves[op.s].workspace, op.number, Snapshot, Some(op.s), op.created), t.issued, now);
    }
  }

  /** Whatever happens, every revision stays, keeps its identity and climbs down. */
  lemma DoMoves(names: Names, t: Tables, op: Op, now: Time)
    requires RowsSound(t.revisions)
    ensures AllMove(t.revisions, Do(names, t, op, now).revisions, t.issued, now)
  {
    match op
    case DoCancel(workspace, k) => CancelMoves(t, workspace, k, now);
    case DoExpire(k) => ExpireMoves(t, k, now);
    case DoClaim(k, builder, attempt, locked) => ClaimMoves(t, k, builder, attempt, locked, now);
    case DoFailure(c, kind) => FailureMoves(t, c, kind, now);
    case DoBeat(c) => BeatMoves(t, c, now);
    case DoReady(c, image, developer, ssh, job) => ReadyMoves(names, t, c, image, developer, ssh, job, now);
    case _ => EnvironmentMoves(names, t, op, now);
  }

  function AttemptsOf(t: Tables, id: Id): (r: nat)
  {
    if id in t.revisions then t.revisions[id].attempts else 0
  }

  predicate BecomesBuilding(t: Tables, u: Tables, id: Id)
  {
    && id in t.revisions && t.revisions[id].state == Queued
    && id in u.revisions && u.revisions[id].state == Building
  }

  /** How often a revision is handed to a builder during a run. */
  function Claims(names: Names, t: Tables, run: seq<Event>, id: Id): (r: nat)
    decreases |run|
  {
    if run == [] then 0
    else
      var u := Do(names, t, run[0].op, run[0].at);
      (if BecomesBuilding(t, u, id) then 1 else 0) + Claims(names, u, run[1..], id)
  }

  lemma {:induction false} ClaimsCounted(names: Names, t: Tables, run: seq<Event>, id: Id)
    requires Invariant(names, t)
    ensures AttemptsOf(Exec(names, t, run), id) == AttemptsOf(t, id) + Claims(names, t, run, id)
    decreases |run|
  {
    if run != [] {
      var u := Do(names, t, run[0].op, run[0].at);
      DoKeeps(names, t, run[0].op, run[0].at);
      DoMoves(names, t, run[0].op, run[0].at);
      assert id in t.revisions ==> Moves(t.revisions[id], u.revisions[id], t.issued, run[0].at);
      ClaimsCounted(names, u, run[1..], id);
    }
  }

  /** No revision is ever built more than three times, whatever expires or fails. */
  lemma AtMostThreeClaims(names: Names, run: seq<Event>, id: Id)
    ensures Claims(names, EMPTY, run, id) <= MAX_ATTEMPTS
  {
    ClaimsCounted(names, EMPTY, run, id);
    RunKeeps(names, EMPTY, run);
    var t := Exec(names, EMPTY, run);
    assert id in t.revisions ==> RowSound(t.revisions[id]);
  }

  function Changes(names: Names, t: Tables, run: seq<Event>, id: Id): (r: nat)
    decreases |run|
  {
    if run == [] then 0
    else
      var u := Do(names, t, run[0].op, run[0].at);
      (if id in t.revisions && id in u.revisions && t.revisions[id].state != u.revisions[id].state then 1 else 0)
        + Changes(names, u, run[1..], id)
  }

  /** Every change of state uses up rank, so a queued revision settles within seven. */
  lemma {:induction false} ChangesBounded(names: Names, t: Tables, run: seq<Event>, id: Id)
    requires Invariant(names, t) && id in t.revisions
    ensures Changes(names, t, run, id) <= Rank(t.revisions[id]) <= 7
    decreases |run|
  {
    assert RowSound(t.revisions[id]);
    if run != [] {
      var u := Do(names, t, run[0].op, run[0].at);
      DoKeeps(names, t, run[0].op, run[0].at);
      DoMoves(names, t, run[0].op, run[0].at);
      assert Moves(t.revisions[id], u.revisions[id], t.issued, run[0].at);
      ChangesBounded(names, u, run[1..], id);
    }
  }

  /** A published tag, digest and base digest never change. */
  lemma {:induction false} PublishedForever(names: Names, t: Tables, run: seq<Event>, id: Id)
    requires Invariant(names, t) && id in t.revisions && t.revisions[id].state == ImageReady
    ensures var u := Exec(names, t, run);
            id in u.revisions && u.revisions[id].state == ImageReady && u.revisions[id].image == t.revisions[id].image
    decreases |run|
  {
    if run != [] {
      var u := Do(names, t, run[0].op, run[0].at);
      DoKeeps(names, t, run[0].op, run[0].at);
      DoMoves(names, t, run[0].op, run[0].at);
      assert Moves(t.revisions[id], u.revisions[id], t.issued, run[0].at);
      PublishedForever(names, u, run[1..], id);
    }
  }

  // ------------------------------------------------------------------- leases and exclusion

  ghost predicate LeasesNear(rows: Rows, now: Time)
  {
    forall k :: k in rows && rows[k].state == Building && rows[k].lease.Some? ==> rows[k].lease.value <= now + LEASE
  }

  lemma {:induction false} LeasesStayNear(names: Names, t: Tables, clock: Time, run: seq<Event>)
    requires Invariant(names, t) && LeasesNear(t.revisions, clock) && Timed(clock, run)
    ensures LeasesNear(Exec(names, t, run).revisions, Latest(clock, run))
    decreases |run|
  {
    if run != [] {
      var op, now := run[0].op, run[0].at;
      var u := Do(names, t, op, now);
      DoKeeps(names, t, op, now);
      LeasesOneStep(names, t, clock, op, now);
      LeasesStayNear(names, u, now, run[1..]);
      assert Exec(names, t, run) == Exec(names, u, run[1..]) && Latest(clock, run) == Latest(now, run[1..]);
    }
  }

  lemma LeasesOneStep(names: Names, t: Tables, clock: Time, op: Op, now: Time)
    requires RowsSound(t.revisions) && LeasesNear(t.revisions, clock) && clock <= now
    ensures LeasesNear(Do(names, t, op, now).revisions, now)
  {
    var u := Do(names, t, op, now);
    DoMoves(names, t, op, now);
    forall k | k in u.revisions && u.revisions[k].state == Building && u.revisions[k].lease.Some?
      ensures u.revisions[k].lease.value <= now + LEASE
    {
      assert k in t.revisions && Moves(t.revisions[k], u.revisions[k], t.issued, now);
    }
  }

  /** No build lease ever reaches more than 45 seconds past the clock, so a silent
      builder is found out within that time. */
  lemma LeaseBound(names: Names, clock: Time, run: seq<Event>, id: Id)
    requires Timed(clock, run)
    requires var t := Exec(names, EMPTY, run); id in t.revisions && t.revisions[id].state == Building
    ensures var row := Exec(names, EMPTY, run).revisions[id];
            row.lease.Some? && row.lease.value <= Latest(clock, run) + LEASE
  {
    RunKeeps(names, EMPTY, run);
    LeasesStayNear(names, EMPTY, clock, run);
    assert RowSound(Exec(names, EMPTY, run).revisions[id]);
  }

  /** Until it is claimed again, a queued revision keeps whom it excludes and until when. */
  lemma {:induction false} ExclusionStays(names: Names, t: Tables, run: seq<Event>, id: Id)
    requires Invariant(names, t) && id in t.revisions && t.revisions[id].state == Queued
    ensures var u := Exec(names, t, run);
            && id in u.revisions && t.revisions[id].attempts <= u.revisions[id].attempts
            && (u.revisions[id].state == Queued && u.revisions[id].attempts == t.revisions[id].attempts ==>
                  u.revisions[id].excluded == t.revisions[id].excluded
                  && u.revisions[id].excludedUntil == t.revisions[id].excludedUntil)
    decreases |run|
  {
    if run != [] {
      var u := Do(names, t, run[0].op, run[0].at);
      DoKeeps(names, t, run[0].op, run[0].at);
      DoMoves(names, t, run[0].op, run[0].at);
      assert Moves(t.revisions[id], u.revisions[id], t.issued, run[0].at);
      if u.revisions[id].state == Queued {
        ExclusionStays(names, u, run[1..], id);
      } else {
        AttemptsGrow(names, u, run[1..], id);
      }
    }
  }

  /** A revision that has left the queue is queued again only with an attempt more, and
      a settled one never. */
  lemma {:induction false} AttemptsGrow(names: Names, t: Tables, run: seq<Event>, id: Id)
    requires Invariant(names, t) && id in t.revisions
    ensures var u := Exec(names, t, run);
            && id in u.revisions && t.revisions[id].attempts <= u.revisions[id].attempts
            && (Rank(t.revisions[id]) == 0 ==> Rank(u.revisions[id]) == 0)
    decreases |run|
  {
    if run != [] {
      var u := Do(names, t, run[0].op, run[0].at);
      assert RowSound(t.revisions[id]);
      DoKeeps(names, t, run[0].op, run[0].at);
      DoMoves(names, t, run[0].op, run[0].at);
      assert Moves(t.revisions[id], u.revisions[id], t.issued, run[0].at);
      assert RowSound(u.revisions[id]);
      AttemptsGrow(names, u, run[1..], id);
    }
  }

  /** A builder whose build was returned to the queue is not handed that revision
      again within 45 seconds, unless another builder had it in between. */
  lemma BuilderSitsOut(names: Names, t: Tables, op: Op, now: Time, run: seq<Event>, id: Id, builder: Id, at: Time)
    requires Invariant(names, t) && id in t.revisions
    requires t.revisions[id].state == Building && t.revisions[id].builder == Some(builder)
    requires var u := Do(names, t, op, now);
             id in u.revisions && u.revisions[id].state == Queued
             && AttemptsOf(Exec(names, u, run), id) == u.revisions[id].attempts
    requires at < now + LEASE
    ensures var v := Exec(names, Do(names, t, op, now), run);
            id in v.revisions && !Eligible(v.revisions[id], builder, at)
  {
    var u := Do(names, t, op, now);
    DoKeeps(names, t, op, now);
    DoMoves(names, t, op, now);
    assert Moves(t.revisions[id], u.revisions[id], t.issued, now);
    ExclusionStays(names, u, run, id);
  }

  // ------------------------------------------------------------------- attempt fencing

  predicate Current(row: Revision, attempt: Id, now: Time)
  {
    row.state == Building && row.attempt == Some(attempt) && !Lapsed(row, now)
  }

  /** An attempt that was handed out and no longer stands: lapsed, released,
      superseded, published, failed or cancelled. */
  ghost predicate Dead(t: Tables, attempt: Id, now: Time)
  {
    attempt in t.issued && forall k :: k in t.revisions ==> !Current(t.revisions[k], attempt, now)
  }

  lemma ClaimIssues(t: Tables, id: Id, builder: Id, attempt: Id, locked: set<Id>, now: Time)
    ensures t.issued <= Claim(t, id, builder, attempt, locked, now).issued
  {
  }

  lemma ReadyIssuesNothing(names: Names, t: Tables, c: Callback, image: Image, developer: bool, ssh: bool, job: Id, now: Time)
    ensures MarkReady(names, t, c, image, developer, ssh, job, now).tables.issued == t.issued
  {
  }

  lemma FailureIssuesNothing(t: Tables, c: Callback, kind: FailureKind, now: Time)
    ensures Failure(t, c, kind, now).tables.issued == t.issued
  {
  }

  lemma ExpiryIssuesNothing(t: Tables, id: Id, now: Time)
    ensures Expire(t, id, now).issued == t.issued
  {
  }

  lemma CancelIssuesNothing(t: Tables, workspace: Id, id: Id)
    ensures Cancel(t, workspace, id).tables.issued == t.issued
  {
  }

  /** No operation withdraws an attempt identifier, and only a claim hands one out. */
  lemma IssuedGrows(names: Names, t: Tables, op: Op, now: Time)
    ensures t.issued <= Do(names, t, op, now).issued
    ensures !op.DoClaim? ==> Do(names, t, op, now).issued == t.issued
  {
    match op
    case DoCancel(workspace, id) => CancelIssuesNothing(t, workspace, id);
    case DoExpire(id) => ExpiryIssuesNothing(t, id, now);
    case DoClaim(id, builder, attempt, locked) => ClaimIssues(t, id, builder, attempt, locked, now);
    case DoFailure(c, kind) => FailureIssuesNothing(t, c, kind, now);
    case DoReady(c, image, developer, ssh, job) => ReadyIssuesNothing(names, t, c, image, developer, ssh, job, now);
    case _ =>
  }

  lemma StaysDead(names: Names, t: Tables, op: Op, attempt: Id, was: Time, now: Time)
    requires RowsSound(t.revisions) && Dead(t, attempt, was) && was <= now
    ensures Dead(Do(names, t, op, now), attempt, now)
  {
    var u := Do(names, t, op, now);
    IssuedGrows(names, t, op, now);
    DoMoves(names, t, op, now);
    forall k | k in u.revisions ensures !Current(u.revisions[k], attempt, now) {
      if k in t.revisions {
        assert Moves(t.revisions[k], u.revisions[k], t.issued, now);
        assert !Current(t.revisions[k], attempt, was);
      }
    }
  }

  lemma {:induction false} DeadForever(names: Names, t: Tables, clock: Time, run: seq<Event>, attempt: Id)
    requires Invariant(names, t) && Dead(t, attempt, clock) && Timed(clock, run)
    ensures Dead(Exec(names, t, run), attempt, Latest(clock, run))
    decreases |run|
  {
    if run != [] {
      var u := Do(names, t, run[0].op, run[0].at);
      DoKeeps(names, t, run[0].op, run[0].at);
      StaysDead(names, t, run[0].op, attempt, clock, run[0].at);
      DeadForever(names, u, run[0].at, run[1..], attempt);
      assert Exec(names, t, run) == Exec(names, u, run[1..]) && Latest(clock, run) == Latest(run[0].at, run[1..]);
    }
  }

  /** The attempt a row is building under dies when the row leaves that state, by
      whatever hand, and when its lease lapses. */
  lemma AttemptDies(names: Names, t: Tables, op: Op, id: Id, attempt: Id, now: Time)
    requires Invariant(names, t)
    requires id in t.revisions && t.revisions[id].state == Building && t.revisions[id].attempt == Some(attempt)
    ensures Lapsed(t.revisions[id], now) ==> Dead(t, attempt, now)
    ensures id in Do(names, t, op, now).revisions
    ensures Do(names, t, op, now).revisions[id].state != Building ==> Dead(Do(names, t, op, now), attempt, now)
  {
    var u := Do(names, t, op, now);
    IssuedGrows(names, t, op, now);
    DoMoves(names, t, op, now);
    forall k | k in t.revisions && t.revisions[k].attempt == Some(attempt) ensures k == id {
      assert t.revisions[k].attempt == t.revisions[id].attempt;
    }
    if u.revisions[id].state != Building {
      forall k | k in u.revisions ensures !Current(u.revisions[k], attempt, now) {
        assert k in t.revisions ==> Moves(t.revisions[k], u.revisions[k], t.issued, now);
      }
    }
  }

  predicate CallsBack(op: Op, attempt: Id)
  {
    (op.DoFailure? || op.DoBeat? || op.DoReady?) && op.c.attempt == attempt
  }

  /** A row apart from the profile labels a redelivery may add. */
  predicate SameStanding(row: Revision, other: Revision)
  {
    row.(developer := false, ssh := false) == other.(developer := false, ssh := false)
  }

  lemma DeadIsUnfenced(t: Tables, c: Callback, now: Time)
    requires Dead(t, c.attempt, now)
    ensures !Fenced(t.revisions, c, false, now)
    ensures Fenced(t.revisions, c, true, now) ==> t.revisions[c.revision].state == ImageReady
  {
    assert c.revision in t.revisions ==> !Current(t.revisions[c.revision], c.attempt, now);
  }

  lemma RedeliveryIsInert(
    names: Names, t: Tables, c: Callback, image: Image, developer: bool, ssh: bool, job: Id, now: Time)
    requires Fenced(t.revisions, c, true, now) ==> t.revisions[c.revision].state == ImageReady
    ensures var u := MarkReady(names, t, c, image, developer, ssh, job, now).tables;
            && u == t.(revisions := u.revisions)
            && forall k :: k in t.revisions ==> k in u.revisions && SameStanding(t.revisions[k], u.revisions[k])
  {
  }

  /** A callback or heartbeat under a dead attempt changes nothing but, on a
      redelivered publication, profile labels. */
  lemma DeadIsInert(names: Names, t: Tables, op: Op, attempt: Id, now: Time)
    requires Dead(t, attempt, now) && CallsBack(op, attempt)
    ensures var u := Do(names, t, op, now);
            && u == t.(revisions := u.revisions)
            && forall k :: k in t.revisions ==> k in u.revisions && SameStanding(t.revisions[k], u.revisions[k])
  {
    DeadIsUnfenced(t, op.c, now);
    if op.DoReady? {
      RedeliveryIsInert(names, t, op.c, op.image, op.developer, op.ssh, op.job, now);
    }
  }

  predicate Decides(t: Tables, u: Tables, op: Op, attempt: Id)
  {
    && CallsBack(op, attempt)
    && op.c.revision in t.revisions && op.c.revision in u.revisions
    && t.revisions[op.c.revision].state != u.revisions[op.c.revision].state
  }

  /** How many publish or failure outcomes the callbacks of one attempt bring about. */
  function Outcomes(names: Names, t: Tables, run: seq<Event>, attempt: Id): (r: nat)
    decreases |run|
  {
    if run == [] then 0
    else
      var u := Do(names, t, run[0].op, run[0].at);
      (if Decides(t, u, run[0].op, attempt) then 1 else 0) + Outcomes(names, u, run[1..], attempt)
  }

  lemma {:induction false} DeadDecidesNothing(names: Names, t: Tables, clock: Time, run: seq<Event>, attempt: Id)
    requires Invariant(names, t) && Dead(t, attempt, clock) && Timed(clock, run)
    ensures Outcomes(names, t, run, attempt) == 0
    decreases |run|
  {
    if run != [] {
      DoKeeps(names, t, run[0].op, run[0].at);
      StaysDead(names, t, run[0].op, attempt, clock, run[0].at);
      DeadDecidesNothing(names, Do(names, t, run[0].op, run[0].at), run[0].at, run[1..], attempt);
      if CallsBack(run[0].op, attempt) {
        assert Dead(t, attempt, run[0].at);
        DeadIsInert(names, t, run[0].op, attempt, run[0].at);
      }
    }
  }

  /** The callback that decides an attempt finds it current and leaves it dead. */
  lemma DecidingKills(names: Names, t: Tables, op: Op, attempt: Id, now: Time)
    requires Invariant(names, t) && Decides(t, Do(names, t, op, now), op, attempt)
    ensures Dead(Do(names, t, op, now), attempt, now)
  {
    var id := op.c.revision;
    assert RowSound(t.revisions[id]);
    assert Fenced(t.revisions, op.c, false, now) by {
      match op
      case DoFailure(_, kind) =>
      case DoBeat(_) =>
      case DoReady(_, image, developer, ssh, job) =>
    }
    AttemptDies(names, t, op, id, attempt, now);
    DoMoves(names, t, op, now);
    assert Moves(t.revisions[id], Do(names, t, op, now).revisions[id], t.issued, now);
  }

  /** Each attempt decides its revision at most once, over any run. */
  lemma {:induction false} OneOutcome(names: Names, t: Tables, clock: Time, run: seq<Event>, attempt: Id)
    requires Invariant(names, t) && Timed(clock, run)
    ensures Outcomes(names, t, run, attempt) <= 1
    decreases |run|
  {
    if run != [] {
      var u := Do(names, t, run[0].op, run[0].at);
      DoKeeps(names, t, run[0].op, run[0].at);
      if Decides(t, u, run[0].op, attempt) {
        DecidingKills(names, t, run[0].op, attempt, run[0].at);
        DeadDecidesNothing(names, u, run[0].at, run[1..], attempt);
      } else {
        OneOutcome(names, u, run[0].at, run[1..], attempt);
      }
    }
  }

  // ------------------------------------------------------------------- image references

  /** Identifiers are spelled differently, and equally long. */
  ghost predicate ProperNames(names: Names, ids: set<Id>)
  {
    forall x, y :: x in ids && y in ids ==> |names(x)| == |names(y)| && (names(x) == names(y) ==> x == y)
  }

  /** Two published revisions never share a tag. */
  lemma TagsDistinct(names: Names, t: Tables, x: Id, y: Id)
    requires Invariant(names, t) && ProperNames(names, t.issued)
    requires x in t.revisions && t.revisions[x].state == ImageReady && y in t.revisions && t.revisions[y].state == ImageReady
    requires t.revisions[x].image.Some? && t.revisions[y].image.Some?
    requires t.revisions[x].image.value.tag == t.revisions[y].image.value.tag
    ensures x == y
  {
    assert RowSound(t.revisions[x]) && RowSound(t.revisions[y]);
    var a, b := t.revisions[x].attempt.value, t.revisions[y].attempt.value;
    var tag := t.revisions[x].image.value.tag;
    SuffixSplits(tag, ":revision-" + names(x) + "-attempt-", names(a));
    SuffixSplits(tag, ":revision-" + names(y) + "-attempt-", names(b));
    assert names(a) == names(b);
  }

  lemma SuffixSplits(s: string, front: string, back: string)
    requires EndsWith(s, front + back)
    ensures EndsWith(s, back)
  {
    var whole := front + back;
    assert s[|s| - |back|..] == s[|s| - |whole|..][|front|..];
  }
}
