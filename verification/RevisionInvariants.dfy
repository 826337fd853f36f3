/** What every transaction of the revision machine keeps. */
module RevisionInvariants {
  import opened Common
  import opened Revisions

  /** The fields a state admits; a queued revision has an attempt left. */
  predicate RowSound(row: Revision)
  {
    match row.state
    case Queued => row.attempts < MAX_ATTEMPTS && row.builder.None? && row.attempt.None? && row.lease.None? && row.image.None?
    case Building =>
      1 <= row.attempts <= MAX_ATTEMPTS && row.builder.Some? && row.attempt.Some? && row.lease.Some? && row.image.None?
    case ImageReady =>
      1 <= row.attempts <= MAX_ATTEMPTS && row.builder.Some? && row.attempt.Some? && row.lease.None? && row.image.Some?
    case Failed => row.attempts <= MAX_ATTEMPTS && row.builder.None? && row.attempt.None? && row.lease.None? && row.image.None?
    case Cancelled => row.attempts <= MAX_ATTEMPTS && row.lease.None? && row.image.None?
  }

  ghost predicate RowsSound(rows: Rows)
  {
    forall k :: k in rows ==> RowSound(rows[k])
  }

  ghost predicate AttemptsUnique(rows: Rows)
  {
    forall x, y :: x in rows && y in rows && rows[x].attempt.Some? && rows[x].attempt == rows[y].attempt ==> x == y
  }

  ghost predicate AttemptsIssued(rows: Rows, issued: set<Id>)
  {
    forall k :: k in rows && rows[k].attempt.Some? ==> rows[k].attempt.value in issued
  }

  ghost predicate PublishedMatches(names: Names, rows: Rows)
  {
    forall k :: k in rows && rows[k].state == ImageReady && rows[k].attempt.Some? && rows[k].image.Some? ==>
                  ImageMatches(names, rows[k].workspace, k, rows[k].attempt.value, rows[k].image.value)
  }

  predicate ReadyOf(rows: Rows, id: Id, workspace: Id)
  {
    id in rows && rows[id].state == ImageReady && rows[id].workspace == workspace
  }

  /** The heads of a workspace name published revisions of its own. */
  ghost predicate HeadsReady(rows: Rows, workspaces: map<Id, Workspace>)
  {
    forall w :: w in workspaces ==>
      && (workspaces[w].saved.Some? ==> ReadyOf(rows, workspaces[w].saved.value, w))
      && (workspaces[w].current.Some? ==> ReadyOf(rows, workspaces[w].current.value, w))
  }

  predicate Agrees(revision: RevisionState, save: SaveState)
  {
    match revision
    case Queued => save == PublishQueued
    case Building => save == PublishQueued
    case ImageReady => save == Succeeded
    case Failed => save == SaveFailed
    case Cancelled => save == SaveFailed
  }

  /** A snapshot revision and its save operation name each other and agree. */
  predicate SnapshotLinked(row: Revision, id: Id, saves: map<Id, Save>)
  {
    row.origin == Snapshot ==>
      && row.save.Some? && row.save.value in saves && saves[row.save.value].target == Some(id)
      && saves[row.save.value].workspace == row.workspace && Agrees(row.state, saves[row.save.value].state)
  }

  ghost predicate SnapshotsLinked(rows: Rows, saves: map<Id, Save>)
  {
    forall k :: k in rows ==> SnapshotLinked(rows[k], k, saves)
  }

  predicate SaveLinked(rows: Rows, s: Id, save: Save)
  {
    match save.target
    case None => BeforePublication(save.state) || save.state == SaveFailed
    case Some(id) => id in rows && rows[id].origin == Snapshot && rows[id].save == Some(s)
  }

  ghost predicate SavesLinked(rows: Rows, saves: map<Id, Save>)
  {
    forall s :: s in saves ==> SaveLinked(rows, s, saves[s])
  }

  predicate SubmissionBound(submission: Submission, s: Id, saves: map<Id, Save>, jobs: map<Id, Job>)
  {
    && s in saves
    && (submission.state == SubmissionFailed <==> saves[s].state == SaveFailed)
    && (submission.state == JobCreated <==> saves[s].state == Succeeded)
    && (submission.job.Some? <==> submission.state == JobCreated)
    && (submission.job.Some? ==> submission.job.value in jobs && jobs[submission.job.value].save == s)
  }

  ghost predicate SubmissionsBound(submissions: map<Id, Submission>, saves: map<Id, Save>, jobs: map<Id, Job>)
  {
    forall s :: s in submissions ==> SubmissionBound(submissions[s], s, saves, jobs)
  }

  predicate JobBound(job: Job, j: Id, rows: Rows, submissions: map<Id, Submission>)
  {
    && job.save in submissions && submissions[job.save].job == Some(j)
    && job.revision in rows && rows[job.revision].state == ImageReady && rows[job.revision].save == Some(job.save)
    && rows[job.revision].image.Some? && rows[job.revision].image.value.digestRef == job.image
  }

  ghost predicate JobsBound(jobs: map<Id, Job>, rows: Rows, submissions: map<Id, Submission>)
  {
    forall j :: j in jobs ==> JobBound(jobs[j], j, rows, submissions)
  }

  ghost predicate Homed(rows: Rows, workspaces: map<Id, Workspace>)
  {
    forall k :: k in rows ==> rows[k].workspace in workspaces
  }

  ghost predicate SavesHomed(saves: map<Id, Save>, workspaces: map<Id, Workspace>)
  {
    forall s :: s in saves ==> saves[s].workspace in workspaces
  }

  ghost predicate RowsFine(names: Names, t: Tables)
  {
    && RowsSound(t.revisions) && AttemptsUnique(t.revisions) && AttemptsIssued(t.revisions, t.issued)
    && PublishedMatches(names, t.revisions) && Homed(t.revisions, t.workspaces) && HeadsReady(t.revisions, t.workspaces)
  }

  ghost predicate LinksFine(t: Tables)
  {
    && SnapshotsLinked(t.revisions, t.saves) && SavesLinked(t.revisions, t.saves)
    && SubmissionsBound(t.submissions, t.saves, t.jobs) && JobsBound(t.jobs, t.revisions, t.submissions)
    && SavesHomed(t.saves, t.workspaces)
  }

  ghost predicate Invariant(names: Names, t: Tables)
  {
    RowsFine(names, t) && LinksFine(t)
  }

  // ------------------------------------------------------------------- one row at a time

  /** A row may be replaced by one that keeps its identity and, when published, its image. */
  predicate Replaces(was: Revision, row: Revision)
  {
    && row.workspace == was.workspace && row.number == was.number && row.origin == was.origin
    && row.save == was.save && row.created == was.created
    && (was.state == ImageReady ==> row.state == ImageReady && row.image == was.image && row.attempt == was.attempt)
  }

  lemma AttemptsReplaced(rows: Rows, issued: set<Id>, id: Id, row: Revision)
    requires AttemptsUnique(rows) && AttemptsIssued(rows, issued) && id in rows
    requires row.attempt.Some? ==> row.attempt == rows[id].attempt
    ensures AttemptsUnique(rows[id := row]) && AttemptsIssued(rows[id := row], issued)
  {
    var next := rows[id := row];
    forall x, y | x in next && y in next && next[x].attempt.Some? && next[x].attempt == next[y].attempt ensures x == y {
      assert rows[x].attempt == rows[y].attempt;
    }
  }

  lemma HeadsReplaced(rows: Rows, workspaces: map<Id, Workspace>, id: Id, row: Revision)
    requires HeadsReady(rows, workspaces) && Homed(rows, workspaces) && id in rows && Replaces(rows[id], row)
    ensures HeadsReady(rows[id := row], workspaces) && Homed(rows[id := row], workspaces)
  {
    forall k, w | ReadyOf(rows, k, w) ensures ReadyOf(rows[id := row], k, w) {
    }
  }

  lemma MatchesReplaced(names: Names, rows: Rows, id: Id, row: Revision)
    requires PublishedMatches(names, rows) && RowsSound(rows) && id in rows && Replaces(rows[id], row) && RowSound(row)
    requires row.state == ImageReady && rows[id].state != ImageReady ==>
               ImageMatches(names, row.workspace, id, row.attempt.value, row.image.value)
    ensures PublishedMatches(names, rows[id := row]) && RowsSound(rows[id := row])
  {
    assert RowSound(rows[id]);
  }

  lemma RowReplaced(names: Names, t: Tables, id: Id, row: Revision)
    requires RowsFine(names, t) && id in t.revisions && Replaces(t.revisions[id], row) && RowSound(row)
    requires row.attempt.Some? ==> row.attempt == t.revisions[id].attempt
    requires row.state == ImageReady && t.revisions[id].state != ImageReady ==>
               ImageMatches(names, row.workspace, id, row.attempt.value, row.image.value)
    ensures RowsFine(names, t.(revisions := t.revisions[id := row]))
  {
    AttemptsReplaced(t.revisions, t.issued, id, row);
    HeadsReplaced(t.revisions, t.workspaces, id, row);
    MatchesReplaced(names, t.revisions, id, row);
  }

  lemma RowClaimed(names: Names, t: Tables, id: Id, row: Revision, attempt: Id)
    requires RowsFine(names, t) && id in t.revisions && Replaces(t.revisions[id], row) && RowSound(row)
    requires row.attempt == Some(attempt) && attempt !in t.issued && row.state == Building
    ensures RowsFine(names, t.(revisions := t.revisions[id := row], issued := t.issued + {attempt}))
  {
  }

  lemma RowAdded(names: Names, t: Tables, id: Id, row: Revision)
    requires RowsFine(names, t) && id !in t.revisions && row.workspace in t.workspaces
    requires row.state == Queued && RowSound(row)
    ensures RowsFine(names, t.(revisions := t.revisions[id := row]))
  {
  }

  /** A change of row that leaves its standing with its save alone. */
  lemma LinksKept(t: Tables, id: Id, row: Revision)
    requires LinksFine(t) && id in t.revisions && Replaces(t.revisions[id], row)
    requires row.origin == Snapshot ==> forall s :: Agrees(t.revisions[id].state, s) ==> Agrees(row.state, s)
    ensures LinksFine(t.(revisions := t.revisions[id := row]))
  {
  }

  /** A revision that ends unpublished takes its save and its submission with it. */
  lemma SaveFails(t: Tables, id: Id, row: Revision)
    requires LinksFine(t) && id in t.revisions && Replaces(t.revisions[id], row)
    requires t.revisions[id].state == Queued || t.revisions[id].state == Building
    requires row.state == Failed || row.state == Cancelled
    ensures LinksFine(FailSave(t.(revisions := t.revisions[id := row]), t.revisions[id]))
  {
    var was := t.revisions[id];
    var u := FailSave(t.(revisions := t.revisions[id := row]), was);
    assert SnapshotLinked(was, id, t.saves);
    if was.origin == Snapshot {
      var s := was.save.value;
      forall k | k in u.revisions ensures SnapshotLinked(u.revisions[k], k, u.saves) {
        assert k != id ==> SnapshotLinked(t.revisions[k], k, t.saves);
      }
      assert s in t.submissions ==> SubmissionBound(t.submissions[s], s, t.saves, t.jobs);
      forall j | j in u.jobs ensures JobBound(u.jobs[j], j, u.revisions, u.submissions) {
        assert JobBound(t.jobs[j], j, t.revisions, t.submissions);
      }
    } else {
      LinksKept(t, id, row);
    }
  }

  // ------------------------------------------------------------------- transactions

  lemma ExpireKeeps(names: Names, t: Tables, id: Id, now: Time)
    requires Invariant(names, t)
    ensures Invariant(names, Expire(t, id, now))
  {
    if id in t.revisions && Lapsed(t.revisions[id], now) {
      var row := t.revisions[id];
      assert RowSound(row);
      var terminal := row.attempts >= MAX_ATTEMPTS;
      var next := Returned(row, SystemFailure, terminal, now);
      RowReplaced(names, t, id, next);
      if terminal {
        SaveFails(t, id, next);
      } else {
        LinksKept(t, id, next);
      }
    }
  }

  lemma ClaimKeeps(names: Names, t: Tables, id: Id, builder: Id, attempt: Id, locked: set<Id>, now: Time)
    requires Invariant(names, t)
    ensures Invariant(names, Claim(t, id, builder, attempt, locked, now))
  {
    if attempt !in t.issued && IsNext(t.revisions, locked, id, builder, now) {
      var row := t.revisions[id];
      assert RowSound(row);
      RowClaimed(names, t, id, Claimed(row, builder, attempt, now), attempt);
      LinksKept(t, id, Claimed(row, builder, attempt, now));
    }
  }

  lemma CancelKeeps(names: Names, t: Tables, workspace: Id, id: Id)
    requires Invariant(names, t)
    ensures Invariant(names, Cancel(t, workspace, id).tables)
  {
    if workspace in t.workspaces && IsLatest(t.revisions, workspace, id) {
      var row := t.revisions[id];
      if row.state == Queued || row.state == Building {
        assert RowSound(row);
        var next := row.(state := Cancelled, lease := None);
        RowReplaced(names, t, id, next);
        SaveFails(t, id, next);
      }
    }
  }

  lemma FailureKeeps(names: Names, t: Tables, c: Callback, kind: FailureKind, now: Time)
    requires Invariant(names, t)
    ensures Invariant(names, Failure(t, c, kind, now).tables)
  {
    if Fenced(t.revisions, c, false, now) {
      var row := t.revisions[c.revision];
      assert RowSound(row);
      var terminal := kind == UserFailure || row.attempts >= MAX_ATTEMPTS;
      var next := Returned(row, kind, terminal, now);
      RowReplaced(names, t, c.revision, next);
      if terminal {
        SaveFails(t, c.revision, next);
      } else {
        LinksKept(t, c.revision, next);
      }
    }
  }

  lemma BeatKeeps(names: Names, t: Tables, c: Callback, now: Time)
    requires Invariant(names, t)
    ensures Invariant(names, Beat(t, c, now))
  {
    if Fenced(t.revisions, c, false, now) {
      var row := t.revisions[c.revision];
      assert RowSound(row);
      RowReplaced(names, t, c.revision, row.(lease := Some(now + LEASE)));
      LinksKept(t, c.revision, row.(lease := Some(now + LEASE)));
    }
  }

  lemma HeadsMove(names: Names, t: Tables, id: Id, w: Workspace)
    requires RowsFine(names, t) && id in t.revisions && t.revisions[id].state == ImageReady
    requires w.current == Some(id) && (w.saved == Some(id) || w.saved == t.workspaces[t.revisions[id].workspace].saved)
    ensures RowsFine(names, t.(workspaces := t.workspaces[t.revisions[id].workspace := w]))
  {
  }

  /** A published snapshot and its save, submission and job change together. */
  lemma SaveSettles(t: Tables, id: Id, row: Revision, image: Image, job: Id)
    requires LinksFine(t) && id in t.revisions && Replaces(t.revisions[id], row)
    requires t.revisions[id].state == Building && row.state == ImageReady && row.image == Some(image)
    requires row.origin == Snapshot && SaveFound(t, row, id) && job !in t.jobs
    ensures LinksFine(SettleSave(t.(revisions := t.revisions[id := row]), row.save.value, id, image, job))
  {
    var s := row.save.value;
    var u := SettleSave(t.(revisions := t.revisions[id := row]), s, id, image, job);
    assert SnapshotLinked(t.revisions[id], id, t.saves);
    forall k | k in u.revisions ensures SnapshotLinked(u.revisions[k], k, u.saves) {
      assert k != id ==> SnapshotLinked(t.revisions[k], k, t.saves);
    }
    assert s in t.submissions ==> SubmissionBound(t.submissions[s], s, t.saves, t.jobs);
    forall k | k in u.submissions ensures SubmissionBound(u.submissions[k], k, u.saves, u.jobs) {
      assert SubmissionBound(t.submissions[k], k, t.saves, t.jobs);
    }
    forall j | j in u.jobs ensures JobBound(u.jobs[j], j, u.revisions, u.submissions) {
      assert j != job ==> JobBound(t.jobs[j], j, t.revisions, t.submissions);
    }
  }

  lemma PublishRows(
    names: Names, t: Tables, id: Id, attempt: Id, image: Image, developer: bool, ssh: bool, w: Workspace)
    requires RowsFine(names, t) && id in t.revisions && t.revisions[id].workspace in t.workspaces
    requires t.revisions[id].state == Building && t.revisions[id].attempt == Some(attempt)
    requires ImageMatches(names, t.revisions[id].workspace, id, attempt, image)
    requires w.current == Some(id) && (w.saved == Some(id) || w.saved == t.workspaces[t.revisions[id].workspace].saved)
    ensures RowsFine(names, t.(revisions := t.revisions[id := Published(t.revisions[id], image, developer, ssh)],
                               workspaces := t.workspaces[t.revisions[id].workspace := w]))
  {
    assert RowSound(t.revisions[id]);
    var next := Published(t.revisions[id], image, developer, ssh);
    RowReplaced(names, t, id, next);
    HeadsMove(names, t.(revisions := t.revisions[id := next]), id, w);
  }

  lemma PublishLinks(t: Tables, id: Id, image: Image, developer: bool, ssh: bool, job: Id)
    requires LinksFine(t) && id in t.revisions && t.revisions[id].workspace in t.workspaces
    requires t.revisions[id].state == Building
    ensures LinksFine(Publish(t, id, image, developer, ssh, job).tables)
  {
    var row := t.revisions[id];
    var next := Published(row, image, developer, ssh);
    var w := t.workspaces[row.workspace];
    var v := t.(workspaces := t.workspaces[row.workspace :=
                  Workspace(Some(id), if w.saved.None? || row.origin == Snapshot then Some(id) else w.saved)]);
    assert LinksFine(v);
    if row.origin != Snapshot {
      LinksKept(v, id, next);
    } else if SaveFound(t, row, id) && job !in t.jobs {
      SaveSettles(v, id, next, image, job);
    }
  }

  lemma PublishKeeps(
    names: Names, t: Tables, id: Id, attempt: Id, image: Image, developer: bool, ssh: bool, job: Id)
    requires Invariant(names, t) && id in t.revisions && t.revisions[id].workspace in t.workspaces
    requires t.revisions[id].state == Building && t.revisions[id].attempt == Some(attempt)
    requires ImageMatches(names, t.revisions[id].workspace, id, attempt, image)
    ensures Invariant(names, Publish(t, id, image, developer, ssh, job).tables)
  {
    var row := t.revisions[id];
    var w := t.workspaces[row.workspace];
    PublishRows(names, t, id, attempt, image, developer, ssh,
                Workspace(Some(id), if w.saved.None? || row.origin == Snapshot then Some(id) else w.saved));
    PublishLinks(t, id, image, developer, ssh, job);
  }

  lemma MarkReadyKeeps(
    names: Names, t: Tables, c: Callback, image: Image, developer: bool, ssh: bool, job: Id, now: Time)
    requires Invariant(names, t)
    ensures Invariant(names, MarkReady(names, t, c, image, developer, ssh, job, now).tables)
  {
    if Fenced(t.revisions, c, true, now) {
      var row := t.revisions[c.revision];
      if ImageMatches(names, row.workspace, c.revision, c.attempt, image) {
        assert RowSound(row);
        if row.state == ImageReady {
          var next := row.(developer := row.developer || developer, ssh := row.ssh || ssh);
          RowReplaced(names, t, c.revision, next);
          LinksKept(t, c.revision, next);
        } else if row.workspace in t.workspaces {
          PublishKeeps(names, t, c.revision, c.attempt, image, developer, ssh, job);
        }
      }
    }
  }

  lemma CreateKeeps(names: Names, t: Tables, workspace: Id, id: Id, origin: Origin, created: Time)
    requires Invariant(names, t)
    ensures Invariant(names, Create(t, workspace, id, origin, created))
  {
    if workspace !in t.workspaces && id !in t.revisions && origin != Snapshot {
      var v := t.(workspaces := t.workspaces[workspace := Workspace(None, None)]);
      WorkspaceAdded(names, t, workspace);
      RowAdded(names, v, id, NewRow(workspace, 1, origin, None, created));
      UnlinkedAdded(v, id, NewRow(workspace, 1, origin, None, created));
    }
  }

  lemma WorkspaceAdded(names: Names, t: Tables, workspace: Id)
    requires Invariant(names, t) && workspace !in t.workspaces
    ensures Invariant(names, t.(workspaces := t.workspaces[workspace := Workspace(None, None)]))
  {
  }

  lemma UnlinkedAdded(t: Tables, id: Id, row: Revision)
    requires LinksFine(t) && id !in t.revisions && row.origin != Snapshot && row.save.None?
    ensures LinksFine(t.(revisions := t.revisions[id := row]))
  {
  }

  lemma RequestSaveLinks(t: Tables, s: Id, workspace: Id, training: bool)
    requires LinksFine(t) && s !in t.saves && workspace in t.workspaces
    ensures LinksFine(RequestSave(t, s, workspace, training))
  {
    var u := RequestSave(t, s, workspace, training);
    forall k | k in t.submissions ensures k in t.saves {
      assert SubmissionBound(t.submissions[k], k, t.saves, t.jobs);
    }
    forall k | k in u.revisions ensures SnapshotLinked(u.revisions[k], k, u.saves) {
      assert SnapshotLinked(t.revisions[k], k, t.saves);
    }
    forall k | k in u.saves ensures SaveLinked(u.revisions, k, u.saves[k]) {
      assert k != s ==> SaveLinked(t.revisions, k, t.saves[k]);
    }
    forall k | k in u.submissions ensures SubmissionBound(u.submissions[k], k, u.saves, u.jobs) {
      assert k != s ==> SubmissionBound(t.submissions[k], k, t.saves, t.jobs);
    }
    forall j | j in u.jobs ensures JobBound(u.jobs[j], j, u.revisions, u.submissions) {
      assert JobBound(t.jobs[j], j, t.revisions, t.submissions);
    }
  }

  lemma RequestSaveKeeps(names: Names, t: Tables, s: Id, workspace: Id, training: bool)
    requires Invariant(names, t)
    ensures Invariant(names, RequestSave(t, s, workspace, training))
  {
    if s !in t.saves && workspace in t.workspaces {
      RequestSaveLinks(t, s, workspace, training);
    }
  }

  /** A save without a revision yet has no job either, and no row names it. */
  lemma BeforePublicationFree(t: Tables, s: Id)
    requires LinksFine(t) && s in t.saves && BeforePublication(t.saves[s].state)
    ensures t.saves[s].target.None?
    ensures s in t.submissions ==> t.submissions[s].job.None?
    ensures forall k :: k in t.revisions && t.revisions[k].origin == Snapshot ==> t.revisions[k].save != Some(s)
  {
    assert SaveLinked(t.revisions, s, t.saves[s]);
    assert t.saves[s].target.Some? ==>
           SnapshotLinked(t.revisions[t.saves[s].target.value], t.saves[s].target.value, t.saves);
    assert s in t.submissions ==> SubmissionBound(t.submissions[s], s, t.saves, t.jobs);
    forall k | k in t.revisions && t.revisions[k].origin == Snapshot ensures t.revisions[k].save != Some(s) {
      assert SnapshotLinked(t.revisions[k], k, t.saves);
    }
  }

  lemma MoveSaveLinks(t: Tables, s: Id, state: SaveState)
    requires LinksFine(t)
    ensures LinksFine(MoveSave(t, s, state))
  {
    if s in t.saves && BeforePublication(t.saves[s].state) && (BeforePublication(state) || state == SaveFailed) {
      var u := MoveSave(t, s, state);
      BeforePublicationFree(t, s);
      forall k | k in u.revisions ensures SnapshotLinked(u.revisions[k], k, u.saves) {
        assert SnapshotLinked(t.revisions[k], k, t.saves);
      }
      forall k | k in u.submissions ensures SubmissionBound(u.submissions[k], k, u.saves, u.jobs) {
        assert SubmissionBound(t.submissions[k], k, t.saves, t.jobs);
      }
      forall j | j in u.jobs ensures JobBound(u.jobs[j], j, u.revisions, u.submissions) {
        assert JobBound(t.jobs[j], j, t.revisions, t.submissions);
      }
    }
  }

  lemma MoveSaveKeeps(names: Names, t: Tables, s: Id, state: SaveState)
    requires Invariant(names, t)
    ensures Invariant(names, MoveSave(t, s, state))
  {
    MoveSaveLinks(t, s, state);
  }

  lemma QueueSnapshotKeeps(names: Names, t: Tables, s: Id, id: Id, number: nat, created: Time)
    requires Invariant(names, t)
    ensures Invariant(names, QueueSnapshot(t, s, id, number, created))
  {
    var u := QueueSnapshot(t, s, id, number, created);
    if u != t {
      RowAdded(names, t, id, u.revisions[id]);
      SnapshotAdded(t, s, id, u.revisions[id]);
    }
  }

  /** A queued snapshot and its save refer to each other. */
  lemma SnapshotAdded(t: Tables, s: Id, id: Id, row: Revision)
    requires LinksFine(t) && s in t.saves && BeforePublication(t.saves[s].state) && id !in t.revisions
    requires row.state == Queued && row.origin == Snapshot && row.save == Some(s) && row.workspace == t.saves[s].workspace
    ensures LinksFine(t.(saves := t.saves[s := t.saves[s].(state := PublishQueued, target := Some(id))],
                         revisions := t.revisions[id := row]))
  {
    var u := t.(saves := t.saves[s := t.saves[s].(state := PublishQueued, target := Some(id))],
                revisions := t.revisions[id := row]);
    BeforePublicationFree(t, s);
    forall k | k in u.revisions ensures SnapshotLinked(u.revisions[k], k, u.saves) {
      assert k != id ==> SnapshotLinked(t.revisions[k], k, t.saves);
    }
    forall k | k in u.submissions ensures SubmissionBound(u.submissions[k], k, u.saves, u.jobs) {
      assert SubmissionBound(t.submissions[k], k, t.saves, t.jobs);
    }
    forall j | j in u.jobs ensures JobBound(u.jobs[j], j, u.revisions, u.submissions) {
      assert JobBound(t.jobs[j], j, t.revisions, t.submissions);
    }
  }

  lemma DoKeeps(names: Names, t: Tables, op: Op, now: Time)
    requires Invariant(names, t)
    ensures Invariant(names, Do(names, t, op, now))
  {
    match op
    case DoCreate(workspace, id, origin, created) => CreateKeeps(names, t, workspace, id, origin, created);
    case DoRequestSave(s, workspace, training) => RequestSaveKeeps(names, t, s, workspace, training);
    case DoMoveSave(s, state) => MoveSaveKeeps(names, t, s, state);
    case DoQueueSnapshot(s, id, number, created) => QueueSnapshotKeeps(names, t, s, id, number, created);
    case DoCancel(workspace, id) => CancelKeeps(names, t, workspace, id);
    case DoExpire(id) => ExpireKeeps(names, t, id, now);
    case DoClaim(id, builder, attempt, locked) => ClaimKeeps(names, t, id, builder, attempt, locked, now);
    case DoFailure(c, kind) => FailureKeeps(names, t, c, kind, now);
    case DoBeat(c) => BeatKeeps(names, t, c, now);
    case DoReady(c, image, developer, ssh, job) => MarkReadyKeeps(names, t, c, image, developer, ssh, job, now);
  }
}
