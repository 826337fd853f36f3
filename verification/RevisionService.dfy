/** The revision machine as the Scheduler runs it: rows updated in place, found by scanning. */
module RevisionService {
  import opened Common
  import R = Revisions

  lemma {:induction false} ExecSnoc(names: R.Names, t: R.Tables, run: seq<R.Event>, e: R.Event)
    ensures R.Exec(names, t, run + [e]) == R.Do(names, R.Exec(names, t, run), e.op, e.at)
    decreases |run|
  {
    if run == [] {
      assert run + [e] == [e] && [e][1..] == [];
    } else {
      assert (run + [e])[0] == run[0] && (run + [e])[1..] == run[1..] + [e];
      ExecSnoc(names, R.Do(names, t, run[0].op, run[0].at), run[1..], e);
    }
  }

  /** A build its builder reports as active. */
  datatype Active = Active(revision: R.Id, attempt: R.Id)

  function Beats(builder: R.Id, active: seq<Active>, now: R.Time): (r: seq<R.Event>)
  {
    seq(|active|, i requires 0 <= i < |active| =>
      R.Event(R.DoBeat(R.Callback(active[i].revision, builder, active[i].attempt)), now))
  }

  /** The reported builds that no longer stand, in the order reported. */
  function Refused(rows: R.Rows, builder: R.Id, active: seq<Active>, now: R.Time): (r: seq<Active>)
  {
    if active == [] then []
    else
      var last := active[|active| - 1];
      Refused(rows, builder, active[..|active| - 1], now)
        + if R.Fenced(rows, R.Callback(last.revision, builder, last.attempt), false, now) then [] else [last]
  }

  /** A row after `expire`: a lapsed build is queued again, or fails on its last attempt. */
  function Swept(row: R.Revision, now: R.Time): (r: R.Revision)
    ensures !R.Lapsed(r, now)
  {
    if R.Lapsed(row, now) then R.Returned(row, R.SystemFailure, row.attempts >= R.MAX_ATTEMPTS, now) else row
  }

  /** The rows in `todo` are as they were; the others have been swept. */
  ghost predicate SweptSofar(rows: R.Rows, was: R.Rows, todo: set<R.Id>, now: R.Time)
  {
    && (forall k :: k in todo ==> k in rows)
    && (forall k :: k in rows <==> k in was)
    && (forall k :: k in rows ==> rows[k] == if k in todo then was[k] else Swept(was[k], now))
  }

  lemma SweptMore(rows: R.Rows, was: R.Rows, todo: set<R.Id>, id: R.Id, now: R.Time)
    requires SweptSofar(rows, was, todo, now) && id in todo
    ensures SweptSofar(rows[id := Swept(rows[id], now)], was, todo - {id}, now)
  {
  }

  class Scheduler {
    const names: R.Names
    var revisions: R.Rows
    var workspaces: map<R.Id, R.Workspace>
    var saves: map<R.Id, R.Save>
    var submissions: map<R.Id, R.Submission>
    var jobs: map<R.Id, R.Job>
    ghost var issued: set<R.Id>

    ghost function View(): (r: R.Tables)
      reads this
    {
      R.Tables(revisions, workspaces, saves, submissions, jobs, issued)
    }

    constructor (names: R.Names)
      ensures this.names == names && View() == R.EMPTY
    {
      this.names := names;
      revisions, workspaces, saves, submissions, jobs, issued := map[], map[], map[], map[], map[], {};
    }

    method FailSave(row: R.Revision)
      modifies this`saves, this`submissions
      ensures View() == R.FailSave(old(View()), row)
    {
      if row.origin == R.Snapshot && row.save.Some? && row.save.value in saves {
        var s := row.save.value;
        saves := saves[s := saves[s].(state := R.SaveFailed)];
        if s in submissions {
          submissions := submissions[s := submissions[s].(state := R.SubmissionFailed)];
        }
      }
    }

    method ExpireRow(id: R.Id, now: R.Time)
      requires id in revisions
      modifies this`revisions, this`saves, this`submissions
      ensures View() == R.Expire(old(View()), id, now)
      ensures revisions == old(revisions)[id := Swept(old(revisions)[id], now)]
    {
      var row := revisions[id];
      if R.Lapsed(row, now) {
        var terminal := row.attempts >= R.MAX_ATTEMPTS;
        revisions := revisions[id := R.Returned(row, R.SystemFailure, terminal, now)];
        if terminal {
          FailSave(row);
        }
      } else {
        assert revisions == revisions[id := row];
      }
    }

    /** Every lapsed build is returned to the queue or failed, and no other row moves. */
    method Expire(now: R.Time) returns (ghost run: seq<R.Event>)
      modifies this`revisions, this`saves, this`submissions
      ensures View() == R.Exec(names, old(View()), run)
      ensures forall i :: 0 <= i < |run| ==> run[i].op.DoExpire? && run[i].at == now
      ensures forall k :: k in revisions <==> k in old(revisions)
      ensures forall k :: k in revisions ==>
                revisions[k] == Swept(old(revisions)[k], now)
    {
      run := [];
      var todo := revisions.Keys;
      while todo != {}
        invariant View() == R.Exec(names, old(View()), run)
        invariant forall i :: 0 <= i < |run| ==> run[i].op.DoExpire? && run[i].at == now
        invariant SweptSofar(revisions, old(revisions), todo, now)
        decreases |todo|
      {
        Inhabited(todo);
        var id :| id in todo;
        ghost var e := R.Event(R.DoExpire(id), now);
        ExecSnoc(names, old(View()), run, e);
        SweptMore(revisions, old(revisions), todo, id, now);
        ExpireRow(id, now);
        run := run + [e];
        todo := todo - {id};
      }
    }

    method FindNext(builder: R.Id, locked: set<R.Id>, now: R.Time) returns (found: Option<R.Id>)
      ensures found.Some? ==> R.IsNext(revisions, locked, found.value, builder, now)
      ensures found.None? ==> forall k :: k in revisions && k !in locked ==> !R.Eligible(revisions[k], builder, now)
    {
      found := None;
      var todo := revisions.Keys;
      while todo != {}
        invariant forall k :: k in todo ==> k in revisions
        invariant found.Some? ==>
                    && found.value in revisions && found.value !in locked && R.Eligible(revisions[found.value], builder, now)
        invariant forall k :: k in revisions && k !in todo && k !in locked && R.Eligible(revisions[k], builder, now) ==>
                    && found.Some?
                    && (revisions[found.value].created < revisions[k].created
                        || (revisions[found.value].created == revisions[k].created && found.value <= k))
        decreases |todo|
      {
        Inhabited(todo);
        var k :| k in todo;
        if k !in locked && R.Eligible(revisions[k], builder, now)
           && (found.None? || revisions[k].created < revisions[found.value].created
               || (revisions[k].created == revisions[found.value].created && k < found.value)) {
          found := Some(k);
        }
        todo := todo - {k};
      }
    }

    /** The oldest eligible build, after lapsed ones are dealt with; none only when
        none is eligible. */
    method Claim(builder: R.Id, attempt: R.Id, locked: set<R.Id>, expiredAt: R.Time, now: R.Time)
      returns (claimed: Option<R.Id>, ghost run: seq<R.Event>)
      requires attempt !in issued
      modifies this
      ensures View() == R.Exec(names, old(View()), run)
      ensures claimed.Some? ==>
                && run != [] && run[|run| - 1] == R.Event(R.DoClaim(claimed.value, builder, attempt, locked), now)
                && R.IsNext(R.Exec(names, old(View()), run[..|run| - 1]).revisions, locked, claimed.value, builder, now)
      ensures claimed.None? ==> forall k :: k in revisions && k !in locked ==> !R.Eligible(revisions[k], builder, now)
    {
      run := Expire(expiredAt);
      claimed := FindNext(builder, locked, now);
      if claimed.Some? {
        ghost var e := R.Event(R.DoClaim(claimed.value, builder, attempt, locked), now);
        ExecSnoc(names, old(View()), run, e);
        assert (run + [e])[..|run|] == run;
        run := run + [e];
        revisions := revisions[claimed.value := R.Claimed(revisions[claimed.value], builder, attempt, now)];
        issued := issued + {attempt};
      }
    }

    method Fence(c: R.Callback, allowReady: bool, now: R.Time) returns (ok: bool)
      ensures ok == R.Fenced(revisions, c, allowReady, now)
    {
      if c.revision !in revisions {
        return false;
      }
      var row := revisions[c.revision];
      if row.builder != Some(c.builder) || row.attempt != Some(c.attempt) {
        return false;
      }
      if row.state == R.Building {
        return !R.Lapsed(row, now);
      }
      return allowReady && row.state == R.ImageReady;
    }

    method Failure(c: R.Callback, kind: R.FailureKind, now: R.Time) returns (r: Outcome<bool>)
      modifies this
      ensures R.Reply(View(), r) == R.Failure(old(View()), c, kind, now)
    {
      var ok := Fence(c, false, now);
      if !ok {
        return Raised(409);
      }
      var row := revisions[c.revision];
      var terminal := kind == R.UserFailure || row.attempts >= R.MAX_ATTEMPTS;
      revisions := revisions[c.revision := R.Returned(row, kind, terminal, now)];
      if terminal {
        FailSave(row);
      }
      r := Ok(terminal);
    }

    method FindLatest(workspace: R.Id) returns (found: Option<R.Id>)
      ensures found.Some? ==> R.IsLatest(revisions, workspace, found.value)
      ensures found.None? ==> forall k :: k in revisions ==> revisions[k].workspace != workspace
    {
      found := None;
      var todo := revisions.Keys;
      while todo != {}
        invariant forall k :: k in todo ==> k in revisions
        invariant found.Some? ==> found.value in revisions && revisions[found.value].workspace == workspace
        invariant forall k :: k in revisions && k !in todo && revisions[k].workspace == workspace ==>
                    found.Some? && revisions[k].number <= revisions[found.value].number
        decreases |todo|
      {
        Inhabited(todo);
        var k :| k in todo;
        if revisions[k].workspace == workspace && (found.None? || revisions[found.value].number < revisions[k].number) {
          found := Some(k);
        }
        todo := todo - {k};
      }
    }

    method Cancel(workspace: R.Id) returns (r: Outcome<bool>, ghost id: R.Id)
      modifies this
      ensures R.Reply(View(), r) == R.Cancel(old(View()), workspace, id)
      ensures r == Raised(500) ==> forall k :: k in revisions ==> revisions[k].workspace != workspace
    {
      id := 0;
      if workspace !in workspaces {
        return Raised(404), id;
      }
      var found := FindLatest(workspace);
      if found.None? {
        return Raised(500), id;
      }
      id := found.value;
      var row := revisions[found.value];
      if row.state == R.Queued || row.state == R.Building {
        revisions := revisions[found.value := row.(state := R.Cancelled, lease := None)];
        FailSave(row);
        return Ok(true), id;
      }
      r := if row.state == R.Cancelled then Ok(false) else Raised(409);
    }

    /** The leases of standing builds are extended; the others are to be cancelled. */
    method Heartbeat(builder: R.Id, active: seq<Active>, now: R.Time) returns (refused: seq<Active>)
      modifies this
      ensures View() == R.Exec(names, old(View()), Beats(builder, active, now))
      ensures refused == Refused(old(revisions), builder, active, now)
    {
      refused := [];
      var i := 0;
      while i < |active|
        invariant 0 <= i <= |active|
        invariant View() == R.Exec(names, old(View()), Beats(builder, active[..i], now))
        invariant refused == Refused(old(revisions), builder, active[..i], now)
        invariant forall c, ready :: R.Fenced(revisions, c, ready, now) == R.Fenced(old(revisions), c, ready, now)
      {
        var c := R.Callback(active[i].revision, builder, active[i].attempt);
        ghost var e := R.Event(R.DoBeat(c), now);
        ExecSnoc(names, old(View()), Beats(builder, active[..i], now), e);
        assert Beats(builder, active[..i + 1], now) == Beats(builder, active[..i], now) + [e];
        assert active[..i + 1][..i] == active[..i];
        var ok := Fence(c, false, now);
        if ok {
          revisions := revisions[c.revision := revisions[c.revision].(lease := Some(now + R.LEASE))];
        } else {
          refused := refused + [active[i]];
        }
        i := i + 1;
      }
      assert active[..|active|] == active;
    }

    /** The publication of a building revision; a snapshot without its save rolls back. */
    method Publish(id: R.Id, image: R.Image, developer: bool, ssh: bool, job: R.Id) returns (r: Outcome<bool>)
      requires id in revisions && revisions[id].workspace in workspaces
      modifies this
      ensures R.Reply(View(), r) == R.Publish(old(View()), id, image, developer, ssh, job)
    {
      var row, w := revisions[id], workspaces[revisions[id].workspace];
      var revisionsBefore, workspacesBefore := revisions, workspaces;
      revisions := revisions[id := R.Published(row, image, developer, ssh)];
      workspaces := workspaces[row.workspace :=
        R.Workspace(Some(id), if w.saved.None? || row.origin == R.Snapshot then Some(id) else w.saved)];
      if row.origin == R.Snapshot {
        var found := row.save.Some? && row.save.value in saves && saves[row.save.value].target == Some(id);
        if !found || job in jobs {
          revisions, workspaces := revisionsBefore, workspacesBefore;
          return Raised(if found then 500 else 409);
        }
        var s := row.save.value;
        saves := saves[s := saves[s].(state := R.Succeeded)];
        if s in submissions && submissions[s].job.None? {
          jobs := jobs[job := R.Job(s, id, image.digestRef)];
          submissions := submissions[s := R.Submission(R.JobCreated, Some(job))];
        }
      }
      r := Ok(true);
    }

    method MarkReady(c: R.Callback, image: R.Image, developer: bool, ssh: bool, job: R.Id, now: R.Time)
      returns (r: Outcome<bool>)
      modifies this
      ensures R.Reply(View(), r) == R.MarkReady(names, old(View()), c, image, developer, ssh, job, now)
    {
      var ok := Fence(c, true, now);
      if !ok {
        return Raised(409);
      }
      var row := revisions[c.revision];
      if !R.ImageMatches(names, row.workspace, c.revision, c.attempt, image) {
        return Raised(422);
      }
      if row.state == R.ImageReady {
        if row.image != Some(image) {
          return Raised(409);
        }
        if !row.developer && developer {
          revisions := revisions[c.revision := revisions[c.revision].(developer := true)];
        }
        if !row.ssh && ssh {
          revisions := revisions[c.revision := revisions[c.revision].(ssh := true)];
        }
        return Ok(false);
      }
      if row.workspace !in workspaces {
        return Raised(500);
      }
      r := Publish(c.revision, image, developer, ssh, job);
    }
  }
}
