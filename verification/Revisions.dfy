/**
 The Scheduler's image-revision machine: builders claim queued revisions under a
 lease, call back under a fenced attempt, and a published snapshot settles its save
 operation, its workspace's saved head and its training job in one transaction.
 */
module Revisions {
  import opened Common

  type Id = int
  type Time = int  // microseconds

  const LEASE: Time := 45_000_000
  const MAX_ATTEMPTS := 3

  datatype Origin = Upload | ExistingJob | Snapshot
  datatype RevisionState = Queued | Building | ImageReady | Failed | Cancelled
  datatype FailureKind = UserFailure | SystemFailure
  datatype Image = Image(tag: string, digestRef: string, baseDigest: string)

  datatype Revision = Revision(
    workspace: Id, number: nat, origin: Origin, save: Option<Id>, created: Time,
    state: RevisionState, attempts: nat, builder: Option<Id>, attempt: Option<Id>, lease: Option<Time>,
    failure: Option<FailureKind>, reason: Option<FailureKind>,
    excluded: Option<Id>, excludedUntil: Option<Time>,
    image: Option<Image>, developer: bool, ssh: bool)

  datatype Workspace = Workspace(current: Option<Id>, saved: Option<Id>)

  datatype SaveState = Requested | Capturing | Uploading | PublishQueued | Succeeded | SaveFailed
  datatype Save = Save(workspace: Id, target: Option<Id>, state: SaveState)

  datatype SubmissionState = Saving | JobCreated | SubmissionFailed
  datatype Submission = Submission(state: SubmissionState, job: Option<Id>)

  /** A training job made from a published revision, for the submission on `save`. */
  datatype Job = Job(save: Id, revision: Id, image: string)

  type Rows = map<Id, Revision>

  /** The tables.  A save operation has at most one submission, so submissions are
      keyed by it.  `issued` is every attempt identifier ever minted. */
  datatype Tables = Tables(
    revisions: Rows, workspaces: map<Id, Workspace>, saves: map<Id, Save>,
    submissions: map<Id, Submission>, jobs: map<Id, Job>, issued: set<Id>)

  const EMPTY := Tables(map[], map[], map[], map[], map[], {})

  /** How identifiers are spelled in image references. */
  type Names = Id -> string

  // ------------------------------------------------------------------- image references

  predicate EndsWith(s: string, suffix: string)
  {
    |suffix| <= |s| && s[|s| - |suffix|..] == suffix
  }

  /** The part before the last `c`; the whole string when there is none. */
  function BeforeLast(s: string, c: char): (r: string)
    ensures if c in s then |r| < |s| && r == s[..|r|] && s[|r|] == c && c !in s[|r| + 1..] else r == s
  {
    if s == [] then s
    else if s[|s| - 1] == c then s[..|s| - 1]
    else if c in s[..|s| - 1] then BeforeLast(s[..|s| - 1], c)
    else s
  }

  /** The part before the first `c`; the whole string when there is none. */
  function BeforeFirst(s: string, c: char): (r: string)
    ensures r <= s && c !in r && (|r| < |s| ==> s[|r|] == c)
  {
    if s == [] || s[0] == c then [] else [s[0]] + BeforeFirst(s[1..], c)
  }

  /** The tag and the digest lie in the workspace's repository, and the tag spells
      the revision and the attempt. */
  predicate ImageMatches(names: Names, workspace: Id, id: Id, attempt: Id, image: Image)
  {
    var repository := BeforeLast(image.tag, ':');
    && EndsWith(repository, "/interactive-" + names(workspace))
    && EndsWith(image.tag, ":revision-" + names(id) + "-attempt-" + names(attempt))
    && BeforeFirst(image.digestRef, '@') == repository
  }

  // ------------------------------------------------------------------- rows

  predicate Lapsed(row: Revision, now: Time)
  {
    row.state == Building && row.lease.Some? && row.lease.value <= now
  }

  /** Back in the queue, or out of attempts; the builder sits out one lease. */
  function Returned(row: Revision, kind: FailureKind, terminal: bool, now: Time): (r: Revision)
  {
    row.(state := if terminal then Failed else Queued,
         failure := Some(kind), reason := if terminal then Some(kind) else None,
         excluded := row.builder, excludedUntil := Some(now + LEASE),
         builder := None, attempt := None, lease := None)
  }

  predicate Eligible(row: Revision, builder: Id, now: Time)
  {
    && row.state == Queued
    && (row.excludedUntil.None? || row.excludedUntil.value <= now || (row.excluded.Some? && row.excluded.value != builder))
  }

  /** The oldest eligible row not locked by another transaction. */
  predicate IsNext(rows: Rows, locked: set<Id>, id: Id, builder: Id, now: Time)
  {
    && id in rows && id !in locked && Eligible(rows[id], builder, now)
    && forall k :: k in rows && k !in locked && Eligible(rows[k], builder, now) ==>
         rows[id].created < rows[k].created || (rows[id].created == rows[k].created && id <= k)
  }

  function Claimed(row: Revision, builder: Id, attempt: Id, now: Time): (r: Revision)
  {
    row.(state := Building, builder := Some(builder), attempt := Some(attempt), lease := Some(now + LEASE),
         attempts := row.attempts + 1, failure := None, reason := None)
  }

  function Published(row: Revision, image: Image, developer: bool, ssh: bool): (r: Revision)
  {
    row.(state := ImageReady, image := Some(image), developer := developer, ssh := ssh, lease := None)
  }

  // ------------------------------------------------------------------- operations

  datatype Reply<+T> = Reply(tables: Tables, outcome: Outcome<T>)

  /** A builder's callback names its revision, itself and its attempt. */
  datatype Callback = Callback(revision: Id, builder: Id, attempt: Id)

  predicate Matches(rows: Rows, c: Callback)
  {
    && c.revision in rows
    && rows[c.revision].builder == Some(c.builder) && rows[c.revision].attempt == Some(c.attempt)
  }

  /** `fence`: does this callback still speak for its revision? */
  predicate Fenced(rows: Rows, c: Callback, allowReady: bool, now: Time)
  {
    && Matches(rows, c)
    && ((rows[c.revision].state == Building && !Lapsed(rows[c.revision], now))
        || (allowReady && rows[c.revision].state == ImageReady))
  }

  /** `_fail_snapshot`: the save operation and its submission fail with the revision. */
  function FailSave(t: Tables, row: Revision): (r: Tables)
    ensures r.revisions == t.revisions && r.workspaces == t.workspaces && r.jobs == t.jobs && r.issued == t.issued
  {
    if row.origin != Snapshot || row.save.None? || row.save.value !in t.saves then t
    else
      var s := row.save.value;
      t.(saves := t.saves[s := t.saves[s].(state := SaveFailed)],
         submissions := if s in t.submissions
                        then t.submissions[s := t.submissions[s].(state := SubmissionFailed)] else t.submissions)
  }

  /** One lapsed row of `expire`. */
  function Expire(t: Tables, id: Id, now: Time): (r: Tables)
  {
    if id !in t.revisions || !Lapsed(t.revisions[id], now) then t
    else
      var row := t.revisions[id];
      var terminal := row.attempts >= MAX_ATTEMPTS;
      var u := t.(revisions := t.revisions[id := Returned(row, SystemFailure, terminal, now)]);
      if terminal then FailSave(u, row) else u
  }

  /** `claim`, once `expire` has run: only ever the next row, under a fresh attempt. */
  function Claim(t: Tables, id: Id, builder: Id, attempt: Id, locked: set<Id>, now: Time): (r: Tables)
  {
    if attempt in t.issued || !IsNext(t.revisions, locked, id, builder, now) then t
    else t.(revisions := t.revisions[id := Claimed(t.revisions[id], builder, attempt, now)], issued := t.issued + {attempt})
  }

  predicate IsLatest(rows: Rows, workspace: Id, id: Id)
  {
    && id in rows && rows[id].workspace == workspace
    && forall k :: k in rows && rows[k].workspace == workspace ==> rows[k].number <= rows[id].number
  }

  /** `cancel` of the workspace's latest revision `id`. */
  function Cancel(t: Tables, workspace: Id, id: Id): (r: Reply<bool>)
  {
    if workspace !in t.workspaces then Reply(t, Raised(404))
    else if !IsLatest(t.revisions, workspace, id) then Reply(t, Raised(500))
    else
      var row := t.revisions[id];
      if row.state == Queued || row.state == Building then
        Reply(FailSave(t.(revisions := t.revisions[id := row.(state := Cancelled, lease := None)]), row), Ok(true))
      else if row.state == Cancelled then Reply(t, Ok(false))
      else Reply(t, Raised(409))
  }

  function Failure(t: Tables, c: Callback, kind: FailureKind, now: Time): (r: Reply<bool>)
  {
    if !Fenced(t.revisions, c, false, now) then Reply(t, Raised(409))
    else
      var row := t.revisions[c.revision];
      var terminal := kind == UserFailure || row.attempts >= MAX_ATTEMPTS;
      var u := t.(revisions := t.revisions[c.revision := Returned(row, kind, terminal, now)]);
      Reply(if terminal then FailSave(u, row) else u, Ok(terminal))
  }

  /** One active build of a heartbeat: its lease is extended, or it is told to stop. */
  function Beat(t: Tables, c: Callback, now: Time): (r: Tables)
  {
    if !Fenced(t.revisions, c, false, now) then t
    else t.(revisions := t.revisions[c.revision := t.revisions[c.revision].(lease := Some(now + LEASE))])
  }

  /** Publication of a snapshot settles its save and makes the training job, once. */
  function SettleSave(t: Tables, s: Id, id: Id, image: Image, job: Id): (r: Tables)
    requires s in t.saves
  {
    var u := t.(saves := t.saves[s := t.saves[s].(state := Succeeded)]);
    if s !in t.submissions || t.submissions[s].job.Some? then u
    else u.(submissions := t.submissions[s := Submission(JobCreated, Some(job))],
            jobs := t.jobs[job := Job(s, id, image.digestRef)])
  }

  predicate SaveFound(t: Tables, row: Revision, id: Id)
  {
    row.save.Some? && row.save.value in t.saves && t.saves[row.save.value].target == Some(id)
  }

  /** A fenced callback with an acceptable image on a revision still building. */
  function Publish(t: Tables, id: Id, image: Image, developer: bool, ssh: bool, job: Id): (r: Reply<bool>)
    requires id in t.revisions && t.revisions[id].workspace in t.workspaces
    ensures r.tables.revisions == if r.outcome.Ok? then t.revisions[id := Published(t.revisions[id], image, developer, ssh)]
                                  else t.revisions
  {
    var row := t.revisions[id];
    var w := t.workspaces[row.workspace];
    var u := t.(revisions := t.revisions[id := Published(row, image, developer, ssh)],
                workspaces := t.workspaces[row.workspace :=
                  Workspace(Some(id), if w.saved.None? || row.origin == Snapshot then Some(id) else w.saved)]);
    if row.origin != Snapshot then Reply(u, Ok(true))
    else if !SaveFound(t, row, id) then Reply(t, Raised(409))
    else if job in t.jobs then Reply(t, Raised(500))
    else Reply(SettleSave(u, row.save.value, id, image, job), Ok(true))
  }

  /** `mark_ready`.  A redelivery may only record a profile that was absent. */
  function MarkReady(
    names: Names, t: Tables, c: Callback, image: Image, developer: bool, ssh: bool, job: Id, now: Time): (r: Reply<bool>)
  {
    if !Fenced(t.revisions, c, true, now) then Reply(t, Raised(409))
    else
      var row := t.revisions[c.revision];
      if !ImageMatches(names, row.workspace, c.revision, c.attempt, image) then Reply(t, Raised(422))
      else if row.state == ImageReady then
        if row.image != Some(image) then Reply(t, Raised(409))
        else Reply(t.(revisions := t.revisions[c.revision :=
                     row.(developer := row.developer || developer, ssh := row.ssh || ssh)]), Ok(false))
      else if row.workspace !in t.workspaces then Reply(t, Raised(500))
      else Publish(t, c.revision, image, developer, ssh, job)
  }

  // ------------------------------------------------------------------- the rest of the Scheduler

  /** A new workspace with its first revision. */
  function Create(t: Tables, workspace: Id, id: Id, origin: Origin, created: Time): (r: Tables)
  {
    if workspace in t.workspaces || id in t.revisions || origin == Snapshot then t
    else t.(workspaces := t.workspaces[workspace := Workspace(None, None)],
            revisions := t.revisions[id := NewRow(workspace, 1, origin, None, created)])
  }

  function NewRow(workspace: Id, number: nat, origin: Origin, save: Option<Id>, created: Time): (r: Revision)
  {
    Revision(workspace, number, origin, save, created, Queued, 0, None, None, None, None, None, None, None, None, false, false)
  }

  /** A save operation, with a training submission or without. */
  function RequestSave(t: Tables, s: Id, workspace: Id, training: bool): (r: Tables)
  {
    if s in t.saves || workspace !in t.workspaces then t
    else t.(saves := t.saves[s := Save(workspace, None, Requested)],
            submissions := if training then t.submissions[s := Submission(Saving, None)] else t.submissions)
  }

  predicate BeforePublication(state: SaveState)
  {
    state == Requested || state == Capturing || state == Uploading
  }

  /** Capture and upload advance, or end, a save that has no revision yet. */
  function MoveSave(t: Tables, s: Id, state: SaveState): (r: Tables)
  {
    if s !in t.saves || !BeforePublication(t.saves[s].state) || !(BeforePublication(state) || state == SaveFailed) then t
    else t.(saves := t.saves[s := t.saves[s].(state := state)],
            submissions := if state == SaveFailed && s in t.submissions
                           then t.submissions[s := t.submissions[s].(state := SubmissionFailed)] else t.submissions)
  }

  /** A finished upload queues the snapshot's one revision, numbered above the others. */
  function QueueSnapshot(t: Tables, s: Id, id: Id, number: nat, created: Time): (r: Tables)
  {
    if s !in t.saves || id in t.revisions || (t.saves[s].state != Capturing && t.saves[s].state != Uploading)
       || exists k :: k in t.revisions && t.revisions[k].workspace == t.saves[s].workspace && number <= t.revisions[k].number
    then t
    else t.(saves := t.saves[s := t.saves[s].(state := PublishQueued, target := Some(id))],
            revisions := t.revisions[id := NewRow(t.saves[s].workspace, number, Snapshot, Some(s), created)])
  }

  // ------------------------------------------------------------------- runs

  datatype Op =
    | DoCreate(workspace: Id, id: Id, origin: Origin, created: Time)
    | DoRequestSave(s: Id, workspace: Id, training: bool)
    | DoMoveSave(s: Id, state: SaveState)
    | DoQueueSnapshot(s: Id, id: Id, number: nat, created: Time)
    | DoCancel(workspace: Id, id: Id)
    | DoExpire(id: Id)
    | DoClaim(id: Id, builder: Id, attempt: Id, locked: set<Id>)
    | DoFailure(c: Callback, kind: FailureKind)
    | DoBeat(c: Callback)
    | DoReady(c: Callback, image: Image, developer: bool, ssh: bool, job: Id)

  datatype Event = Event(op: Op, at: Time)

  function Do(names: Names, t: Tables, op: Op, now: Time): (r: Tables)
  {
    match op
    case DoCreate(workspace, id, origin, created) => Create(t, workspace, id, origin, created)
    case DoRequestSave(s, workspace, training) => RequestSave(t, s, workspace, training)
    case DoMoveSave(s, state) => MoveSave(t, s, state)
    case DoQueueSnapshot(s, id, number, created) => QueueSnapshot(t, s, id, number, created)
    case DoCancel(workspace, id) => Cancel(t, workspace, id).tables
    case DoExpire(id) => Expire(t, id, now)
    case DoClaim(id, builder, attempt, locked) => Claim(t, id, builder, attempt, locked, now)
    case DoFailure(c, kind) => Failure(t, c, kind, now).tables
    case DoBeat(c) => Beat(t, c, now)
    case DoReady(c, image, developer, ssh, job) => MarkReady(names, t, c, image, developer, ssh, job, now).tables
  }

  function Exec(names: Names, t: Tables, run: seq<Event>): (r: Tables)
    decreases |run|
  {
    if run == [] then t else Exec(names, Do(names, t, run[0].op, run[0].at), run[1..])
  }

  /** The clock never goes back. */
  predicate Timed(clock: Time, run: seq<Event>)
    decreases |run|
  {
    run == [] || (clock <= run[0].at && Timed(run[0].at, run[1..]))
  }

  function Latest(clock: Time, run: seq<Event>): (r: Time)
  {
    if run == [] then clock else run[|run| - 1].at
  }
}
