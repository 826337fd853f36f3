/**
 The Worker's assignment coordinator: one journal of assignments that survives a
 crash, and the leases, mode and claim of the running process, which do not.
 */
module Coordinator {
  import opened Common

  type Id = int
  type Time = real

  datatype Kind = InteractiveAccess | VramEstimation | BatchTraining

  datatype Mode =
    | Reconciling | Available | BatchActive | InteractiveReserved | InteractiveActive | Cleaning | Uncertain

  /** A journal row; `jobId` is the job its payload names. */
  datatype Record = Record(kind: Kind, jobId: Id, clean: bool, released: bool, uncertain: bool)

  datatype Request = Request(instance: Id, id: Id)

  type Journal = map<Id, Record>

  /** `journal`, `claim` and `accepting` are durable; the rest is the process. */
  datatype State = State(
    journal: Journal, claim: Option<Request>, accepting: bool,
    instance: Id, mode: Mode, paused: bool, draining: bool, pending: bool,
    deadlines: map<Id, Time>, sequences: map<Id, int>)

  predicate Blocking(mode: Mode)
  {
    mode == Reconciling || mode == InteractiveReserved || mode == InteractiveActive || mode == Cleaning || mode == Uncertain
  }

  predicate Exclusive(kind: Kind)
  {
    kind == InteractiveAccess || kind == VramEstimation
  }

  /** A process that has just started over this durable state. */
  function Started(journal: Journal, claim: Option<Request>, accepting: bool, instance: Id): (r: State)
  {
    State(journal, claim, accepting, instance, Reconciling, false, false, false, map[], map[])
  }

  // ------------------------------------------------------------------- questions

  predicate EstimationActive(journal: Journal)
  {
    exists k :: k in journal && !journal[k].released && journal[k].kind == VramEstimation
  }

  predicate OthersActive(journal: Journal, except: Id, jobId: Id)
  {
    exists k :: k in journal && !journal[k].released && k != except && journal[k].jobId != jobId
  }

  predicate CanStart(journal: Journal, kind: Kind, id: Id, jobId: Id)
  {
    if kind == VramEstimation then !OthersActive(journal, id, jobId) else !EstimationActive(journal)
  }

  predicate MayRequestWork(st: State)
  {
    !st.paused && !st.draining && st.accepting && !Blocking(st.mode) && !st.pending && !EstimationActive(st.journal)
  }

  /** May this process act on the assignment at clock reading `now`? */
  predicate Authoritative(st: State, id: Id, now: Time)
  {
    && id in st.journal && !st.journal[id].clean && !st.journal[id].uncertain && !st.draining
    && id in st.deadlines && now < st.deadlines[id]
  }

  // ------------------------------------------------------------------- operations

  /** An assignment as the Scheduler's answer carries it. */
  datatype Assignment = Assignment(id: Id, kind: Kind, jobId: Id, leaseSeconds: Time)

  /** `begin_claim`: reuse the durable request, or mint one. */
  function BeginClaim(st: State, minted: Id): (r: (State, Option<Request>))
  {
    if !MayRequestWork(st) then (st, None)
    else
      var request := if st.claim.Some? then st.claim.value else Request(st.instance, minted);
      if request.instance != st.instance then (st.(mode := Uncertain), None)
      else (st.(pending := true, claim := Some(request)), Some(request))
  }

  /** Work that contradicts what the journal already holds. */
  predicate Conflict(st: State, kind: Kind)
  {
    || !st.accepting
    || (exists k :: k in st.journal && !st.journal[k].released
                    && (Exclusive(kind) || Exclusive(st.journal[k].kind)))
  }

  function Accepted(st: State, a: Assignment, sentAt: Time): (r: State)
  {
    st.(pending := false,
        journal := st.journal[a.id := Record(a.kind, a.jobId, false, false, Conflict(st, a.kind))],
        deadlines := st.deadlines[a.id := sentAt + a.leaseSeconds - 5.0])
  }

  /** `accept`.  The boot identifier is read after the assignment is journalled;
      when that read fails the call raises, the claim stays and the mode is not
      touched. */
  function Accept(st: State, answer: Option<Assignment>, sentAt: Time, bootIdReadable: bool, now: Time): (r: State)
  {
    match answer
    case None => st.(pending := false, claim := None)
    case Some(a) =>
      var u := Accepted(st, a, sentAt);
      if !bootIdReadable then u
      else
        u.(claim := None,
           mode := if Conflict(st, a.kind) || u.deadlines[a.id] <= now then Uncertain
                   else if a.kind == InteractiveAccess then InteractiveReserved else BatchActive)
  }

  function ClaimFailed(st: State): (r: State)
  {
    st.(pending := false)
  }

  function LastSequence(st: State, id: Id): (r: int)
  {
    if id in st.sequences then st.sequences[id] else 0
  }

  predicate Renewable(st: State, id: Id, sentAt: Time, budget: Time, sequence: int, now: Time)
  {
    LastSequence(st, id) < sequence && Authoritative(st, id, now) && now < sentAt + budget - 5.0
  }

  function Renew(st: State, id: Id, sentAt: Time, budget: Time, sequence: int, now: Time): (r: State)
  {
    if !Renewable(st, id, sentAt, budget, sequence, now) then st
    else st.(deadlines := st.deadlines[id := sentAt + budget - 5.0], sequences := st.sequences[id := sequence])
  }

  /** The mode `available` computes from the unreleased rows. */
  function Recomputed(journal: Journal): (r: Mode)
  {
    if exists k :: k in journal && !journal[k].released && (journal[k].clean || journal[k].uncertain) then Cleaning
    else if exists k :: k in journal && !journal[k].released && journal[k].kind == InteractiveAccess then InteractiveActive
    else if exists k :: k in journal && !journal[k].released then BatchActive
    else Available
  }

  function MarkClean(st: State, id: Id): (r: State)
  {
    if id !in st.journal then st
    else st.(journal := st.journal[id := st.journal[id].(clean := true)], mode := Cleaning)
  }

  /** `released`: refused until the assignment is locally clean. */
  function Release(st: State, id: Id): (r: State)
  {
    if id !in st.journal || !st.journal[id].clean then st
    else
      var journal := st.journal[id := st.journal[id].(released := true)];
      st.(journal := journal, mode := Recomputed(journal))
  }

  function MarkUncertain(st: State, id: Id): (r: State)
  {
    if id !in st.journal then st
    else st.(journal := st.journal[id := st.journal[id].(uncertain := true)])
  }

  /** Startup resolves a claim whose answer was lost, under its original key: the
      assignment is journalled for cleanup and never given a lease. */
  function ResolveClaim(st: State, answer: Option<Assignment>): (r: State)
  {
    if st.claim.None? || st.mode != Reconciling || exists k :: k in st.deadlines then st
    else
      match answer
      case None => st.(claim := None)
      case Some(a) =>
        st.(claim := None, journal := st.journal[a.id := Record(a.kind, a.jobId, false, false, false)])
  }

  // ------------------------------------------------------------------- runs

  datatype Op =
    | DoBeginClaim(minted: Id)
    | DoAccept(answer: Option<Assignment>, sentAt: Time, bootIdReadable: bool)
    | DoClaimFailed
    | DoRenew(id: Id, sentAt: Time, budget: Time, sequence: int)
    | DoMarkClean(id: Id)
    | DoRelease(id: Id)
    | DoAvailable
    | DoMarkUncertain(id: Id)
    | DoSetAccepting(accepting: bool)
    | DoSetPaused(paused: bool)
    | DoDrain
    | DoBlock(mode: Mode)
    | DoRestart(instance: Id)
    | DoAcceptThenCrash(lost: Assignment, instance: Id)
    | DoResolveClaim(resolved: Option<Assignment>)

  datatype Event = Event(op: Op, at: Time)

  /** One operation at clock reading `now`.  `DoBlock` is a mode written by another part of the Worker,
      which only ever writes blocking modes; a crash inside `accept` leaves the row
      journalled and the claim in place. */
  function Do(st: State, op: Op, now: Time): (r: State)
  {
    match op
    case DoBeginClaim(minted) => BeginClaim(st, minted).0
    case DoAccept(answer, sentAt, readable) => Accept(st, answer, sentAt, readable, now)
    case DoClaimFailed => ClaimFailed(st)
    case DoRenew(id, sentAt, budget, sequence) => Renew(st, id, sentAt, budget, sequence, now)
    case DoMarkClean(id) => MarkClean(st, id)
    case DoRelease(id) => Release(st, id)
    case DoAvailable => st.(mode := Recomputed(st.journal))
    case DoMarkUncertain(id) => MarkUncertain(st, id)
    case DoSetAccepting(accepting) => st.(accepting := accepting)
    case DoSetPaused(paused) => st.(paused := paused)
    case DoDrain => st.(draining := true)
    case DoBlock(mode) => if Blocking(mode) then st.(mode := mode) else st
    case DoRestart(instance) => Started(st.journal, st.claim, st.accepting, instance)
    case DoAcceptThenCrash(lost, instance) =>
      Started(Accepted(st, lost, 0.0).journal, st.claim, st.accepting, instance)
    case DoResolveClaim(resolved) => ResolveClaim(st, resolved)
  }

  predicate Restarts(op: Op)
  {
    op.DoRestart? || op.DoAcceptThenCrash?
  }

  /** The monotonic clock never goes back while the process lives; a restarted
      process may read any value. */
  predicate Timed(clock: Time, run: seq<Event>)
    decreases |run|
  {
    run == [] || ((Restarts(run[0].op) || clock <= run[0].at) && Timed(run[0].at, run[1..]))
  }

  function Exec(st: State, run: seq<Event>): (r: State)
    decreases |run|
  {
    if run == [] then st else Exec(Do(st, run[0].op, run[0].at), run[1..])
  }

  /** The clock reading of the last event. */
  function Latest(clock: Time, run: seq<Event>): (r: Time)
  {
    if run == [] then clock else run[|run| - 1].at
  }

  // ------------------------------------------------------------------- invariants

  /** A released assignment was cleaned up first. */
  ghost predicate ReleasedIsClean(journal: Journal)
  {
    forall k :: k in journal && journal[k].released ==> journal[k].clean
  }

  predicate Held(journal: Journal, deadlines: map<Id, Time>, id: Id)
  {
    id in journal && id in deadlines && !journal[id].clean && !journal[id].uncertain
  }

  /** Of the assignments this process holds leases for and has not given up, an
      exclusive one stands alone. */
  ghost predicate ExclusiveAlone(journal: Journal, deadlines: map<Id, Time>)
  {
    forall x, y :: Held(journal, deadlines, x) && Held(journal, deadlines, y) && x != y
                   ==> !Exclusive(journal[x].kind)
  }

  predicate InteractiveOpen(journal: Journal)
  {
    exists k :: k in journal && !journal[k].released && journal[k].kind == InteractiveAccess
  }

  /** While interactive work is unreleased no new work is requested. */
  predicate Gated(journal: Journal, mode: Mode)
  {
    InteractiveOpen(journal) ==> Blocking(mode)
  }

  ghost predicate Sound(st: State)
  {
    ReleasedIsClean(st.journal) && ExclusiveAlone(st.journal, st.deadlines)
  }

  lemma AcceptedSound(st: State, a: Assignment, sentAt: Time)
    requires Sound(st)
    ensures Sound(Accepted(st, a, sentAt))
  {
    var u := Accepted(st, a, sentAt);
    forall x, y | Held(u.journal, u.deadlines, x) && Held(u.journal, u.deadlines, y) && x != y
      ensures !Exclusive(u.journal[x].kind)
    {
      if x != a.id && y != a.id {
        assert Held(st.journal, st.deadlines, x) && Held(st.journal, st.deadlines, y);
      } else {
        var other := if x == a.id then y else x;
        assert Held(st.journal, st.deadlines, other) && !st.journal[other].released;
      }
    }
  }

  /** Flags of a row only ever raised, and cleanup before release. */
  lemma RowSound(j: Journal, d: map<Id, Time>, id: Id, row: Record)
    requires ReleasedIsClean(j) && ExclusiveAlone(j, d) && id in j
    requires row.kind == j[id].kind && (j[id].clean ==> row.clean) && (j[id].uncertain ==> row.uncertain)
    requires row.released ==> row.clean
    ensures ReleasedIsClean(j[id := row]) && ExclusiveAlone(j[id := row], d)
  {
    var k := j[id := row];
    forall x, y | Held(k, d, x) && Held(k, d, y) && x != y ensures !Exclusive(k[x].kind) {
      assert Held(j, d, x) && Held(j, d, y);
    }
  }

  lemma RenewSound(st: State, id: Id, sentAt: Time, budget: Time, sequence: int, now: Time)
    requires Sound(st)
    ensures Sound(Renew(st, id, sentAt, budget, sequence, now))
  {
    var u := Renew(st, id, sentAt, budget, sequence, now);
    forall x, y | Held(u.journal, u.deadlines, x) && Held(u.journal, u.deadlines, y) && x != y
      ensures !Exclusive(u.journal[x].kind)
    {
      assert Held(st.journal, st.deadlines, x) && Held(st.journal, st.deadlines, y);
    }
  }

  lemma FlagsSound(st: State, id: Id)
    requires Sound(st)
    ensures Sound(MarkClean(st, id)) && Sound(Release(st, id)) && Sound(MarkUncertain(st, id))
  {
    if id in st.journal {
      RowSound(st.journal, st.deadlines, id, st.journal[id].(clean := true));
      RowSound(st.journal, st.deadlines, id, st.journal[id].(uncertain := true));
      if st.journal[id].clean {
        RowSound(st.journal, st.deadlines, id, st.journal[id].(released := true));
      }
    }
  }

  /** A process that has just started holds no lease. */
  lemma StartedSound(journal: Journal, claim: Option<Request>, accepting: bool, instance: Id)
    requires ReleasedIsClean(journal)
    ensures Sound(Started(journal, claim, accepting, instance))
  {
  }

  lemma ResolveSound(st: State, answer: Option<Assignment>)
    requires Sound(st)
    ensures Sound(ResolveClaim(st, answer))
  {
  }

  lemma DoSound(st: State, op: Op, now: Time)
    requires Sound(st)
    ensures Sound(Do(st, op, now))
  {
    match op
    case DoAccept(answer, sentAt, readable) =>
      if answer.Some? {
        AcceptedSound(st, answer.value, sentAt);
      }
    case DoRenew(id, sentAt, budget, sequence) => RenewSound(st, id, sentAt, budget, sequence, now);
    case DoMarkClean(id) => FlagsSound(st, id);
    case DoRelease(id) => FlagsSound(st, id);
    case DoMarkUncertain(id) => FlagsSound(st, id);
    case DoRestart(instance) => StartedSound(st.journal, st.claim, st.accepting, instance);
    case DoAcceptThenCrash(lost, instance) =>
      AcceptedSound(st, lost, 0.0);
      StartedSound(Accepted(st, lost, 0.0).journal, st.claim, st.accepting, instance);
    case DoResolveClaim(resolved) => ResolveSound(st, resolved);
    case _ =>
  }

  lemma AcceptGated(st: State, a: Assignment, sentAt: Time, now: Time)
    requires Gated(st.journal, st.mode)
    ensures var u := Accept(st, Some(a), sentAt, true, now); Gated(u.journal, u.mode)
  {
    var u := Accept(st, Some(a), sentAt, true, now);
    if !Blocking(u.mode) {
      assert forall k :: k in u.journal && k != a.id ==> k in st.journal && u.journal[k] == st.journal[k];
    }
  }

  /** Exactly when an accepted assignment, new or accepted before, leaves the gate shut:
      the boot identifier was readable, or the assignment is not interactive, or claims
      were blocked anyway. */
  lemma AcceptGateIff(st: State, a: Assignment, sentAt: Time, readable: bool, now: Time)
    requires Gated(st.journal, st.mode)
    ensures var u := Accept(st, Some(a), sentAt, readable, now);
            Gated(u.journal, u.mode) <==> readable || a.kind != InteractiveAccess || Blocking(st.mode)
  {
    var u := Accept(st, Some(a), sentAt, readable, now);
    if readable {
      AcceptGated(st, a, sentAt, now);
    } else {
      assert forall k :: k in st.journal && k != a.id ==> k in u.journal && u.journal[k] == st.journal[k];
      assert u.journal[a.id].kind == a.kind && !u.journal[a.id].released;
    }
  }

  /** The operation is not an `accept` of interactive work that fails to read the boot
      identifier while claims are open. */
  predicate GateSafe(st: State, op: Op)
  {
    op.DoAccept? && op.answer.Some? ==>
      op.bootIdReadable || op.answer.value.kind != InteractiveAccess || Blocking(st.mode)
  }

  lemma RecomputedGated(journal: Journal)
    ensures Gated(journal, Recomputed(journal))
  {
  }

  lemma ReleaseGated(st: State, id: Id)
    requires Gated(st.journal, st.mode)
    ensures Gated(Release(st, id).journal, Release(st, id).mode)
  {
    if id in st.journal && st.journal[id].clean {
      RecomputedGated(st.journal[id := st.journal[id].(released := true)]);
    }
  }

  /** Changing a flag other than `released` opens no interactive row. */
  lemma RowGated(journal: Journal, mode: Mode, id: Id, row: Record)
    requires Gated(journal, mode) && id in journal && row.kind == journal[id].kind && row.released == journal[id].released
    ensures Gated(journal[id := row], mode)
  {
    if InteractiveOpen(journal[id := row]) {
      var k :| k in journal && !journal[id := row][k].released && journal[id := row][k].kind == InteractiveAccess;
      assert !journal[k].released && journal[k].kind == InteractiveAccess;
    }
  }

  lemma OthersGated(st: State, op: Op, now: Time)
    requires Gated(st.journal, st.mode) && !op.DoAccept?
    ensures Gated(Do(st, op, now).journal, Do(st, op, now).mode)
  {
    match op
    case DoRelease(id) => ReleaseGated(st, id);
    case DoMarkUncertain(id) =>
      if id in st.journal {
        RowGated(st.journal, st.mode, id, st.journal[id].(uncertain := true));
      }
    case DoAvailable => RecomputedGated(st.journal);
    case _ =>
  }

  /** An operation opens the gate exactly when it is such an `accept`. */
  lemma DoGated(st: State, op: Op, now: Time)
    requires Gated(st.journal, st.mode)
    ensures Gated(Do(st, op, now).journal, Do(st, op, now).mode) <==> GateSafe(st, op)
  {
    match op
    case DoAccept(answer, sentAt, readable) =>
      if answer.Some? {
        AcceptGateIff(st, answer.value, sentAt, readable, now);
      }
    case _ => OthersGated(st, op, now);
  }
}
