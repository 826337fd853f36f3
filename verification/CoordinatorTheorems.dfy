/** What holds of the Worker's coordinator over every run, crashes and restarts included. */
module CoordinatorTheorems {
  import opened Common
  import opened Coordinator

  lemma {:induction false} RunSound(st: State, run: seq<Event>)
    requires Sound(st)
    ensures Sound(Exec(st, run))
    decreases |run|
  {
    if run != [] {
      DoSound(st, run[0].op, run[0].at);
      RunSound(Do(st, run[0].op, run[0].at), run[1..]);
    }
  }

  /** On any journal a Worker left on disk: in every reachable state an exclusive
      assignment that may act is the only one that may, and a released assignment
      was cleaned up first. */
  lemma ExclusiveAuthority(
    journal: Journal, claim: Option<Request>, accepting: bool, instance: Id, run: seq<Event>, x: Id, y: Id, now: Time)
    requires ReleasedIsClean(journal)
    ensures var st := Exec(Started(journal, claim, accepting, instance), run);
            && (Authoritative(st, x, now) && Authoritative(st, y, now) && x != y ==>
                  st.journal[x].kind == BatchTraining && st.journal[y].kind == BatchTraining)
            && ReleasedIsClean(st.journal)
  {
    var st0 := Started(journal, claim, accepting, instance);
    RunSound(st0, run);
    var st := Exec(st0, run);
    if Authoritative(st, x, now) && Authoritative(st, y, now) && x != y {
      assert Held(st.journal, st.deadlines, x) && Held(st.journal, st.deadlines, y);
    }
  }

  // ------------------------------------------------------------------- the claim gate

  /** No `accept` along the run, in the state it meets, can open the gate. */
  predicate SafeAccepts(st: State, run: seq<Event>)
    decreases |run|
  {
    run == [] || (GateSafe(st, run[0].op) && SafeAccepts(Do(st, run[0].op, run[0].at), run[1..]))
  }

  /** The gate is shut before every event of the run and after the last. */
  predicate ShutThroughout(st: State, run: seq<Event>)
    decreases |run|
  {
    Gated(st.journal, st.mode) && (run == [] || ShutThroughout(Do(st, run[0].op, run[0].at), run[1..]))
  }

  /** Over every run: the gate stays shut exactly when no `accept` of interactive work
      fails to read the boot identifier while claims are open. */
  lemma {:induction false} GateShutIff(st: State, run: seq<Event>)
    requires Gated(st.journal, st.mode)
    ensures ShutThroughout(st, run) <==> SafeAccepts(st, run)
    decreases |run|
  {
    if run != [] {
      DoGated(st, run[0].op, run[0].at);
      if GateSafe(st, run[0].op) {
        GateShutIff(Do(st, run[0].op, run[0].at), run[1..]);
      }
    }
  }

  lemma {:induction false} ShutAtEnd(st: State, run: seq<Event>)
    requires ShutThroughout(st, run)
    ensures Gated(Exec(st, run).journal, Exec(st, run).mode)
    decreases |run|
  {
    if run != [] {
      ShutAtEnd(Do(st, run[0].op, run[0].at), run[1..]);
    }
  }

  predicate ExclusiveOpen(journal: Journal)
  {
    exists k :: k in journal && !journal[k].released && Exclusive(journal[k].kind)
  }

  /** While exclusive work is unreleased no claim is sent, on any journal and through
      any number of restarts, in every run without an `accept` that can open the gate. */
  lemma NoClaimBesideExclusive(
    journal: Journal, claim: Option<Request>, accepting: bool, instance: Id, run: seq<Event>, minted: Id)
    requires SafeAccepts(Started(journal, claim, accepting, instance), run)
    ensures var st := Exec(Started(journal, claim, accepting, instance), run);
            ExclusiveOpen(st.journal) ==> BeginClaim(st, minted).1 == None
  {
    var st0 := Started(journal, claim, accepting, instance);
    GateShutIff(st0, run);
    ShutAtEnd(st0, run);
    var st := Exec(st0, run);
    if k :| k in st.journal && !st.journal[k].released && Exclusive(st.journal[k].kind) {
      assert st.journal[k].kind == InteractiveAccess || st.journal[k].kind == VramEstimation;
    }
  }

  /** Without a readable boot identifier the gate does open: a fresh Worker accepts
      interactive work, fails, and may claim again beside it. */
  lemma GateCanOpen()
    ensures exists run, minted ::
              var st := Exec(Started(map[], None, true, 1), run);
              InteractiveOpen(st.journal) && BeginClaim(st, minted).1.Some?
  {
    var a := Assignment(5, InteractiveAccess, 6, 60.0);
    var e0 := Event(DoAvailable, 0.0);
    var e1 := Event(DoBeginClaim(7), 0.0);
    var e2 := Event(DoAccept(Some(a), 0.0, false), 1.0);
    var s0 := Started(map[], None, true, 1);
    var s1 := Do(s0, e0.op, e0.at);
    assert s1.mode == Available;
    var s2 := Do(s1, e1.op, e1.at);
    assert s2.claim == Some(Request(1, 7));
    var s3 := Do(s2, e2.op, e2.at);
    var run := [e0, e1, e2];
    assert Exec(s0, run) == s3 by {
      assert run[1..] == [e1, e2] && [e1, e2][1..] == [e2] && [e2][1..] == [];
      assert Exec(s2, [e2]) == Exec(s3, []);
      assert Exec(s1, [e1, e2]) == Exec(s2, [e2]);
    }
    assert 5 in s3.journal && !s3.journal[5].released && s3.journal[5].kind == InteractiveAccess;
    assert forall k :: k in s3.journal ==> k == 5;
    assert BeginClaim(s3, 8).1.Some?;
  }

  // ------------------------------------------------------------------- claims are sent once

  /** The operations that settle an outstanding request. */
  predicate Settles(op: Op)
  {
    (op.DoAccept? && (op.answer.None? || op.bootIdReadable)) || op.DoResolveClaim?
  }

  predicate Unsettled(run: seq<Event>)
  {
    forall i :: 0 <= i < |run| ==> !Settles(run[i].op)
  }

  lemma DoClaim(st: State, op: Op, now: Time)
    requires st.claim.Some? && !Settles(op)
    ensures Do(st, op, now).claim == st.claim
  {
    match op
    case DoBeginClaim(m) =>
    case DoAccept(answer, sentAt, readable) =>
    case DoResolveClaim(resolved) =>
    case DoMarkClean(k) =>
    case DoRelease(k) =>
    case DoMarkUncertain(k) =>
    case DoRenew(k, sentAt, budget, sequence) =>
    case DoRestart(instance) =>
    case DoAcceptThenCrash(lost, instance) =>
    case _ =>
  }

  lemma {:induction false} ClaimStays(st: State, run: seq<Event>)
    requires st.claim.Some? && Unsettled(run)
    ensures Exec(st, run).claim == st.claim
    decreases |run|
  {
    if run != [] {
      DoClaim(st, run[0].op, run[0].at);
      ClaimStays(Do(st, run[0].op, run[0].at), run[1..]);
    }
  }

  /** After a request goes out, and until it is settled, the Worker sends that very
      request or nothing: retries, failed accepts, crashes and new process instances
      included.  A process that did not mint it sends nothing. */
  lemma NoSecondRequest(st: State, minted: Id, run: seq<Event>, later: Id)
    requires BeginClaim(st, minted).1.Some? && Unsettled(run)
    ensures var request := BeginClaim(st, minted).1;
            var end := Exec(BeginClaim(st, minted).0, run);
            var again := BeginClaim(end, later).1;
            && (again == None || again == request)
            && (end.instance != request.value.instance ==> again == None)
  {
    ClaimStays(BeginClaim(st, minted).0, run);
  }

  lemma DoPending(st: State, op: Op, now: Time)
    requires st.pending && !op.DoAccept? && !op.DoClaimFailed? && !Restarts(op)
    ensures Do(st, op, now).pending
  {
    match op
    case DoBeginClaim(m) =>
    case DoAccept(answer, sentAt, readable) =>
    case DoResolveClaim(resolved) =>
    case DoMarkClean(k) =>
    case DoRelease(k) =>
    case DoMarkUncertain(k) =>
    case DoRenew(k, sentAt, budget, sequence) =>
    case DoRestart(instance) =>
    case DoAcceptThenCrash(lost, instance) =>
    case _ =>
  }

  /** At most one claim is in flight: none is sent until the last one was answered,
      failed, or died with its process. */
  lemma {:induction false} OneInFlight(st: State, run: seq<Event>, minted: Id)
    requires st.pending
    requires forall i :: 0 <= i < |run| ==>
               !run[i].op.DoAccept? && !run[i].op.DoClaimFailed? && !Restarts(run[i].op)
    ensures BeginClaim(Exec(st, run), minted).1 == None
    decreases |run|
  {
    if run != [] {
      DoPending(st, run[0].op, run[0].at);
      OneInFlight(Do(st, run[0].op, run[0].at), run[1..], minted);
    }
  }

  // ------------------------------------------------------------------- authority

  predicate Grants(op: Op, id: Id)
  {
    op.DoAccept? && op.answer.Some? && op.answer.value.id == id
  }

  /** A step other than accepting this assignment gives it no authority: its row only
      gets worse and its deadline moves only while it stands. */
  lemma NoAuthorityGained(st: State, op: Op, id: Id, now: Time)
    requires !Authoritative(st, id, now) && !Grants(op, id)
    ensures !Authoritative(Do(st, op, now), id, now)
  {
    match op
    case DoAccept(answer, sentAt, readable) =>
    case DoResolveClaim(resolved) =>
    case DoMarkClean(k) =>
    case DoRelease(k) =>
    case DoMarkUncertain(k) =>
    case DoRenew(k, sentAt, budget, sequence) =>
    case DoRestart(instance) =>
    case DoAcceptThenCrash(lost, instance) =>
    case _ =>
  }

  /** An assignment that may not act gains the right in exactly one way: this process
      accepts it, without conflict, not draining, before its lease has run down. */
  lemma AuthorityGainedIff(st: State, op: Op, id: Id, was: Time, now: Time)
    requires !Authoritative(st, id, was) && (Restarts(op) || was <= now)
    ensures Authoritative(Do(st, op, now), id, now) <==>
            && Grants(op, id) && !st.draining && !Conflict(st, op.answer.value.kind)
            && now < op.sentAt + op.answer.value.leaseSeconds - 5.0
  {
    if Restarts(op) {
      assert id !in Do(st, op, now).deadlines;
    } else if !Grants(op, id) {
      NoAuthorityGained(st, op, id, now);
    }
  }

  /** Accepting an exclusive assignment again while it is unreleased gives it no
      authority: it conflicts with its own row. */
  lemma ExclusiveConflicts(st: State, a: Assignment, sentAt: Time, readable: bool, now: Time, later: Time)
    requires a.id in st.journal && !st.journal[a.id].released && Exclusive(a.kind)
    ensures !Authoritative(Accept(st, Some(a), sentAt, readable, now), a.id, later)
  {
    assert Conflict(st, a.kind);
  }

  predicate ExclusiveHeld(st: State, id: Id)
  {
    id in st.journal && !st.journal[id].released && Exclusive(st.journal[id].kind)
  }

  /** The operation does not release the assignment, and names it only as exclusive work. */
  predicate KeepsExclusive(op: Op, id: Id)
  {
    && op != DoRelease(id)
    && (op.DoAccept? && op.answer.Some? && op.answer.value.id == id ==> Exclusive(op.answer.value.kind))
    && (op.DoAcceptThenCrash? && op.lost.id == id ==> Exclusive(op.lost.kind))
    && (op.DoResolveClaim? && op.resolved.Some? && op.resolved.value.id == id ==> Exclusive(op.resolved.value.kind))
  }

  lemma StaysHeld(st: State, op: Op, id: Id, now: Time)
    requires ExclusiveHeld(st, id) && KeepsExclusive(op, id)
    ensures ExclusiveHeld(Do(st, op, now), id)
  {
    match op
    case DoAccept(answer, sentAt, readable) =>
    case DoResolveClaim(resolved) =>
    case DoMarkClean(k) =>
    case DoRelease(k) =>
    case DoMarkUncertain(k) =>
    case DoRestart(instance) =>
    case DoAcceptThenCrash(lost, instance) =>
    case _ =>
  }

  /** An unreleased exclusive assignment that has lost its authority never has it again,
      through every run that does not release it, however often it is accepted. */
  lemma {:induction false} ExclusiveNotRegained(st: State, id: Id, clock: Time, run: seq<Event>)
    requires ExclusiveHeld(st, id) && !Authoritative(st, id, clock) && Timed(clock, run)
    requires forall i :: 0 <= i < |run| ==> KeepsExclusive(run[i].op, id)
    ensures !Authoritative(Exec(st, run), id, Latest(clock, run))
    decreases |run|
  {
    if run != [] {
      var op, now := run[0].op, run[0].at;
      var next := Do(st, op, now);
      StaysHeld(st, op, id, now);
      AuthorityGainedIff(st, op, id, clock, now);
      if Grants(op, id) {
        ExclusiveConflicts(st, op.answer.value, op.sentAt, op.bootIdReadable, now, now);
      }
      ExclusiveNotRegained(next, id, now, run[1..]);
      assert Latest(clock, run) == Latest(now, run[1..]);
    }
  }

  /** A batch assignment does get lost authority back that way: its first accept cannot
      read the boot identifier, its lease runs down, and the retried claim, under the
      same request, accepts it again. */
  lemma BatchRegained() returns (run: seq<Event>, again: Event, id: Id)
    ensures Timed(0.0, run + [again])
    ensures var st := Exec(Started(map[], None, true, 1), run);
            && id in st.journal && !Authoritative(st, id, Latest(0.0, run))
            && Grants(again.op, id) && Authoritative(Do(st, again.op, again.at), id, again.at)
    ensures exists i, j :: 0 <= i < j < |run| && run[i].op.DoBeginClaim? && run[j].op.DoBeginClaim?
              && var first := Exec(Started(map[], None, true, 1), run[..i]);
                 var second := Exec(Started(map[], None, true, 1), run[..j]);
                 BeginClaim(first, run[i].op.minted).1.Some?
                 && BeginClaim(second, run[j].op.minted).1 == BeginClaim(first, run[i].op.minted).1
  {
    id := 5;
    var a := Assignment(id, BatchTraining, 6, 60.0);
    var e0, e1 := Event(DoAvailable, 0.0), Event(DoBeginClaim(7), 0.0);
    var e2, e3 := Event(DoAccept(Some(a), 0.0, false), 1.0), Event(DoBeginClaim(8), 60.0);
    again := Event(DoAccept(Some(a), 60.0, true), 61.0);
    run := [e0, e1, e2, e3];
    var s0 := Started(map[], None, true, 1);
    var s1 := Do(s0, e0.op, 0.0);
    var s2 := Do(s1, e1.op, 0.0);
    var s3 := Do(s2, e2.op, 1.0);
    var s4 := Do(s3, e3.op, 60.0);
    FourSteps(s0, e0, e1, e2, e3);
    assert BeginClaim(s1, 7).1 == Some(Request(1, 7)) && BeginClaim(s3, 8).1 == Some(Request(1, 7)) by {
      assert s1.mode == Available && forall k :: k in s3.journal ==> k == id;
    }
    assert s4.journal == s3.journal && s4.deadlines[id] == 55.0;
    assert run + [again] == [e0, e1, e2, e3, again];
    FiveTimes(e0, e1, e2, e3, again);
    assert run[1].op.minted == 7 && run[3].op.minted == 8;
  }

  lemma FourSteps(st: State, a: Event, b: Event, c: Event, d: Event)
    ensures var run := [a, b, c, d];
            var s1 := Do(st, a.op, a.at);
            var s2 := Do(s1, b.op, b.at);
            var s3 := Do(s2, c.op, c.at);
            Exec(st, run[..1]) == s1 && Exec(st, run[..3]) == s3 && Exec(st, run) == Do(s3, d.op, d.at)
  {
    var s1 := Do(st, a.op, a.at);
    var s2 := Do(s1, b.op, b.at);
    var s3 := Do(s2, c.op, c.at);
    assert [a, b, c, d][..1] == [a] && [a, b, c, d][..3] == [a, b, c];
    assert [a][1..] == [] && [d][1..] == [] && [c][1..] == [];
    assert [a, b, c][1..] == [b, c] && [b, c][1..] == [c];
    assert [a, b, c, d][1..] == [b, c, d] && [b, c, d][1..] == [c, d] && [c, d][1..] == [d];
    assert Exec(s2, [c]) == s3 && Exec(s3, [d]) == Do(s3, d.op, d.at);
    assert Exec(s1, [b, c]) == s3 && Exec(s2, [c, d]) == Exec(s3, [d]) && Exec(s1, [b, c, d]) == Exec(s2, [c, d]);
  }

  lemma FiveTimes(a: Event, b: Event, c: Event, d: Event, e: Event)
    requires 0.0 <= a.at <= b.at <= c.at <= d.at <= e.at
    ensures Timed(0.0, [a, b, c, d, e])
  {
    assert [e][1..] == [] && [d, e][1..] == [e] && [c, d, e][1..] == [d, e];
    assert [b, c, d, e][1..] == [c, d, e] && [a, b, c, d, e][1..] == [b, c, d, e];
    assert Timed(d.at, [e]) && Timed(c.at, [d, e]) && Timed(b.at, [c, d, e]);
  }

  /** Authority once lost (lapsed, drained, cleaned, marked uncertain, or lost with
      the process) never comes back unless the same assignment is accepted anew. */
  lemma {:induction false} LostForever(st: State, clock: Time, run: seq<Event>, id: Id)
    requires !Authoritative(st, id, clock) && Timed(clock, run)
    requires forall i :: 0 <= i < |run| ==> !Grants(run[i].op, id)
    ensures !Authoritative(Exec(st, run), id, Latest(clock, run))
    decreases |run|
  {
    if run != [] {
      assert !Grants(run[0].op, id);
      AuthorityGainedIff(st, run[0].op, id, clock, run[0].at);
      LostForever(Do(st, run[0].op, run[0].at), run[0].at, run[1..], id);
    }
  }

  /** A lease that covers `clock`: an answer to a request sent at `sentAt` granting
      `seconds`, less the five-second margin. */
  predicate Covers(op: Op, id: Id, clock: Time)
  {
    || (Grants(op, id) && clock < op.sentAt + op.answer.value.leaseSeconds - 5.0)
    || (op.DoRenew? && op.id == id && clock < op.sentAt + op.budget - 5.0)
  }

  lemma DeadlineMoves(st: State, op: Op, id: Id, now: Time)
    ensures var u := Do(st, op, now);
            id in u.deadlines ==>
              || (id in st.deadlines && u.deadlines[id] == st.deadlines[id])
              || (Grants(op, id) && u.deadlines[id] == op.sentAt + op.answer.value.leaseSeconds - 5.0)
              || (op.DoRenew? && op.id == id && u.deadlines[id] == op.sentAt + op.budget - 5.0)
  {
    match op
    case DoBeginClaim(m) =>
    case DoAccept(answer, sentAt, readable) =>
    case DoRenew(k, sentAt, budget, sequence) =>
    case DoResolveClaim(resolved) =>
    case DoRelease(k) =>
    case DoAvailable =>
    case DoRestart(instance) =>
    case DoAcceptThenCrash(lost, instance) =>
    case _ =>
  }

  lemma {:induction false} DeadlineFrom(st: State, run: seq<Event>, id: Id, clock: Time) returns (i: nat)
    requires id in Exec(st, run).deadlines && clock < Exec(st, run).deadlines[id]
    requires id !in st.deadlines || st.deadlines[id] <= clock
    ensures i < |run| && Covers(run[i].op, id, clock)
    decreases |run|
  {
    DeadlineMoves(st, run[0].op, id, run[0].at);
    if id in Do(st, run[0].op, run[0].at).deadlines && clock < Do(st, run[0].op, run[0].at).deadlines[id] {
      i := 0;
    } else {
      i := DeadlineFrom(Do(st, run[0].op, run[0].at), run[1..], id, clock);
      i := i + 1;
    }
  }

  /** Whenever a Worker may act, a Scheduler answer in its run covers that instant
      with five seconds to spare, counted from when the request was sent. */
  lemma AuthorityIsLeased(
    journal: Journal, claim: Option<Request>, accepting: bool, instance: Id, run: seq<Event>, id: Id, now: Time)
    returns (i: nat)
    requires Authoritative(Exec(Started(journal, claim, accepting, instance), run), id, now)
    ensures i < |run| && Covers(run[i].op, id, now)
  {
    i := DeadlineFrom(Started(journal, claim, accepting, instance), run, id, now);
  }
}
