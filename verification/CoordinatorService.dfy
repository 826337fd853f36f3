/** The coordinator as the Worker runs it: fields updated in place, rows scanned one by one. */
module CoordinatorService {
  import opened Common
  import C = Coordinator

  class Coordinator {
    var journal: C.Journal
    var claim: Option<C.Request>
    var accepting: bool
    const instance: C.Id
    var mode: C.Mode
    var paused: bool
    var draining: bool
    var pending: bool
    var deadlines: map<C.Id, C.Time>
    var sequences: map<C.Id, int>

    ghost function View(): (r: C.State)
      reads this
    {
      C.State(journal, claim, accepting, instance, mode, paused, draining, pending, deadlines, sequences)
    }

    /** Open the durable state left by whichever process ran before. */
    constructor (journal: C.Journal, claim: Option<C.Request>, accepting: bool, instance: C.Id)
      ensures View() == C.Started(journal, claim, accepting, instance)
    {
      this.journal, this.claim, this.accepting, this.instance := journal, claim, accepting, instance;
      mode, paused, draining, pending := C.Reconciling, false, false, false;
      deadlines, sequences := map[], map[];
    }

    method EstimationActive(except: Option<C.Id>, jobId: Option<C.Id>) returns (found: bool)
      ensures found <==> exists k :: k in journal && !journal[k].released && journal[k].kind == C.VramEstimation
                                     && except != Some(k) && jobId != Some(journal[k].jobId)
      ensures except == jobId == None ==> found == C.EstimationActive(journal)
    {
      var todo := journal.Keys;
      while todo != {}
        invariant forall k :: k in todo ==> k in journal
        invariant forall k :: k in journal && k !in todo ==>
                    journal[k].released || journal[k].kind != C.VramEstimation || except == Some(k) || jobId == Some(journal[k].jobId)
        decreases |todo|
      {
        Inhabited(todo);
        var k :| k in todo;
        if !journal[k].released && journal[k].kind == C.VramEstimation && except != Some(k) && jobId != Some(journal[k].jobId) {
          return true;
        }
        todo := todo - {k};
      }
      found := false;
    }

    method OthersActive(except: C.Id, jobId: C.Id) returns (found: bool)
      ensures found == C.OthersActive(journal, except, jobId)
    {
      var todo := journal.Keys;
      while todo != {}
        invariant forall k :: k in todo ==> k in journal
        invariant forall k :: k in journal && k !in todo ==>
                    journal[k].released || k == except || journal[k].jobId == jobId
        decreases |todo|
      {
        Inhabited(todo);
        var k :| k in todo;
        if !journal[k].released && k != except && journal[k].jobId != jobId {
          return true;
        }
        todo := todo - {k};
      }
      found := false;
    }

    method CanStart(kind: C.Kind, id: C.Id, jobId: C.Id) returns (may: bool)
      ensures may == C.CanStart(journal, kind, id, jobId)
    {
      if kind == C.VramEstimation {
        var others := OthersActive(id, jobId);
        may := !others;
      } else {
        var estimating := EstimationActive(None, None);
        may := !estimating;
      }
    }

    method MayRequestWork() returns (may: bool)
      ensures may == C.MayRequestWork(View())
    {
      var estimating := EstimationActive(None, None);
      may := !paused && !draining && accepting && !C.Blocking(mode) && !pending && !estimating;
    }

    /** One pass over the unreleased rows settles the mode. */
    method Available()
      modifies this`mode
      ensures View() == old(View()).(mode := C.Recomputed(journal))
    {
      var todo := journal.Keys;
      var dirty, interactive, active := false, false, false;
      while todo != {}
        invariant forall k :: k in todo ==> k in journal
        invariant dirty ==> exists k :: k in journal && !journal[k].released && (journal[k].clean || journal[k].uncertain)
        invariant interactive ==> C.InteractiveOpen(journal)
        invariant active ==> exists k :: k in journal && !journal[k].released
        invariant forall k :: k in journal && k !in todo && !journal[k].released ==>
                    && active && (journal[k].clean || journal[k].uncertain ==> dirty)
                    && (journal[k].kind == C.InteractiveAccess ==> interactive)
        decreases |todo|
      {
        Inhabited(todo);
        var k :| k in todo;
        if !journal[k].released {
          active := true;
          dirty := dirty || journal[k].clean || journal[k].uncertain;
          interactive := interactive || journal[k].kind == C.InteractiveAccess;
        }
        todo := todo - {k};
      }
      mode := if dirty then C.Cleaning else if interactive then C.InteractiveActive
              else if active then C.BatchActive else C.Available;
    }

    method BeginClaim(minted: C.Id) returns (request: Option<C.Request>)
      modifies this
      ensures (View(), request) == C.BeginClaim(old(View()), minted)
    {
      var may := MayRequestWork();
      if !may {
        return None;
      }
      pending := true;
      var chosen := if claim.Some? then claim.value else C.Request(instance, minted);
      if chosen.instance != instance {
        mode := C.Uncertain;
        pending := false;
        return None;
      }
      claim := Some(chosen);
      request := claim;
    }

    method FindConflict(kind: C.Kind) returns (conflict: bool)
      ensures conflict == C.Conflict(View(), kind)
    {
      if !accepting {
        return true;
      }
      var todo := journal.Keys;
      while todo != {}
        invariant forall k :: k in todo ==> k in journal
        invariant forall k :: k in journal && k !in todo && !journal[k].released ==>
                    !C.Exclusive(kind) && !C.Exclusive(journal[k].kind)
        decreases |todo|
      {
        Inhabited(todo);
        var k :| k in todo;
        if !journal[k].released && (C.Exclusive(kind) || C.Exclusive(journal[k].kind)) {
          return true;
        }
        todo := todo - {k};
      }
      conflict := false;
    }

    /** `raised` when the boot identifier could not be read. */
    method Accept(answer: Option<C.Assignment>, sentAt: C.Time, bootIdReadable: bool, now: C.Time) returns (raised: bool)
      modifies this
      ensures View() == C.Accept(old(View()), answer, sentAt, bootIdReadable, now)
      ensures raised <==> answer.Some? && !bootIdReadable
    {
      pending := false;
      if answer.Some? {
        var a := answer.value;
        ghost var was := old(View());
        var conflict := FindConflict(a.kind);
        assert conflict == C.Conflict(was, a.kind) by {
          assert View().journal == was.journal && View().accepting == was.accepting;
        }
        journal := journal[a.id := C.Record(a.kind, a.jobId, false, false, conflict)];
        deadlines := deadlines[a.id := sentAt + a.leaseSeconds - 5.0];
        if !bootIdReadable {
          return true;
        }
        mode := if conflict || deadlines[a.id] <= now then C.Uncertain
                else if a.kind == C.InteractiveAccess then C.InteractiveReserved else C.BatchActive;
      }
      claim := None;
      raised := false;
    }

    method ClaimFailed()
      modifies this`pending
      ensures View() == C.ClaimFailed(old(View()))
    {
      pending := false;
    }

    /** Raises for an assignment the journal does not know. */
    method Authoritative(id: C.Id, now: C.Time) returns (r: Outcome<bool>)
      ensures r == if id in journal then Ok(C.Authoritative(View(), id, now)) else Raised(0)
    {
      if id !in journal {
        return Raised(0);
      }
      r := Ok(!journal[id].clean && !journal[id].uncertain && !draining && id in deadlines && now < deadlines[id]);
    }

    /** Raises for an assignment the journal does not know, unless the sequence number
        is stale already. */
    method Renew(id: C.Id, sentAt: C.Time, budget: C.Time, sequence: int, now: C.Time) returns (renewed: Outcome<bool>)
      modifies this
      ensures View() == C.Renew(old(View()), id, sentAt, budget, sequence, now)
      ensures renewed.Raised? <==>
                id !in old(journal) && (if id in old(sequences) then old(sequences)[id] else 0) < sequence
      ensures renewed.Ok? ==> renewed.value == C.Renewable(old(View()), id, sentAt, budget, sequence, now)
    {
      if sequence <= (if id in sequences then sequences[id] else 0) {
        return Ok(false);
      }
      var standing := Authoritative(id, now);
      if standing != Ok(true) {
        return standing;
      }
      var deadline := sentAt + budget - 5.0;
      if deadline <= now {
        return Ok(false);
      }
      deadlines := deadlines[id := deadline];
      sequences := sequences[id := sequence];
      renewed := Ok(true);
    }

    /** Raises for an assignment the journal does not know. */
    method MarkClean(id: C.Id) returns (raised: bool)
      modifies this
      ensures View() == C.MarkClean(old(View()), id)
      ensures raised <==> id !in old(journal)
    {
      if id !in journal {
        return true;
      }
      journal := journal[id := journal[id].(clean := true)];
      mode := C.Cleaning;
      raised := false;
    }

    /** Raises for an unknown assignment or one not yet clean. */
    method Release(id: C.Id) returns (raised: bool)
      modifies this
      ensures View() == C.Release(old(View()), id)
      ensures raised <==> id !in old(journal) || !old(journal)[id].clean
    {
      if id !in journal || !journal[id].clean {
        return true;
      }
      journal := journal[id := journal[id].(released := true)];
      Available();
      raised := false;
    }
  }
}
