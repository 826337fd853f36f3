/**
 The gateway's relay: a connection stays open only while its local copy of the
 session lease runs.  The copy is refreshed by renewals that may be slow, lost,
 refused or answered late.
 */
module GatewayRelay {
  import opened Common
  import opened ManagementTables

  datatype Reason = LeaseExpired | IdleTimeout | VersionMismatch(found: Id) | RenewDenied(status: nat)

  /** How one renewal call ended. */
  datatype Renewal = Renewed(version: Id, lease: Time) | Refused(status: nat) | Unanswered

  /** What one turn of the authorization loop reads: the wall clock and the
      monotonic clock at the top, the last activity, the monotonic clock after
      the sleep, and the renewal made if one was due, with its finishing time. */
  datatype Turn = Turn(clock: Time, monotonic: Time, activity: Time, woke: Time, answer: Renewal, answered: Time)

  datatype Timing = Timing(renewalInterval: Time, idleTimeout: Time)

  datatype RelayState = RelayState(
    sessionId: Id, version: Id, lease: Time, deadline: Time, nextRenewal: Time, reason: Option<Reason>)

  /** The statuses that end a relay at once. */
  predicate Final(status: nat)
  {
    status == 401 || status == 403 || status == 404 || status == 409 || status == 410
  }

  /** One turn of the loop. */
  function TakeTurn(timing: Timing, st: RelayState, turn: Turn): (r: RelayState)
  {
    if st.reason.Some? then st
    else if st.lease <= turn.clock || st.deadline <= turn.clock then st.(reason := Some(LeaseExpired))
    else if timing.idleTimeout <= turn.monotonic - turn.activity then st.(reason := Some(IdleTimeout))
    else if turn.woke < st.nextRenewal then st
    else
      var rescheduled := st.(nextRenewal := turn.answered + timing.renewalInterval);
      match turn.answer
      case Renewed(version, lease) =>
        if version != st.version then st.(reason := Some(VersionMismatch(version))) else rescheduled.(lease := lease)
      case Refused(status) => if Final(status) then st.(reason := Some(RenewDenied(status))) else rescheduled
      case Unanswered => rescheduled
  }

  function TakeTurns(timing: Timing, st: RelayState, turns: seq<Turn>): (r: RelayState)
    decreases |turns|
  {
    if turns == [] then st else TakeTurns(timing, TakeTurn(timing, st, turns[0]), turns[1..])
  }

  lemma {:induction false} TakeTurnsSplit(timing: Timing, st: RelayState, a: seq<Turn>, b: seq<Turn>)
    ensures TakeTurns(timing, st, a + b) == TakeTurns(timing, TakeTurns(timing, st, a), b)
    decreases |a|
  {
    if a == [] {
      assert a + b == b;
    } else {
      assert (a + b)[1..] == a[1..] + b;
      TakeTurnsSplit(timing, TakeTurn(timing, st, a[0]), a[1..], b);
    }
  }

  lemma {:induction false} ClosedStays(timing: Timing, st: RelayState, turns: seq<Turn>)
    requires st.reason.Some?
    ensures TakeTurns(timing, st, turns) == st
    decreases |turns|
  {
    if turns != [] {
      ClosedStays(timing, st, turns[1..]);
    }
  }

  /** A relay object with the state its authorization task updates. */
  class Relay {
    const timing: Timing
    const sessionId: Id
    const version: Id
    const deadline: Time
    var lease: Time
    var nextRenewal: Time
    var reason: Option<Reason>

    constructor (timing: Timing, sessionId: Id, version: Id, lease: Time, deadline: Time, monotonic: Time)
      ensures View() == RelayState(sessionId, version, lease, deadline, monotonic + timing.renewalInterval, None)
      ensures this.timing == timing
    {
      this.timing := timing;
      this.sessionId := sessionId;
      this.version := version;
      this.deadline := deadline;
      this.lease := lease;
      this.nextRenewal := monotonic + timing.renewalInterval;
      this.reason := None;
    }

    function View(): (r: RelayState)
      reads this
    {
      RelayState(sessionId, version, lease, deadline, nextRenewal, reason)
    }

    /** The authorization loop over the turns the environment grants it; it
        leaves the loop as soon as the relay is closed. */
    method Authorization(turns: seq<Turn>)
      modifies this
      ensures View() == TakeTurns(timing, old(View()), turns)
    {
      var i := 0;
      assert turns[..0] == [];
      while i < |turns| && reason == None
        invariant 0 <= i <= |turns|
        invariant View() == TakeTurns(timing, old(View()), turns[..i])
      {
        var turn := turns[i];
        assert turns[..i + 1] == turns[..i] + [turn] && [turn][1..] == [];
        TakeTurnsSplit(timing, old(View()), turns[..i], [turn]);
        i := i + 1;
        var remaining := (if lease <= deadline then lease else deadline) - turn.clock;
        var idle := timing.idleTimeout - (turn.monotonic - turn.activity);
        if remaining <= 0.0 {
          reason := Some(LeaseExpired);
        } else if idle <= 0.0 {
          reason := Some(IdleTimeout);
        } else if turn.woke >= nextRenewal {
          match turn.answer {
            case Renewed(found, extended) =>
              if found != version {
                reason := Some(VersionMismatch(found));
              } else {
                lease := extended;
              }
            case Refused(status) =>
              if Final(status) {
                reason := Some(RenewDenied(status));
              }
            case Unanswered =>
          }
          if reason == None {
            nextRenewal := turn.answered + timing.renewalInterval;
          }
        }
      }
      if i < |turns| {
        ClosedStays(timing, View(), turns[i..]);
        TakeTurnsSplit(timing, old(View()), turns[..i], turns[i..]);
      }
      assert turns[..i] + turns[i..] == turns;
      assert i == |turns| ==> turns[..i] == turns;
    }
  }

  /** Every renewal answer among the turns grants a lease of at most `limit`. */
  predicate GrantsUpTo(turns: seq<Turn>, limit: Time)
  {
    forall i :: 0 <= i < |turns| && turns[i].answer.Renewed? ==> turns[i].answer.lease <= limit
  }

  /** A relay whose leases never exceed `limit` is closed by any turn that starts
      at or after `limit`, whatever happened to its renewals. */
  lemma {:induction false} ClosedByLimit(timing: Timing, st: RelayState, turns: seq<Turn>, limit: Time)
    requires st.lease <= limit && GrantsUpTo(turns, limit)
    ensures TakeTurns(timing, st, turns).lease <= limit
    ensures forall i :: 0 <= i < |turns| && limit <= turns[i].clock ==> TakeTurns(timing, st, turns).reason.Some?
    decreases |turns|
  {
    if turns != [] {
      var next := TakeTurn(timing, st, turns[0]);
      forall i | 0 <= i < |turns[1..]| && turns[1..][i].answer.Renewed? ensures turns[1..][i].answer.lease <= limit {
        assert turns[1..][i] == turns[i + 1];
      }
      ClosedByLimit(timing, next, turns[1..], limit);
      if limit <= turns[0].clock {
        ClosedStays(timing, next, turns[1..]);
      }
      forall i | 0 <= i < |turns| && limit <= turns[i].clock ensures TakeTurns(timing, st, turns).reason.Some? {
        if i > 0 {
          assert turns[1..][i - 1] == turns[i];
        }
      }
    }
  }

  // ------------------------------------------------------------------- timeliness

  /** How long the loop sleeps before it looks again. */
  function Delay(timing: Timing, st: RelayState, turn: Turn): (r: Time)
  {
    var remaining := Least(st.lease, st.deadline) - turn.clock;
    var idle := timing.idleTimeout - (turn.monotonic - turn.activity);
    Least(Least(remaining, idle), Least(Most(0.0, st.nextRenewal - turn.monotonic), 1.0))
  }

  /** The time limit put on a renewal call that starts at wall clock `start`. */
  function Patience(st: RelayState, start: Time): (r: Time)
  {
    Most(0.001, Least(2.0, Least(st.lease - start, st.deadline - start)))
  }

  /** The timers fire when they were asked to, and `next` follows `turn`. */
  predicate Prompt(timing: Timing, st: RelayState, turn: Turn, next: Turn)
  {
    var delay := Delay(timing, st, turn);
    && turn.woke == turn.monotonic + delay
    && (if turn.woke < st.nextRenewal then next.clock == turn.clock + delay
        else turn.woke <= turn.answered <= turn.woke + Patience(st, turn.clock + delay)
             && next.clock == turn.clock + (turn.answered - turn.monotonic))
  }

  predicate AllPrompt(timing: Timing, st: RelayState, turns: seq<Turn>)
    decreases |turns|
  {
    |turns| < 2 || (Prompt(timing, st, turns[0], turns[1])
                    && AllPrompt(timing, TakeTurn(timing, st, turns[0]), turns[1..]))
  }

  /** No open relay sleeps or waits more than a millisecond past its lease. */
  lemma NoOversleeping(timing: Timing, st: RelayState, turn: Turn, next: Turn)
    requires Prompt(timing, st, turn, next) && TakeTurn(timing, st, turn).reason == None
    ensures next.clock <= Least(st.lease, st.deadline) + 0.001
  {
    var start := turn.clock + Delay(timing, st, turn);
    assert start <= Least(st.lease, st.deadline);
    assert start + Patience(st, start) <= Least(st.lease, st.deadline) + 0.001;
  }

  /** With prompt timers, a relay whose leases never exceed `limit` is closed no
      later than one millisecond after it: no turn of an open relay starts later. */
  lemma {:induction false} ClosedInTime(timing: Timing, st: RelayState, turns: seq<Turn>, limit: Time, i: nat)
    requires st.lease <= limit && GrantsUpTo(turns, limit) && AllPrompt(timing, st, turns)
    requires 0 < i < |turns| && TakeTurns(timing, st, turns[..i]).reason == None
    ensures turns[i].clock <= limit + 0.001
    decreases |turns|
  {
    var next := TakeTurn(timing, st, turns[0]);
    assert turns[..i][1..] == turns[1..][..i - 1] && turns[..i][0] == turns[0];
    if next.reason.Some? {
      ClosedStays(timing, next, turns[1..][..i - 1]);
    } else if i == 1 {
      NoOversleeping(timing, st, turns[0], turns[1]);
    } else {
      assert GrantsUpTo(turns[1..], limit) by {
        forall k | 0 <= k < |turns[1..]| && turns[1..][k].answer.Renewed? ensures turns[1..][k].answer.lease <= limit {
          assert turns[1..][k] == turns[k + 1];
        }
      }
      ClosedInTime(timing, next, turns[1..], limit, i - 1);
    }
  }
}
