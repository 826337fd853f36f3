/** The burst window on SSH grants: at most five admitted per window of ten seconds. */
module GrantWindow {
  import opened Common

  type Time = int  // microseconds

  const WINDOW: Time := 10_000_000
  const BURST := 5

  datatype State = State(start: Option<Time>, count: nat)

  /** One request.  `completes` is false when a later check of the same call raises,
      which rolls the window back. */
  datatype Request = Request(at: Time, completes: bool)

  predicate Admits(st: State, r: Request)
  {
    r.completes && (st.start.None? || st.start.value <= r.at - WINDOW || st.count < BURST)
  }

  function Step(st: State, r: Request): (s: State)
  {
    if !Admits(st, r) then st
    else if st.start.None? || st.start.value <= r.at - WINDOW then State(Some(r.at), 1)
    else State(st.start, st.count + 1)
  }

  predicate Timed(clock: Time, run: seq<Request>)
    decreases |run|
  {
    run == [] || (clock <= run[0].at && Timed(run[0].at, run[1..]))
  }

  /** How many requests of a run are admitted between `a` and `b`. */
  function Admitted(st: State, run: seq<Request>, a: Time, b: Time): (n: nat)
    decreases |run|
  {
    if run == [] then 0
    else (if Admits(st, run[0]) && a <= run[0].at <= b then 1 else 0) + Admitted(Step(st, run[0]), run[1..], a, b)
  }

  predicate Counted(st: State)
  {
    st.start.Some? ==> 1 <= st.count <= BURST
  }

  /** Admissions still possible up to `b`: the rest of this window, and five for each
      window that can start after it. */
  function Budget(st: State, b: Time): (n: int)
    requires st.start.Some?
  {
    BURST - st.count + BURST * ((b - st.start.value) / WINDOW)
  }

  lemma {:induction false} NoneAfter(st: State, run: seq<Request>, clock: Time, a: Time, b: Time)
    requires Timed(clock, run) && b < clock
    ensures Admitted(st, run, a, b) == 0
    decreases |run|
  {
    if run != [] {
      NoneAfter(Step(st, run[0]), run[1..], run[0].at, a, b);
    }
  }

  lemma LaterWindow(start: Time, at: Time, b: Time)
    requires start <= at - WINDOW && at <= b
    ensures (b - at) / WINDOW <= (b - start) / WINDOW - 1 && (b - at) / WINDOW >= 0
  {
    assert (b - at) / WINDOW <= (b - start - WINDOW) / WINDOW;
    assert (b - start - WINDOW) / WINDOW == (b - start) / WINDOW - 1;
  }

  lemma {:induction false} WithinBudget(st: State, run: seq<Request>, clock: Time, a: Time, b: Time)
    requires st.start.Some? && Counted(st) && st.start.value <= clock <= b && Timed(clock, run)
    ensures Admitted(st, run, a, b) <= Budget(st, b)
    decreases |run|
  {
    if run != [] {
      var r := run[0];
      if r.at > b {
        NoneAfter(Step(st, r), run[1..], r.at, a, b);
      } else {
        WithinBudget(Step(st, r), run[1..], r.at, a, b);
        if st.start.value <= r.at - WINDOW {
          LaterWindow(st.start.value, r.at, b);
        }
      }
    }
  }

  lemma {:induction false} FromWindow(st: State, run: seq<Request>, clock: Time, a: Time, b: Time)
    requires Counted(st) && (st.start.Some? ==> st.start.value <= clock) && Timed(clock, run) && a <= b
    ensures Admitted(st, run, a, b) <= BURST * ((b - a) / WINDOW + 2)
    decreases |run|
  {
    if run != [] {
      var r := run[0];
      var next := Step(st, r);
      if r.at > b {
        NoneAfter(next, run[1..], r.at, a, b);
      } else if r.at < a {
        FromWindow(next, run[1..], r.at, a, b);
      } else if Admits(st, r) {
        WithinBudget(next, run[1..], r.at, a, b);
        assert (b - next.start.value) / WINDOW <= (b - a) / WINDOW + 1 by {
          assert b - next.start.value <= b - a + WINDOW;
          assert (b - a + WINDOW) / WINDOW == (b - a) / WINDOW + 1;
        }
      } else {
        FromWindow(next, run[1..], r.at, a, b);
      }
    }
  }

  /** Over every run from a fresh runtime, an interval holds at most five admissions
      for each ten seconds of it and ten more. */
  lemma RateBound(run: seq<Request>, clock: Time, a: Time, b: Time)
    requires Timed(clock, run) && a <= b
    ensures Admitted(State(None, 0), run, a, b) <= BURST * ((b - a) / WINDOW + 2)
  {
    FromWindow(State(None, 0), run, clock, a, b);
  }

  class Runtime {
    var start: Option<Time>
    var count: nat

    function View(): (r: State)
      reads this
    {
      State(start, count)
    }

    constructor ()
      ensures View() == State(None, 0)
    {
      start, count := None, 0;
    }

    /** An SSH grant request; refused with 429 when the window is full, and rolled back
        when a later check of the call raises. */
    method Grant(now: Time, completes: bool) returns (r: Outcome<bool>)
      modifies this
      ensures View() == Step(old(View()), Request(now, completes))
      ensures r.Ok? <==> Admits(old(View()), Request(now, completes))
      ensures r == Raised(429) <==> old(start).Some? && old(start).value > now - WINDOW && old(count) >= BURST
    {
      var startBefore, countBefore := start, count;
      if start.None? || start.value <= now - WINDOW {
        start, count := Some(now), 1;
      } else if count >= BURST {
        return Raised(429);
      } else {
        count := count + 1;
      }
      if !completes {
        start, count := startBefore, countBefore;
        return Raised(409);
      }
      r := Ok(true);
    }
  }
}
