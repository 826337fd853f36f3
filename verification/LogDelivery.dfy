/**
 Job logs from the Worker to the Scheduler: lines wait in a buffer, are cut into
 requests that fit the Scheduler's body limit, and stay buffered until acknowledged.
 */
module LogDelivery {
  import opened Common

  type Time = real

  /** A character by its code point. */
  type Code = c: int | 0 <= c < 0x11_0000
  type Line = seq<Code>

  const LINE_LIMIT := 4096
  const BATCH_LINES := 100
  const BATCH_SIZE := 60000
  const BODY_LIMIT := 65536

  // ------------------------------------------------------------------- ASCII JSON

  function HexDigit(n: nat): (r: char)
    requires n < 16
  {
    "0123456789abcdef"[n]
  }

  /** A UTF-16 unit escaped in six characters. */
  function Unit(n: nat): (r: string)
    requires n < 0x1_0000
    ensures |r| == 6
  {
    "\\u" + [HexDigit(n / 4096), HexDigit(n / 256 % 16), HexDigit(n / 16 % 16), HexDigit(n % 16)]
  }

  /** A character inside a JSON string: as itself, by a two-character escape, by one
      unit, or by a surrogate pair. */
  function Escape(c: Code): (r: string)
    ensures 1 <= |r| <= 12
  {
    if c == 0x22 then "\\\""
    else if c == 0x5C then "\\\\"
    else if c == 0x0A then "\\n"
    else if c == 0x0D then "\\r"
    else if c == 0x09 then "\\t"
    else if c == 0x08 then "\\b"
    else if c == 0x0C then "\\f"
    else if 0x20 <= c <= 0x7E then [c as char]
    else if c < 0x1_0000 then Unit(c)
    else Unit(0xD800 + (c - 0x1_0000) / 0x400) + Unit(0xDC00 + (c - 0x1_0000) % 0x400)
  }

  function Escapes(line: Line): (r: string)
    ensures |line| <= |r| <= 12 * |line|
  {
    if line == [] then "" else Escape(line[0]) + Escapes(line[1..])
  }

  function JsonLine(line: Line): (r: string)
  {
    "\"" + Escapes(line) + "\""
  }

  predicate Ascii(s: string)
  {
    forall i :: 0 <= i < |s| ==> ' ' <= s[i] <= '~'
  }

  lemma UnitAscii(n: nat)
    requires n < 0x1_0000
    ensures Ascii(Unit(n))
  {
    assert forall k :: 0 <= k < 16 ==> ' ' <= "0123456789abcdef"[k] <= '~';
  }

  lemma PairAscii(a: string, b: string)
    requires Ascii(a) && Ascii(b)
    ensures Ascii(a + b)
  {
  }

  lemma EscapeAscii(c: Code)
    ensures Ascii(Escape(c))
  {
    if c >= 0x1_0000 {
      var high, low := 0xD800 + (c - 0x1_0000) / 0x400, 0xDC00 + (c - 0x1_0000) % 0x400;
      UnitAscii(high);
      UnitAscii(low);
      PairAscii(Unit(high), Unit(low));
    } else if c < 0x20 || c > 0x7E {
      UnitAscii(c);
    } else {
      assert ' ' <= c as char <= '~';
    }
  }

  /** The escaped line is ASCII, so its characters are its bytes. */
  lemma {:induction false} LineAscii(line: Line)
    ensures Ascii(Escapes(line))
  {
    if line != [] {
      LineAscii(line[1..]);
      EscapeAscii(line[0]);
      PairAscii(Escape(line[0]), Escapes(line[1..]));
    }
  }

  function Elements(lines: seq<Line>): (r: string)
  {
    if lines == [] then ""
    else if |lines| == 1 then JsonLine(lines[0])
    else JsonLine(lines[0]) + ", " + Elements(lines[1..])
  }

  function JsonLines(lines: seq<Line>): (r: string)
  {
    "[" + Elements(lines) + "]"
  }

  /** What the loop counts for a line: its JSON and two characters. */
  function Weight(line: Line): (r: nat)
    ensures r <= 12 * |line| + 4
  {
    |JsonLine(line)| + 2
  }

  function Weights(lines: seq<Line>): (r: nat)
  {
    if lines == [] then 0 else Weight(lines[0]) + Weights(lines[1..])
  }

  lemma {:induction false} WeightsSnoc(lines: seq<Line>, line: Line)
    ensures Weights(lines + [line]) == Weights(lines) + Weight(line)
  {
    if lines != [] {
      assert (lines + [line])[1..] == lines[1..] + [line];
      WeightsSnoc(lines[1..], line);
    }
  }

  /** The running count is exactly the length of the JSON array. */
  lemma {:induction false} WeightsExact(lines: seq<Line>)
    requires lines != []
    ensures |JsonLines(lines)| == Weights(lines)
  {
    if |lines| > 1 {
      WeightsExact(lines[1..]);
    }
  }

  // ------------------------------------------------------------------- the request body

  /** The fence of an assignment; identifiers are 36-character UUID texts. */
  datatype Fence = Fence(instance: string, assignment: string, token: string, generation: string)

  predicate ValidFence(f: Fence)
  {
    |f.instance| == 36 && |f.assignment| == 36 && |f.token| == 36 && |f.generation| <= 20
  }

  /** The body as it goes over the wire; `generation` is a number or null. */
  function Body(f: Fence, lines: seq<Line>): (r: string)
  {
    "{\"instance_id\": \"" + f.instance + "\", \"assignment_id\": \"" + f.assignment + "\", \"attempt_token\": \"" + f.token
    + "\", \"generation\": " + f.generation + ", \"lines\": " + JsonLines(lines) + "}"
  }

  predicate FitsBatch(lines: seq<Line>)
  {
    1 <= |lines| <= BATCH_LINES && Weights(lines) <= BATCH_SIZE
  }

  /** A batch the loop sends is accepted by the Scheduler's body limit. */
  lemma BodyFits(f: Fence, lines: seq<Line>)
    requires ValidFence(f) && FitsBatch(lines)
    ensures |Body(f, lines)| <= BODY_LIMIT
  {
    WeightsExact(lines);
  }

  // ------------------------------------------------------------------- cutting into batches

  function Cut(line: Line): (r: Line)
    ensures |r| <= LINE_LIMIT && r <= line
  {
    if |line| > LINE_LIMIT then line[..LINE_LIMIT] else line
  }

  function CutAll(lines: seq<Line>): (r: seq<Line>)
  {
    seq(|lines|, i requires 0 <= i < |lines| => Cut(lines[i]))
  }

  ghost predicate GoodBatches(batches: seq<seq<Line>>)
  {
    forall i :: 0 <= i < |batches| ==> FitsBatch(batches[i]) && ShortLines(batches[i])
  }

  ghost predicate ShortLines(batch: seq<Line>)
  {
    forall j :: 0 <= j < |batch| ==> |batch[j]| <= LINE_LIMIT
  }

  /** How the Scheduler answers the calls of one send: acknowledged, refused before it
      took the lines, or taken with the answer lost. */
  datatype Answer = Acknowledged | Refused | Lost

  function Took(batch: seq<Line>, a: Answer): (r: seq<seq<Line>>)
  {
    if a == Refused then [] else [batch]
  }

  lemma OneMoreShort(batch: seq<Line>, line: Line)
    requires ShortLines(batch) && |line| <= LINE_LIMIT
    ensures ShortLines(batch + [line])
  {
  }

  lemma OneMoreLine(batch: seq<Line>, line: Line, size: nat, weight: nat)
    requires size == Weights(batch) && weight == Weight(line) && |line| <= LINE_LIMIT
    requires batch == [] || (|batch| < BATCH_LINES && size + weight <= BATCH_SIZE)
    ensures Weights(batch + [line]) == size + weight && FitsBatch(batch + [line])
  {
    WeightsSnoc(batch, line);
  }

  /** A batch being gathered, and the length of its JSON. */
  ghost predicate Gathering(batch: seq<Line>, size: nat)
  {
    size == Weights(batch) && ShortLines(batch) && (batch == [] || FitsBatch(batch))
  }

  /** Take the line into the batch, unless the batch must go first. */
  method Gather(batch: seq<Line>, size: nat, line: Line) returns (full: bool, newSize: nat)
    requires Gathering(batch, size) && |line| <= LINE_LIMIT
    ensures full ==> batch != []
    ensures !full ==> Gathering(batch + [line], newSize)
  {
    var weight := Weight(line);
    full := batch != [] && (|batch| >= BATCH_LINES || size + weight > BATCH_SIZE);
    newSize := size + weight;
    if !full {
      OneMoreShort(batch, line);
      OneMoreLine(batch, line, size, weight);
    }
  }

  lemma Gathered(taken: seq<seq<Line>>, batch: seq<Line>, lines: seq<Line>, i: nat)
    requires i < |lines| && Concat(taken) + batch == CutAll(lines)[..i]
    ensures Concat(taken) + (batch + [Cut(lines[i])]) == CutAll(lines)[..i + 1]
  {
    Associates(Concat(taken), batch, [Cut(lines[i])]);
    assert CutAll(lines)[..i + 1] == CutAll(lines)[..i] + [Cut(lines[i])];
  }

  /** The batches acknowledged so far. */
  ghost predicate Sending(lines: seq<Line>, i: nat, taken: seq<seq<Line>>, batch: seq<Line>, answer: nat -> Answer)
  {
    && i <= |lines| && Concat(taken) + batch == CutAll(lines)[..i] && GoodBatches(taken)
    && forall k :: 0 <= k < |taken| ==> answer(k) == Acknowledged
  }

  /** All of `tried` was put into requests, only the last of them not acknowledged; what
      the Scheduler took is all of it or all but the last. */
  ghost predicate Failed(lines: seq<Line>, taken: seq<seq<Line>>, tried: seq<seq<Line>>, answer: nat -> Answer)
  {
    && tried != [] && GoodBatches(tried) && Concat(tried) <= CutAll(lines)
    && (forall k :: 0 <= k < |tried| - 1 ==> answer(k) == Acknowledged) && answer(|tried| - 1) != Acknowledged
    && taken == if answer(|tried| - 1) == Lost then tried else tried[..|tried| - 1]
  }

  lemma GoodSnoc(taken: seq<seq<Line>>, batch: seq<Line>, size: nat)
    requires GoodBatches(taken) && Gathering(batch, size) && batch != []
    ensures GoodBatches(taken + [batch])
  {
    var tried := taken + [batch];
    forall i | 0 <= i < |tried| ensures FitsBatch(tried[i]) && ShortLines(tried[i]) {
      assert i < |taken| ==> tried[i] == taken[i];
    }
  }

  lemma PrefixSnoc<T>(taken: seq<seq<T>>, batch: seq<T>, whole: seq<T>, i: nat)
    requires i <= |whole| && Concat(taken) + batch == whole[..i]
    ensures Concat(taken + [batch]) == whole[..i] && Concat(taken + [batch]) + [] == whole[..i]
    ensures Concat(taken + [batch]) <= whole
  {
    ConcatSnoc(taken, batch);
  }

  lemma TookIs(taken: seq<seq<Line>>, batch: seq<Line>, a: Answer)
    ensures var tried := taken + [batch];
            a != Acknowledged ==> taken + Took(batch, a) == if a == Lost then tried else tried[..|tried| - 1]
  {
    assert (taken + [batch])[..|taken|] == taken && taken + [] == taken;
  }

  lemma BatchGone(lines: seq<Line>, i: nat, taken: seq<seq<Line>>, batch: seq<Line>, size: nat, answer: nat -> Answer)
    requires Sending(lines, i, taken, batch, answer) && Gathering(batch, size) && batch != []
    ensures answer(|taken|) == Acknowledged ==> Sending(lines, i, taken + [batch], [], answer)
    ensures answer(|taken|) != Acknowledged ==>
              Failed(lines, taken + Took(batch, answer(|taken|)), taken + [batch], answer)
  {
    GoodSnoc(taken, batch, size);
    PrefixSnoc(taken, batch, CutAll(lines), i);
    TookIs(taken, batch, answer(|taken|));
  }

  lemma LineGathered(lines: seq<Line>, i: nat, taken: seq<seq<Line>>, batch: seq<Line>, answer: nat -> Answer)
    requires i < |lines| && Sending(lines, i, taken, batch, answer)
    ensures Sending(lines, i + 1, taken, batch + [Cut(lines[i])], answer)
  {
    Gathered(taken, batch, lines, i);
  }

  /** The batch goes into a request. */
  method Dispatch(
    lines: seq<Line>, i: nat, sofar: seq<seq<Line>>, batch: seq<Line>, ghost size: nat, answer: nat -> Answer)
    returns (ok: bool, taken: seq<seq<Line>>, ghost tried: seq<seq<Line>>)
    requires Sending(lines, i, sofar, batch, answer) && Gathering(batch, size) && batch != []
    ensures tried == sofar + [batch]
    ensures ok ==> taken == tried && Sending(lines, i, taken, [], answer)
    ensures !ok ==> Failed(lines, taken, tried, answer)
  {
    var a := answer(|sofar|);
    BatchGone(lines, i, sofar, batch, size, answer);
    ok, tried := a == Acknowledged, sofar + [batch];
    taken := if ok then sofar + [batch] else sofar + Took(batch, a);
  }

  /** `send_logs`.  `tried` is every batch put into a request, `taken` those the
      Scheduler took.  All acknowledged: the batches are the lines, each cut to 4096
      characters, in order. */
  method SendLogs(lines: seq<Line>, fenced: bool, answer: nat -> Answer)
    returns (ok: bool, taken: seq<seq<Line>>, ghost tried: seq<seq<Line>>)
    ensures ok ==> taken == tried && Concat(taken) == CutAll(lines) && GoodBatches(taken)
    ensures ok ==> forall k :: 0 <= k < |taken| ==> answer(k) == Acknowledged
    ensures !ok && fenced ==> Failed(lines, taken, tried, answer)
    ensures lines != [] && !fenced ==> !ok && taken == tried == []
    ensures lines == [] ==> ok
  {
    taken, tried := [], [];
    if lines == [] {
      return true, [], [];
    }
    if !fenced {
      return false, [], [];
    }
    var batch: seq<Line> := [];
    var size, i := 0, 0;
    while i < |lines|
      invariant Sending(lines, i, taken, batch, answer) && Gathering(batch, size) && (i > 0 ==> batch != [])
      decreases |lines| - i
    {
      var line := Cut(lines[i]);
      var full, newSize := Gather(batch, size, line);
      if full {
        ok, taken, tried := Dispatch(lines, i, taken, batch, size, answer);
        if !ok {
          return;
        }
        batch := [];
        full, newSize := Gather(batch, 0, line);
      }
      LineGathered(lines, i, taken, batch, answer);
      batch, size := batch + [line], newSize;
      i := i + 1;
    }
    ok, taken, tried := Dispatch(lines, i, taken, batch, size, answer);
    assert CutAll(lines)[..i] == CutAll(lines);
    if ok {
      assert Concat(taken) + [] == Concat(taken);
    }
  }

  lemma TakenPrefix(taken: seq<seq<Line>>, tried: seq<seq<Line>>)
    requires taken <= tried
    ensures Concat(taken) <= Concat(tried)
  {
    ConcatAppend(taken, tried[|taken|..]);
    assert taken + tried[|taken|..] == tried;
  }

  // ------------------------------------------------------------------- the buffer

  /** A job's buffer, and the history it stands for: every line logged, those
      acknowledged, and the lines the Scheduler has taken. */
  datatype World = World(buffer: seq<Line>, last: Option<Time>, logged: seq<Line>, acked: seq<Line>, taken: seq<Line>)

  const FRESH := World([], None, [], [], [])

  datatype Sent = Sent(ok: bool, taken: seq<Line>)

  /** What `SendLogs` can come to. */
  predicate Possible(lines: seq<Line>, sent: Sent)
  {
    if sent.ok then sent.taken == CutAll(lines) else sent.taken <= CutAll(lines)
  }

  datatype Op = Append(line: Line) | Flush(force: bool, now: Time, interval: Time, sent: Sent)

  predicate Throttled(last: Option<Time>, now: Time, interval: Time, force: bool)
  {
    !force && last.Some? && now - last.value < interval
  }

  /** A flush that sends. */
  predicate Effective(w: World, op: Op)
  {
    op.Flush? && w.buffer != [] && !Throttled(w.last, op.now, op.interval, op.force) && Possible(w.buffer, op.sent)
  }

  function Step(w: World, op: Op): (r: World)
  {
    if op.Append? then w.(buffer := w.buffer + [op.line], logged := w.logged + [op.line])
    else if !Effective(w, op) then w
    else if op.sent.ok then
      w.(buffer := [], last := Some(op.now), acked := w.acked + w.buffer, taken := w.taken + op.sent.taken)
    else w.(last := Some(op.now), taken := w.taken + op.sent.taken)
  }

  function Run(w: World, ops: seq<Op>): (r: World)
    decreases |ops|
  {
    if ops == [] then w else Run(Step(w, ops[0]), ops[1..])
  }

  lemma CutAllAppend(a: seq<Line>, b: seq<Line>)
    ensures CutAll(a + b) == CutAll(a) + CutAll(b)
  {
  }

  // ------------------------------------------------------------------- nothing lost, nothing late

  /** `a` can be had from `b` by leaving elements out. */
  predicate Subsequence<T(==)>(a: seq<T>, b: seq<T>)
    decreases |b|
  {
    a == [] || (b != [] && if a[|a| - 1] == b[|b| - 1] then Subsequence(a[..|a| - 1], b[..|b| - 1])
                           else Subsequence(a, b[..|b| - 1]))
  }

  lemma {:induction false} SubsequenceDrop<T>(a: seq<T>, b: seq<T>)
    requires a != [] && Subsequence(a, b)
    ensures Subsequence(a[..|a| - 1], b)
    decreases |b|, 0
  {
    if a[|a| - 1] == b[|b| - 1] {
      SubsequenceOneMore(a[..|a| - 1], b[..|b| - 1], b[|b| - 1]);
      assert b[..|b| - 1] + [b[|b| - 1]] == b;
    } else {
      SubsequenceDrop(a, b[..|b| - 1]);
      SubsequenceOneMore(a[..|a| - 1], b[..|b| - 1], b[|b| - 1]);
      assert b[..|b| - 1] + [b[|b| - 1]] == b;
    }
  }

  /** More on the right changes nothing. */
  lemma {:induction false} SubsequenceOneMore<T>(a: seq<T>, b: seq<T>, x: T)
    requires Subsequence(a, b)
    ensures Subsequence(a, b + [x])
    decreases |b|, 1
  {
    assert (b + [x])[..|b|] == b;
    if a != [] && a[|a| - 1] == x {
      SubsequenceDrop(a, b);
    }
  }

  lemma {:induction false} SubsequenceMore<T>(a: seq<T>, b: seq<T>, more: seq<T>)
    requires Subsequence(a, b)
    ensures Subsequence(a, b + more)
    decreases |more|
  {
    if more == [] {
      assert b + more == b;
    } else {
      SubsequenceMore(a, b, more[..|more| - 1]);
      SubsequenceOneMore(a, b + more[..|more| - 1], more[|more| - 1]);
      assert (b + more[..|more| - 1]) + [more[|more| - 1]] == b + more;
    }
  }

  lemma {:induction false} SubsequenceBoth<T>(a: seq<T>, b: seq<T>, both: seq<T>)
    requires Subsequence(a, b)
    ensures Subsequence(a + both, b + both)
    decreases |both|
  {
    if both == [] {
      assert a + both == a && b + both == b;
    } else {
      var n := |both| - 1;
      SubsequenceBoth(a, b, both[..n]);
      assert (a + both)[..|a| + n] == a + both[..n] && (b + both)[..|b| + n] == b + both[..n];
    }
  }

  ghost predicate Sound(w: World)
  {
    w.logged == w.acked + w.buffer && Subsequence(CutAll(w.acked), w.taken)
  }

  lemma StepSound(w: World, op: Op)
    requires Sound(w)
    ensures Sound(Step(w, op))
  {
    if op.Append? {
      Associates(w.acked, w.buffer, [op.line]);
    } else if Effective(w, op) {
      if op.sent.ok {
        CutAllAppend(w.acked, w.buffer);
        SubsequenceBoth(CutAll(w.acked), w.taken, op.sent.taken);
        assert (w.acked + w.buffer) + [] == w.acked + w.buffer;
      } else {
        SubsequenceMore(CutAll(w.acked), w.taken, op.sent.taken);
      }
    }
  }

  lemma {:induction false} RunSound(w: World, ops: seq<Op>)
    requires Sound(w)
    ensures Sound(Run(w, ops))
    decreases |ops|
  {
    if ops != [] {
      StepSound(w, ops[0]);
      RunSound(Step(w, ops[0]), ops[1..]);
    }
  }

  /** Over every run of appends and flushes, whatever sends fail: the acknowledged
      lines followed by the buffer are all the lines logged, in order, and the
      Scheduler has taken every acknowledged line at least once, in order. */
  lemma NothingLost(ops: seq<Op>)
    ensures var w := Run(FRESH, ops); w.logged == w.acked + w.buffer && Subsequence(CutAll(w.acked), w.taken)
  {
    assert CutAll([]) == [];
    RunSound(FRESH, ops);
  }

  // ------------------------------------------------------------------- sent twice

  /** A failed flush that got lines through. */
  predicate Leaks(w: World, op: Op)
  {
    Effective(w, op) && !op.sent.ok && op.sent.taken != []
  }

  /** Every flush that sends and fails gets nothing through. */
  predicate Tight(w: World, ops: seq<Op>)
    decreases |ops|
  {
    ops == [] || (!Leaks(w, ops[0]) && Tight(Step(w, ops[0]), ops[1..]))
  }

  lemma {:induction false} ExcessStays(w: World, ops: seq<Op>)
    requires |w.acked| < |w.taken|
    ensures |Run(w, ops).acked| < |Run(w, ops).taken|
    decreases |ops|
  {
    if ops != [] {
      ExcessStays(Step(w, ops[0]), ops[1..]);
    }
  }

  lemma {:induction false} ExactIff(w: World, ops: seq<Op>)
    requires w.taken == CutAll(w.acked)
    ensures Run(w, ops).taken == CutAll(Run(w, ops).acked) <==> Tight(w, ops)
    decreases |ops|
  {
    if ops != [] {
      var u := Step(w, ops[0]);
      if Leaks(w, ops[0]) {
        ExcessStays(u, ops[1..]);
      } else {
        CutAllAppend(w.acked, w.buffer);
        assert w.taken + [] == w.taken;
        ExactIff(u, ops[1..]);
      }
    }
  }

  /** The Scheduler has exactly the acknowledged lines exactly when no flush that
      failed got lines through. */
  lemma OnceIff(ops: seq<Op>)
    ensures Run(FRESH, ops).taken == CutAll(Run(FRESH, ops).acked) <==> Tight(FRESH, ops)
  {
    assert CutAll([]) == [];
    ExactIff(FRESH, ops);
  }

  function Places(from: nat, count: nat): (r: seq<nat>)
  {
    seq(count, i requires 0 <= i < count => from + i)
  }

  /** For each line the Scheduler takes during a run, its place in the log. */
  function Delivered(w: World, ops: seq<Op>): (r: seq<nat>)
    decreases |ops|
  {
    if ops == [] then []
    else (if Effective(w, ops[0]) then Places(|w.acked|, |ops[0].sent.taken|) else [])
           + Delivered(Step(w, ops[0]), ops[1..])
  }

  ghost predicate Distinct(places: seq<nat>)
  {
    forall i, j :: 0 <= i < j < |places| ==> places[i] != places[j]
  }

  /** Some flush of the run gets a line through. */
  predicate Reaches(w: World, ops: seq<Op>)
    decreases |ops|
  {
    ops != [] && ((Effective(w, ops[0]) && ops[0].sent.taken != []) || Reaches(Step(w, ops[0]), ops[1..]))
  }

  /** A failed flush gets lines through and a later one gets lines through again. */
  predicate LeaksThenReaches(w: World, ops: seq<Op>)
    decreases |ops|
  {
    ops != [] && ((Leaks(w, ops[0]) && Reaches(Step(w, ops[0]), ops[1..])) || LeaksThenReaches(Step(w, ops[0]), ops[1..]))
  }

  lemma {:induction false} FirstReached(w: World, ops: seq<Op>)
    ensures Reaches(w, ops) <==> Delivered(w, ops) != []
    ensures Reaches(w, ops) ==> Delivered(w, ops)[0] == |w.acked|
    ensures forall i :: 0 <= i < |Delivered(w, ops)| ==> |w.acked| <= Delivered(w, ops)[i]
    decreases |ops|
  {
    if ops != [] {
      var u, rest := Step(w, ops[0]), ops[1..];
      FirstReached(u, rest);
      if Effective(w, ops[0]) {
        var front := Places(|w.acked|, |ops[0].sent.taken|);
        assert Delivered(w, ops) == front + Delivered(u, rest);
        assert ops[0].sent.ok ==> ops[0].sent.taken != [];
      } else {
        assert Delivered(w, ops) == Delivered(u, rest);
      }
    }
  }

  lemma DistinctParts(a: seq<nat>, b: seq<nat>)
    ensures Distinct(a + b) ==> Distinct(b)
    ensures Distinct(a) && Distinct(b) && (forall i, j :: 0 <= i < |a| && 0 <= j < |b| ==> a[i] < b[j]) ==> Distinct(a + b)
  {
    assert forall j :: 0 <= j < |b| ==> (a + b)[|a| + j] == b[j];
  }

  /** A line reaches the Scheduler twice exactly when a failed flush gets lines through
      and some later flush gets lines through. */
  lemma {:induction false} TwiceIff(w: World, ops: seq<Op>)
    ensures !Distinct(Delivered(w, ops)) <==> LeaksThenReaches(w, ops)
    decreases |ops|
  {
    if ops != [] {
      var op, u, rest := ops[0], Step(w, ops[0]), ops[1..];
      TwiceIff(u, rest);
      FirstReached(u, rest);
      var front, back := if Effective(w, op) then Places(|w.acked|, |op.sent.taken|) else [], Delivered(u, rest);
      assert Delivered(w, ops) == front + back;
      DistinctParts(front, back);
      if Leaks(w, op) && Reaches(u, rest) {
        assert (front + back)[0] == |w.acked| == (front + back)[|front|];
      } else if Leaks(w, op) {
        assert front + back == front;
      } else if Effective(w, op) && op.sent.ok {
        assert |u.acked| == |w.acked| + |front|;
      } else {
        assert front == [] && front + back == back;
      }
    }
  }

  lemma {:induction false} LogGrows(w: World, ops: seq<Op>)
    ensures w.logged <= Run(w, ops).logged
    decreases |ops|
  {
    if ops != [] {
      LogGrows(Step(w, ops[0]), ops[1..]);
    }
  }

  lemma TakenHere(w: World, op: Op, i: nat)
    requires Sound(w) && Effective(w, op) && i < |op.sent.taken|
    ensures |w.acked| + i < |w.logged| && Step(w, op).taken[|w.taken| + i] == Cut(w.logged[|w.acked| + i])
    ensures Step(w, op).logged == w.logged
  {
    assert op.sent.taken <= CutAll(w.buffer);
    assert op.sent.taken[i] == CutAll(w.buffer)[i];
    assert w.logged[|w.acked| + i] == w.buffer[i];
  }

  /** The places are right: what the Scheduler takes is the logged lines at them, cut. */
  lemma {:induction false} DeliveredLines(w: World, ops: seq<Op>, i: nat)
    requires Sound(w) && i < |Delivered(w, ops)|
    ensures var end := Run(w, ops);
            && |end.taken| == |w.taken| + |Delivered(w, ops)| && Delivered(w, ops)[i] < |end.logged|
            && end.taken[|w.taken| + i] == Cut(end.logged[Delivered(w, ops)[i]])
    decreases |ops|
  {
    var op, u, rest := ops[0], Step(w, ops[0]), ops[1..];
    TakenGrows(w, ops);
    if Effective(w, op) && i < |op.sent.taken| {
      TakenHere(w, op, i);
      LogGrows(u, rest);
      TakenGrows(u, rest);
      assert Delivered(w, ops)[i] == Places(|w.acked|, |op.sent.taken|)[i];
    } else {
      StepSound(w, op);
      var n := if Effective(w, op) then |op.sent.taken| else 0;
      assert Delivered(w, ops)[i] == Delivered(u, rest)[i - n];
      DeliveredLines(u, rest, i - n);
    }
  }

  lemma {:induction false} TakenGrows(w: World, ops: seq<Op>)
    ensures w.taken <= Run(w, ops).taken && |Run(w, ops).taken| == |w.taken| + |Delivered(w, ops)|
    decreases |ops|
  {
    if ops != [] {
      TakenGrows(Step(w, ops[0]), ops[1..]);
    }
  }

  /** And that happens: a line is delivered twice and acknowledged once. */
  lemma CanRepeat()
    ensures exists ops :: Run(FRESH, ops).taken == [[65], [65]] && Run(FRESH, ops).acked == [[65]]
  {
    var line: Line := [65];
    var lines := [line];
    assert CutAll(lines) == lines;
    var a, b, c := Append(line), Flush(true, 0.0, 1.0, Sent(false, lines)), Flush(true, 1.0, 1.0, Sent(true, lines));
    var w1 := Step(FRESH, a);
    assert w1.buffer == lines;
    var w2 := Step(w1, b);
    assert w2.buffer == lines && w2.taken == lines;
    var w3 := Step(w2, c);
    assert w3.acked == [] + lines && w3.taken == lines + lines;
    assert [a, b, c][1..] == [b, c] && [b, c][1..] == [c] && [c][1..] == [];
    assert Run(w2, [c]) == Run(w3, []) && Run(w1, [b, c]) == Run(w2, [c]);
    assert Run(FRESH, [a, b, c]) == w3;
  }

  class JobLog {
    var buffer: seq<Line>
    var last: Option<Time>
    ghost var logged: seq<Line>
    ghost var acked: seq<Line>
    ghost var taken: seq<Line>

    ghost function View(): (r: World)
      reads this
    {
      World(buffer, last, logged, acked, taken)
    }

    constructor ()
      ensures View() == FRESH
    {
      buffer, last, logged, acked, taken := [], None, [], [], [];
    }

    method Log(line: Line)
      modifies this
      ensures View() == Step(old(View()), Append(line))
    {
      buffer := buffer + [line];
      logged := logged + [line];
    }

    method FlushPush(force: bool, now: Time, interval: Time, fenced: bool, answer: nat -> Answer) returns (ghost sent: Sent)
      modifies this
      ensures View() == Step(old(View()), Flush(force, now, interval, sent))
      ensures old(buffer) != [] && !Throttled(old(last), now, interval, force) ==> Possible(old(buffer), sent)
    {
      sent := Sent(false, []);
      if buffer == [] || Throttled(last, now, interval, force) {
        return;
      }
      var lines := buffer;
      buffer := [];
      last := Some(now);
      var ok, batches, tried := SendLogs(lines, fenced, answer);
      if !ok && fenced {
        TakenPrefix(batches, tried);
      }
      sent := Sent(ok, Concat(batches));
      taken := taken + Concat(batches);
      if ok {
        acked := acked + lines;
      } else {
        buffer := lines + buffer;
        assert lines + [] == lines;
      }
    }
  }
}
