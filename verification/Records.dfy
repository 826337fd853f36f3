/**
 The six-byte record framing shared by the terminal and workspace streams: an
 incremental parser over any split of the bytes, and a reader that waits for whole
 records.
 */
module Records {
  import opened Common
  import opened ByteOrder

  const HEADER := 6
  const MAX_PAYLOAD := 65530

  predicate ValidKind(kind: int)
  {
    1 <= kind <= 8 || 16 <= kind <= 20 || 32 <= kind <= 46 || kind == 48 || kind == 49
  }

  datatype Record = Record(kind: Byte, payload: seq<Byte>)

  predicate ValidRecord(r: Record)
  {
    ValidKind(r.kind) && |r.payload| <= MAX_PAYLOAD
  }

  function Encode(r: Record): (s: seq<Byte>)
    requires ValidRecord(r)
    ensures |s| == HEADER + |r.payload|
  {
    [1, r.kind] + Be32(|r.payload|) + r.payload
  }

  function EncodeAll(records: seq<Record>): (s: seq<Byte>)
    requires forall i :: 0 <= i < |records| ==> ValidRecord(records[i])
  {
    if records == [] then [] else Encode(records[0]) + EncodeAll(records[1..])
  }

  /** The payload length a header announces; none when it is refused. */
  function Announced(header: seq<Byte>): (r: Option<nat>)
    requires |header| == HEADER
    ensures r.Some? ==> r.value <= MAX_PAYLOAD && ValidKind(header[1])
  {
    var length := UnBe32(header[2..6]);
    if header[0] != 1 || length > MAX_PAYLOAD || !ValidKind(header[1]) then None else Some(length)
  }

  // ------------------------------------------------------------------- what the bytes mean

  /** The whole records at the front, what is left, and whether a header was refused. */
  datatype Scan = Scan(records: seq<Record>, rest: seq<Byte>, bad: bool)

  function ScanAll(s: seq<Byte>): (r: Scan)
    decreases |s|
  {
    if |s| < HEADER then Scan([], s, false)
    else
      var length := Announced(s[..HEADER]);
      if length.None? then Scan([], s, true)
      else if |s| < HEADER + length.value then Scan([], s, false)
      else
        var more := ScanAll(s[HEADER + length.value..]);
        Scan([Record(s[1], s[HEADER..HEADER + length.value])] + more.records, more.rest, more.bad)
  }

  /** A record begun and not finished. */
  predicate Partial(buffer: seq<Byte>)
  {
    |buffer| < HEADER || (Announced(buffer[..HEADER]).Some? && |buffer| < HEADER + Announced(buffer[..HEADER]).value)
  }

  lemma SplitAfter<T>(s: seq<T>, t: seq<T>, m: nat, n: nat)
    requires m <= n <= |s|
    ensures (s + t)[m..n] == s[m..n] && (s + t)[n..] == s[n..] + t
  {
  }

  lemma PrefixOf<T>(s: seq<T>, t: seq<T>, k: nat)
    requires k <= |s + t|
    ensures (s + t)[..k] == if k < |s| then s[..k] else s + t[..k - |s|]
  {
  }

  /** What the first six bytes announce does not depend on what follows. */
  lemma FirstHeader(s: seq<Byte>, t: seq<Byte>)
    requires |s| >= HEADER
    ensures (s + t)[..HEADER] == s[..HEADER] && (s + t)[1] == s[1]
  {
  }

  lemma {:induction false} ScanRest(s: seq<Byte>)
    ensures !ScanAll(s).bad ==> Partial(ScanAll(s).rest)
    decreases |s|
  {
    if |s| >= HEADER && Announced(s[..HEADER]).Some? && |s| >= HEADER + Announced(s[..HEADER]).value {
      ScanRest(s[HEADER + Announced(s[..HEADER]).value..]);
    }
  }

  /** Bytes that arrive later only continue from what was left: split anywhere, the
      records and the refusal come out the same. */
  lemma {:induction false} ScanAppend(s: seq<Byte>, t: seq<Byte>)
    ensures var first := ScanAll(s);
            && (first.bad ==> ScanAll(s + t).bad)
            && (!first.bad ==>
                  var after := ScanAll(first.rest + t);
                  ScanAll(s + t) == Scan(first.records + after.records, after.rest, after.bad))
    decreases |s|
  {
    if |s| >= HEADER {
      FirstHeader(s, t);
      var length := Announced(s[..HEADER]);
      if length.Some? && |s| >= HEADER + length.value {
        var n := HEADER + length.value;
        SplitAfter(s, t, HEADER, n);
        ScanAppend(s[n..], t);
        Associates([Record(s[1], s[HEADER..n])], ScanAll(s[n..]).records, ScanAll(ScanAll(s[n..]).rest + t).records);
      }
    }
  }

  /** Feeding pieces one after another, from a buffer. */
  function Feeds(buffer: seq<Byte>, pieces: seq<seq<Byte>>): (r: Scan)
    decreases |pieces|
  {
    if pieces == [] then Scan([], buffer, false)
    else
      var first := ScanAll(buffer + pieces[0]);
      if first.bad then first
      else
        var more := Feeds(first.rest, pieces[1..]);
        Scan(first.records + more.records, more.rest, more.bad)
  }

  /** However a stream is split into feeds, the outcome is that of the whole. */
  lemma {:induction false} SplitInvariant(buffer: seq<Byte>, pieces: seq<seq<Byte>>)
    requires Partial(buffer)
    ensures Feeds(buffer, pieces).bad == ScanAll(buffer + Concat(pieces)).bad
    ensures !Feeds(buffer, pieces).bad ==> Feeds(buffer, pieces) == ScanAll(buffer + Concat(pieces))
    decreases |pieces|
  {
    if pieces == [] {
      assert buffer + Concat(pieces) == buffer;
    } else {
      var s, t := buffer + pieces[0], Concat(pieces[1..]);
      assert buffer + Concat(pieces) == s + t;
      ScanAppend(s, t);
      if !ScanAll(s).bad {
        ScanRest(s);
        SplitInvariant(ScanAll(s).rest, pieces[1..]);
      }
    }
  }

  // ------------------------------------------------------------------- encoding and back

  lemma EncodedHeader(r: Record)
    requires ValidRecord(r)
    ensures var s := Encode(r); Announced(s[..HEADER]) == Some(|r.payload|) && s[1] == r.kind && s[HEADER..] == r.payload
  {
    var s := Encode(r);
    assert s[2..6] == Be32(|r.payload|) && s[..HEADER][2..6] == s[2..6];
    UnBe32Be32(|r.payload|);
  }

  lemma ScanOne(r: Record, t: seq<Byte>)
    requires ValidRecord(r)
    ensures var more := ScanAll(t); ScanAll(Encode(r) + t) == Scan([r] + more.records, more.rest, more.bad)
  {
    var s := Encode(r);
    EncodedHeader(r);
    FirstHeader(s, t);
    assert (s + t)[HEADER..|s|] == r.payload && (s + t)[|s|..] == t;
  }

  ghost predicate AllValid(records: seq<Record>)
  {
    forall i :: 0 <= i < |records| ==> ValidRecord(records[i])
  }

  /** Every list of records comes back, with nothing left over. */
  lemma {:induction false} ScanEncoded(records: seq<Record>)
    requires AllValid(records)
    ensures ScanAll(EncodeAll(records)) == Scan(records, [], false)
  {
    if records != [] {
      ScanEncoded(records[1..]);
      ScanOne(records[0], EncodeAll(records[1..]));
      assert [records[0]] + records[1..] == records;
    }
  }

  /** Records out of any split of their encoding into feeds. */
  lemma RoundTrip(records: seq<Record>, pieces: seq<seq<Byte>>)
    requires AllValid(records) && Concat(pieces) == EncodeAll(records)
    ensures Feeds([], pieces) == Scan(records, [], false)
  {
    ScanEncoded(records);
    SplitInvariant([], pieces);
    assert [] + Concat(pieces) == Concat(pieces);
  }

  lemma PartialPrefix(r: Record, k: nat)
    requires ValidRecord(r) && k < |Encode(r)|
    ensures ScanAll(Encode(r)[..k]) == Scan([], Encode(r)[..k], false)
  {
    if k >= HEADER {
      EncodedHeader(r);
      assert Encode(r)[..k][..HEADER] == Encode(r)[..HEADER];
    }
  }

  /** The first `m` records, and a strict prefix of the next one. */
  ghost predicate HeldAt(records: seq<Record>, scan: Scan, m: nat)
    requires AllValid(records)
  {
    && m <= |records| && !scan.bad && scan.records == records[..m]
    && if m == |records| then scan.rest == [] else scan.rest < Encode(records[m])
  }

  lemma HeldMore(records: seq<Record>, scan: Scan, m: nat)
    requires records != [] && AllValid(records) && AllValid(records[1..]) && HeldAt(records[1..], scan, m)
    ensures HeldAt(records, Scan([records[0]] + scan.records, scan.rest, scan.bad), m + 1)
  {
    assert [records[0]] + records[1..][..m] == records[..m + 1];
  }

  /** Part way through a valid stream, the parser has the whole records so far and
      holds a strict prefix of the next one. */
  lemma {:induction false} PrefixHeld(records: seq<Record>, k: nat) returns (m: nat)
    requires AllValid(records) && k <= |EncodeAll(records)|
    ensures HeldAt(records, ScanAll(EncodeAll(records)[..k]), m)
  {
    if records == [] {
      m := 0;
    } else {
      var e, t := Encode(records[0]), EncodeAll(records[1..]);
      PrefixOf(e, t, k);
      if k < |e| {
        m := 0;
        PartialPrefix(records[0], k);
      } else {
        m := PrefixHeld(records[1..], k - |e|);
        ScanOne(records[0], t[..k - |e|]);
        HeldMore(records, ScanAll(t[..k - |e|]), m);
        m := m + 1;
      }
    }
  }

  // ------------------------------------------------------------------- what a buffer may hold

  /** The first bytes of some record. */
  ghost predicate BeginsRecord(buffer: seq<Byte>)
  {
    exists r: Record :: ValidRecord(r) && buffer < Encode(r)
  }

  /** As far as it goes, no byte of the header is wrong. */
  predicate HeaderPlausible(buffer: seq<Byte>)
  {
    && (|buffer| >= 1 ==> buffer[0] == 1) && (|buffer| >= 2 ==> ValidKind(buffer[1]))
    && (|buffer| >= 3 ==> buffer[2] == 0) && (|buffer| >= 4 ==> buffer[3] == 0)
  }

  lemma ShortPrefix(buffer: seq<Byte>)
    requires |buffer| < HEADER && HeaderPlausible(buffer)
    ensures BeginsRecord(buffer)
  {
    var kind: Byte := if |buffer| >= 2 then buffer[1] else 1;
    var high: nat := if |buffer| >= 5 then buffer[4] else 0;
    var payload := seq(256 * high, i => 0 as Byte);
    assert buffer < Encode(Record(kind, payload));
  }

  lemma WrongHeader(buffer: seq<Byte>, r: Record)
    requires |buffer| < HEADER && ValidRecord(r) && buffer < Encode(r)
    ensures HeaderPlausible(buffer)
  {
    var s := Encode(r);
    assert s[2] == |r.payload| / 256 / 256 / 256 && s[3] == |r.payload| / 256 / 256 % 256;
    assert forall i :: 0 <= i < |buffer| ==> buffer[i] == s[i];
  }

  lemma LongPrefix(buffer: seq<Byte>)
    requires Partial(buffer) && |buffer| >= HEADER
    ensures BeginsRecord(buffer)
  {
    var length := Announced(buffer[..HEADER]).value;
    var r := Record(buffer[1], buffer[HEADER..] + seq(length - (|buffer| - HEADER), i => 0 as Byte));
    Be32UnBe32(buffer[..HEADER][2..6]);
    assert buffer[..HEADER] == [1, r.kind] + Be32(length);
    assert Encode(r)[..|buffer|] == buffer;
  }

  /** What the parser holds between feeds is the beginning of a record exactly when it
      holds a whole header or no byte of the header so far is wrong: a wrong byte is
      only refused once six have arrived. */
  lemma HeldIff(buffer: seq<Byte>)
    requires Partial(buffer)
    ensures BeginsRecord(buffer) <==> |buffer| >= HEADER || HeaderPlausible(buffer)
    ensures |buffer| < HEADER + MAX_PAYLOAD
  {
    if |buffer| >= HEADER {
      LongPrefix(buffer);
    } else if HeaderPlausible(buffer) {
      ShortPrefix(buffer);
    } else if BeginsRecord(buffer) {
      var r :| ValidRecord(r) && buffer < Encode(r);
      WrongHeader(buffer, r);
    }
  }

  /** One wrong byte is held without complaint. */
  lemma WrongByteHeld()
    ensures Feeds([], [[0]]) == Scan([], [0], false) && !BeginsRecord([0])
  {
    HeldIff([0]);
    SplitInvariant([], [[0]]);
    assert Concat([[0]]) == [0] + Concat<Byte>([]);
  }

  // ------------------------------------------------------------------- the blocking reader

  datatype Reading = Eof | Broken | Got(record: Record, rest: seq<Byte>)

  /** `read_record` on a stream that ends after `s`. */
  function ReadRecord(s: seq<Byte>): (r: Reading)
    ensures r.Got? ==> |r.rest| < |s|
  {
    if s == [] then Eof
    else if |s| < HEADER then Broken
    else
      var length := Announced(s[..HEADER]);
      if length.None? || |s| < HEADER + length.value then Broken
      else Got(Record(s[1], s[HEADER..HEADER + length.value]), s[HEADER + length.value..])
  }

  function ReadAll(s: seq<Byte>): (r: Option<seq<Record>>)
    decreases |s|
  {
    match ReadRecord(s)
    case Eof => Some([])
    case Broken => None
    case Got(record, rest) =>
      var more := ReadAll(rest);
      if more.None? then None else Some([record] + more.value)
  }

  /** Reading whole records until the end succeeds exactly when feeding the stream and
      then ending it does, with the same records. */
  lemma {:induction false} ReaderAgrees(s: seq<Byte>)
    ensures ReadAll(s) == if !ScanAll(s).bad && ScanAll(s).rest == [] then Some(ScanAll(s).records) else None
    decreases |s|
  {
    match ReadRecord(s)
    case Got(record, rest) => ReaderAgrees(rest);
    case _ =>
  }

  // ------------------------------------------------------------------- the parser

  class Parser {
    var buffer: seq<Byte>

    /** All bytes fed so far and all records handed out. */
    ghost var fed: seq<Byte>
    ghost var given: seq<Record>

    /** Between feeds: the records given and the record begun are what the bytes fed
        mean, or a header among them was refused. */
    ghost predicate Valid()
      reads this
    {
      if Refused(buffer) then ScanAll(fed).bad else Partial(buffer) && ScanAll(fed) == Scan(given, buffer, false)
    }

    constructor ()
      ensures Valid() && fed == [] && given == []
    {
      buffer, fed, given := [], [], [];
    }

    /** As much of `view` as the record begun can take; a record when it is whole. */
    method Take(view: seq<Byte>) returns (raised: bool, got: seq<Record>, left: seq<Byte>)
      requires Partial(buffer) && view != []
      modifies this`buffer
      ensures raised ==> Refused(buffer) && ScanAll(old(buffer) + view).bad
      ensures !raised ==> Partial(buffer) && |left| < |view| && Continues(old(buffer) + view, got, buffer + left)
    {
      var target := HEADER;
      if |buffer| >= HEADER {
        target := HEADER + Announced(buffer[..HEADER]).value;
      }
      var take := if target - |buffer| < |view| then target - |buffer| else |view|;
      Moved(buffer, view, take);
      got, left := [], view[take..];
      buffer := buffer + view[..take];
      if |buffer| >= HEADER {
        FirstHeader(buffer, left);
        var length := Announced(buffer[..HEADER]);
        if length.None? {
          return true, [], left;
        }
        if |buffer| == HEADER + length.value {
          var record := Record(buffer[1], buffer[HEADER..]);
          Finished(buffer, left, record);
          got := [record];
          buffer := [];
        }
      }
      raised := false;
    }

    /** The part of a feed that fills the buffer. */
    method Fill(data: seq<Byte>) returns (raised: bool, records: seq<Record>)
      requires Partial(buffer)
      modifies this`buffer
      ensures raised == ScanAll(old(buffer) + data).bad
      ensures raised ==> Refused(buffer) && records == []
      ensures !raised ==> Partial(buffer) && ScanAll(old(buffer) + data) == Scan(records, buffer, false)
    {
      raised, records := false, [];
      var view := data;
      ghost var whole := buffer + data;
      while view != []
        invariant Partial(buffer) && Continues(whole, records, buffer + view)
        decreases |view|
      {
        ghost var before := buffer + view;
        var got, left;
        raised, got, left := Take(view);
        if raised {
          return true, [];
        }
        ContinuesOn(whole, records, before, got, buffer + left);
        records, view := records + got, left;
      }
      assert buffer + view == buffer;
    }

    /** Raises exactly when there is something to read after, or in, a refused header;
        otherwise hands out the next records of the stream fed so far. */
    method Feed(data: seq<Byte>) returns (raised: bool, records: seq<Record>)
      requires Valid()
      modifies this
      ensures Valid() && |buffer| < HEADER + MAX_PAYLOAD && fed == old(fed) + data
      ensures raised <==> data != [] && ScanAll(fed).bad
      ensures given == old(given) + records && (raised ==> records == [])
      ensures !ScanAll(fed).bad ==> ScanAll(fed) == Scan(given, buffer, false)
      ensures (raised ==> Refused(buffer)) && (Refused(old(buffer)) ==> buffer == old(buffer))
    {
      ScanAppend(fed, data);
      assert data == [] ==> fed + data == fed;
      fed := fed + data;
      if Refused(buffer) {
        return data != [], [];
      }
      raised, records := Fill(data);
      given := given + records;
    }

    /** The end of the stream: raises exactly when the bytes fed are not whole records,
        and otherwise every record of the stream was handed out. */
    method Eof() returns (raised: bool)
      requires Valid()
      ensures raised <==> ReadAll(fed) == None
      ensures !raised ==> ReadAll(fed) == Some(given)
    {
      ReaderAgrees(fed);
      raised := buffer != [];
    }
  }

  /** `whole` means `records` followed by whatever `left` means. */
  predicate Continues(whole: seq<Byte>, records: seq<Record>, left: seq<Byte>)
  {
    var more := ScanAll(left);
    ScanAll(whole) == Scan(records + more.records, more.rest, more.bad)
  }

  lemma ContinuesOn(whole: seq<Byte>, a: seq<Record>, left: seq<Byte>, b: seq<Record>, rest: seq<Byte>)
    requires Continues(whole, a, left) && Continues(left, b, rest)
    ensures Continues(whole, a + b, rest)
  {
    Associates(a, b, ScanAll(rest).records);
  }

  predicate Refused(buffer: seq<Byte>)
  {
    |buffer| == HEADER && Announced(buffer[..HEADER]).None?
  }

  lemma Moved(buffer: seq<Byte>, view: seq<Byte>, take: nat)
    requires take <= |view|
    ensures (buffer + view[..take]) + view[take..] == buffer + view
    ensures |buffer| >= HEADER ==> (buffer + view[..take])[..HEADER] == buffer[..HEADER]
  {
    assert view[..take] + view[take..] == view;
    Associates(buffer, view[..take], view[take..]);
  }

  lemma Finished(buffer: seq<Byte>, view: seq<Byte>, record: Record)
    requires |buffer| >= HEADER && Announced(buffer[..HEADER]) == Some(|buffer| - HEADER)
    requires record == Record(buffer[1], buffer[HEADER..])
    ensures var more := ScanAll([] + view);
            ScanAll(buffer + view) == Scan([record] + more.records, more.rest, more.bad)
  {
    FirstHeader(buffer, view);
    assert [] + view == view;
    assert (buffer + view)[HEADER..|buffer|] == buffer[HEADER..] && (buffer + view)[|buffer|..] == view;
  }
}
