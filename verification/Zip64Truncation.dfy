/**
 What a download that was cut short looks like to a reader.  It is meant to be seen as
 broken.  A reader goes by the end of what it has, and that end is whatever the failing
 object delivered last.
 */
module Zip64Truncation {
  import opened Common
  import opened ByteOrder
  import opened Zip64
  import opened Zip64Theorems
  import opened Zip64Writer

  // ------------------------------------------------------------------- what a reader goes by

  /** The last 42 bytes are a locator and an end record, the ZIP64 record they lead to is
      there, and the three agree on `count` files listed from `start`. */
  predicate TailLeads(z: seq<Byte>, count: nat, start: nat)
  {
    && |z| >= 42
    && var e, l := |z| - 22, |z| - 42;
    && var r := Cell(z, l + 8, 8);
    && Cell(z, e, 4) == END_SIG && Cell(z, e + 20, 2) == 0 && Cell(z, l, 4) == LOCATOR_SIG && Cell(z, l + 16, 4) == 1
    && r + 56 <= |z| && Cell(z, r, 4) == END64_SIG && Cell(z, r + 24, 8) == count && Cell(z, r + 32, 8) == count
    && Cell(z, r + 40, 8) + start == r && Cell(z, r + 48, 8) == start
    && Cell(z, e + 8, 2) == Shown(count) && Cell(z, e + 10, 2) == Shown(count)
  }

  /** Directory entries from `at` on, each leading to intact contents. */
  predicate Chained(entry: nat -> Option<Info>, intact: Info -> bool, at: nat, infos: seq<Info>)
    decreases |infos|
  {
    infos == []
    || (entry(at) == Some(infos[0]) && intact(infos[0]) && Chained(entry, intact, infos[0].next, infos[1..]))
  }

  function EntryAt(z: seq<Byte>): (r: nat -> Option<Info>)
  {
    (at: nat) => ReadEntry(SourceOf(z), at)
  }

  function Intact(z: seq<Byte>, checksum: Checksum): (r: Info -> bool)
  {
    (info: Info) => ReadLocal(SourceOf(z), info, checksum).Some?
  }

  lemma CellWithin(z: seq<Byte>, at: nat, size: nat, inner: nat, width: nat)
    requires at + size <= |z| && inner + width <= size
    ensures Cell(z[at..at + size], inner, width) == Cell(z, at + inner, width)
  {
    SliceOfSlice(z, at, size, inner, width);
  }

  lemma FieldIs(z: seq<Byte>, at: nat, size: nat, format: string, i: nat, offset: nat)
    requires at + size <= |z| && i < |format| && offset == Offset(format, i) && offset + Width(format[i]) <= size
    ensures Fields(z, at, size, format).Some?
    ensures Fields(z, at, size, format).value[i] == Cell(z, at + offset, Width(format[i]))
  {
    CellWithin(z, at, size, offset, Width(format[i]));
  }

  predicate EndIs(z: seq<Byte>, e: nat, end: seq<nat>)
  {
    && |end| == 8 && end[0] == Cell(z, e, 4) && end[3] == Cell(z, e + 8, 2) && end[4] == Cell(z, e + 10, 2)
    && end[7] == Cell(z, e + 20, 2)
  }

  predicate LocatorIs(z: seq<Byte>, l: nat, locator: seq<nat>)
  {
    |locator| == 4 && locator[0] == Cell(z, l, 4) && locator[2] == Cell(z, l + 8, 8) && locator[3] == Cell(z, l + 16, 4)
  }

  predicate End64Is(z: seq<Byte>, r: nat, end: Option<seq<nat>>)
  {
    if r + 56 > |z| then end.None?
    else
      && end.Some? && |end.value| == 10 && end.value[0] == Cell(z, r, 4) && end.value[6] == Cell(z, r + 24, 8)
      && end.value[7] == Cell(z, r + 32, 8) && end.value[8] == Cell(z, r + 40, 8) && end.value[9] == Cell(z, r + 48, 8)
  }

  lemma EndFieldsAre(z: seq<Byte>, at: nat)
    requires at + 22 <= |z|
    ensures Fields(z, at, 22, END).Some? && EndIs(z, at, Fields(z, at, 22, END).value)
  {
    assert Offset(END, 2) == 6 && Offset(END, 4) == 10 && Offset(END, 6) == 16;
    FieldIs(z, at, 22, END, 0, 0);
    FieldIs(z, at, 22, END, 3, 8);
    FieldIs(z, at, 22, END, 4, 10);
    FieldIs(z, at, 22, END, 7, 20);
  }

  lemma LocatorFieldsAre(z: seq<Byte>, at: nat)
    requires at + 20 <= |z|
    ensures Fields(z, at, 20, LOCATOR).Some? && LocatorIs(z, at, Fields(z, at, 20, LOCATOR).value)
  {
    assert Offset(LOCATOR, 2) == 8;
    FieldIs(z, at, 20, LOCATOR, 0, 0);
    FieldIs(z, at, 20, LOCATOR, 2, 8);
    FieldIs(z, at, 20, LOCATOR, 3, 16);
  }

  lemma End64FieldsAre(z: seq<Byte>, at: nat)
    ensures End64Is(z, at, Fields(z, at, 56, END64))
  {
    if at + 56 <= |z| {
      assert Offset(END64, 2) == 12 && Offset(END64, 4) == 16 && Offset(END64, 6) == 24 && Offset(END64, 8) == 40;
      FieldIs(z, at, 56, END64, 0, 0);
      FieldIs(z, at, 56, END64, 6, 24);
      FieldIs(z, at, 56, END64, 7, 32);
      FieldIs(z, at, 56, END64, 8, 40);
      FieldIs(z, at, 56, END64, 9, 48);
    }
  }

  /** The records found at the end agree on `count` files listed from `start`. */
  predicate EndsLead(end: seq<nat>, locator: seq<nat>, end64: Option<seq<nat>>, count: nat, start: nat)
  {
    end64.Some? && EndsPlausible(end, locator, end64.value) && end64.value[7] == count && end64.value[9] == start
  }

  lemma EndsRecordsIff(src: Source, end: seq<nat>, locator: seq<nat>, end64: Option<seq<nat>>, count: nat, start: nat)
    requires src.length >= 42 && |locator| == 4
    requires src.fields(src.length - 22, 22, END) == Some(end) && src.fields(src.length - 42, 20, LOCATOR) == Some(locator)
    requires src.fields(locator[2], 56, END64) == end64
    ensures ReadEnds(src) == Some((count, start)) <==> EndsLead(end, locator, end64, count, start)
  {
  }

  lemma TailIff(z: seq<Byte>, end: seq<nat>, locator: seq<nat>, end64: Option<seq<nat>>, count: nat, start: nat)
    requires |z| >= 42 && EndIs(z, |z| - 22, end) && LocatorIs(z, |z| - 42, locator) && End64Is(z, locator[2], end64)
    ensures EndsLead(end, locator, end64, count, start) <==> TailLeads(z, count, start)
  {
  }

  lemma SourceFields(z: seq<Byte>, at: nat, size: nat, format: string)
    ensures SourceOf(z).fields(at, size, format) == Fields(z, at, size, format) && SourceOf(z).length == |z|
  {
  }

  lemma EndsReadIff(z: seq<Byte>, end: seq<nat>, locator: seq<nat>, end64: Option<seq<nat>>, count: nat, start: nat)
    requires |z| >= 42 && Fields(z, |z| - 22, 22, END) == Some(end) && Fields(z, |z| - 42, 20, LOCATOR) == Some(locator)
    requires |locator| == 4 && Fields(z, locator[2], 56, END64) == end64
    ensures ReadEnds(SourceOf(z)) == Some((count, start)) <==> EndsLead(end, locator, end64, count, start)
  {
    SourceFields(z, |z| - 22, 22, END);
    SourceFields(z, |z| - 42, 20, LOCATOR);
    SourceFields(z, locator[2], 56, END64);
    EndsRecordsIff(SourceOf(z), end, locator, end64, count, start);
  }

  lemma EndsDecoded(z: seq<Byte>, count: nat, start: nat)
    returns (end: seq<nat>, locator: seq<nat>, end64: Option<seq<nat>>)
    requires |z| >= 42
    ensures EndIs(z, |z| - 22, end) && LocatorIs(z, |z| - 42, locator) && End64Is(z, locator[2], end64)
    ensures ReadEnds(SourceOf(z)) == Some((count, start)) <==> EndsLead(end, locator, end64, count, start)
  {
    end, locator := Fields(z, |z| - 22, 22, END).value, Fields(z, |z| - 42, 20, LOCATOR).value;
    end64 := Fields(z, locator[2], 56, END64);
    EndFieldsAre(z, |z| - 22);
    LocatorFieldsAre(z, |z| - 42);
    End64FieldsAre(z, locator[2]);
    EndsReadIff(z, end, locator, end64, count, start);
  }

  lemma EndsIff(z: seq<Byte>, count: nat, start: nat)
    ensures ReadEnds(SourceOf(z)) == Some((count, start)) <==> TailLeads(z, count, start)
  {
    if |z| >= 42 {
      var end, locator, end64 := EndsDecoded(z, count, start);
      TailIff(z, end, locator, end64, count, start);
    }
  }

  lemma {:induction false} ChainIff(
    next: nat -> Option<(File, nat)>, entry: nat -> Option<Info>, intact: Info -> bool, at: nat, count: nat)
    requires forall p: nat :: next(p).Some? <==> entry(p).Some? && intact(entry(p).value)
    requires forall p: nat :: next(p).Some? ==> next(p).value.1 == entry(p).value.next
    ensures ReadFiles(next, at, count).Some? <==>
              exists infos: seq<Info> :: |infos| == count && Chained(entry, intact, at, infos)
    decreases count
  {
    if count == 0 {
      var none: seq<Info> := [];
      assert |none| == count && Chained(entry, intact, at, none);
    } else {
      if next(at).Some? {
        var info := entry(at).value;
        ChainIff(next, entry, intact, info.next, count - 1);
        if rest: seq<Info> :| |rest| == count - 1 && Chained(entry, intact, info.next, rest) {
          assert ([info] + rest)[1..] == rest;
          assert Chained(entry, intact, at, [info] + rest);
        }
      }
      forall infos: seq<Info> | |infos| == count && Chained(entry, intact, at, infos)
        ensures ReadFiles(next, at, count).Some?
      {
        assert |infos[1..]| == count - 1;
      }
    }
  }

  lemma ChainReads(z: seq<Byte>, checksum: Checksum, at: nat, count: nat)
    ensures ReadFiles(Next(SourceOf(z), checksum), at, count).Some? <==>
              exists infos: seq<Info> :: |infos| == count && Chained(EntryAt(z), Intact(z, checksum), at, infos)
  {
    ChainIff(Next(SourceOf(z), checksum), EntryAt(z), Intact(z, checksum), at, count);
  }

  /** Exactly when bytes read as an archive: the tail leads to a directory whose entries
      all lead to intact contents. */
  lemma ReadsIff(z: seq<Byte>, checksum: Checksum)
    ensures Read(z, checksum).Some? <==>
              exists start: nat, infos: seq<Info> ::
                TailLeads(z, |infos|, start) && Chained(EntryAt(z), Intact(z, checksum), start, infos)
  {
    var ends := ReadEnds(SourceOf(z));
    if ends.Some? {
      EndsIff(z, ends.value.0, ends.value.1);
      ChainReads(z, checksum, ends.value.1, ends.value.0);
    }
    forall start: nat, infos: seq<Info> | TailLeads(z, |infos|, start) && Chained(EntryAt(z), Intact(z, checksum), start, infos)
      ensures Read(z, checksum).Some?
    {
      EndsIff(z, |infos|, start);
      ChainReads(z, checksum, start, |infos|);
    }
  }

  // ------------------------------------------------------------------- how a cut-off stream ends

  /** 22 bytes that are an end record without a comment. */
  predicate EndOfDirectory(t: seq<Byte>)
  {
    |t| == 22 && Cell(t, 0, 4) == END_SIG && Cell(t, 20, 2) == 0
  }

  /** 42 bytes that are a locator and such an end record. */
  predicate EndOfArchive(t: seq<Byte>)
  {
    |t| == 42 && Cell(t, 0, 4) == LOCATOR_SIG && Cell(t, 16, 4) == 1 && EndOfDirectory(t[20..])
  }

  lemma ReadNeedsEnd(z: seq<Byte>, checksum: Checksum)
    requires Read(z, checksum).Some?
    ensures |z| >= 42 && EndOfDirectory(z[|z| - 22..]) && EndOfArchive(z[|z| - 42..])
  {
    var ends := ReadEnds(SourceOf(z));
    EndsIff(z, ends.value.0, ends.value.1);
    TailEnds(z, ends.value.0, ends.value.1);
  }

  lemma TailEnds(z: seq<Byte>, count: nat, start: nat)
    requires TailLeads(z, count, start)
    ensures |z| >= 42 && EndOfDirectory(z[|z| - 22..]) && EndOfArchive(z[|z| - 42..])
  {
    var e, l := |z| - 22, |z| - 42;
    assert z[e..e + 22] == z[e..] && z[l..l + 42] == z[l..] && z[l..][20..] == z[e..];
    CellWithin(z, e, 22, 0, 4);
    CellWithin(z, e, 22, 20, 2);
    CellWithin(z, l, 42, 0, 4);
    CellWithin(z, l, 42, 16, 4);
  }

  lemma LowByte(s: seq<Byte>)
    requires s != []
    ensures s[0] == UnLe(s) % 256 && UnLe(s[1..]) == UnLe(s) / 256
  {
  }

  lemma EndSignature(t: seq<Byte>)
    requires EndOfDirectory(t)
    ensures t[0] == 0x50 && t[1] == 0x4B && t[2] == 5
  {
    var s := t[0..4];
    LowByte(s);
    LowByte(s[1..]);
    LowByte(s[1..][1..]);
    assert s[0] == t[0] && s[1..][0] == t[1] && s[1..][1..][0] == t[2];
  }

  lemma LeFirst(n: nat, width: nat)
    requires width >= 1
    ensures Le(n, width)[0] == n % 256
    ensures width >= 2 ==> Le(n, width)[1] == n / 256 % 256
    ensures width >= 3 ==> Le(n, width)[2] == n / 256 / 256 % 256
  {
    if width >= 2 {
      assert Le(n, width)[1..] == Le(n / 256, width - 1);
      if width >= 3 {
        assert Le(n / 256, width - 1)[1..] == Le(n / 256 / 256, width - 2);
        assert Le(n, width)[2] == Le(n / 256, width - 1)[1];
      }
    }
  }

  lemma {:induction false} LeZero(width: nat, i: nat)
    requires i < width
    ensures Le(0, width)[i] == 0
  {
    if i > 0 {
      LeZero(width - 1, i - 1);
    }
  }

  /** No byte of the extra field of a local header begins a signature. */
  lemma ExtraBytes(i: nat)
    requires i < 20
    ensures var x := Pack(LOCAL_EXTRA, [1, 16, 0, 0]);
            |x| == 20 && (x[i] == 0 || x[i] == 1 || x[i] == 16) && x[0] == 1
  {
    var cells := Cells(LOCAL_EXTRA, [1, 16, 0, 0]);
    var a, b, c, d := Le(1, 2), Le(16, 2), Le(0, 8), Le(0, 8);
    assert cells == [a, b, c, d];
    FourPieces(a, b, c, d);
    LeFirst(1, 2);
    LeFirst(16, 2);
    if 4 <= i < 12 {
      LeZero(8, i - 4);
    } else if 12 <= i {
      LeZero(8, i - 12);
    }
  }

  lemma FourPieces<T>(a: seq<T>, b: seq<T>, c: seq<T>, d: seq<T>)
    ensures Concat([a, b, c, d]) == a + b + c + d
  {
    assert [a, b, c, d][1..] == [b, c, d] && [b, c, d][1..] == [c, d] && [c, d][1..] == [d] && [d][1..] == [];
    assert Concat([d]) == d + Concat<T>([]) == d;
    assert Concat([c, d]) == c + d;
    assert Concat([b, c, d]) == b + (c + d);
    assert a + b + c + d == a + (b + (c + d));
  }

  lemma TwoPieces<T>(a: seq<T>, b: seq<T>)
    ensures Concat([a, b]) == a + b
  {
    ConcatSnoc([a], b);
    ConcatSnoc<T>([], a);
    assert [a] + [b] == [a, b] && [] + [a] == [a];
  }

  /** The third byte of a descriptor. */
  lemma DescriptorByte(crc: nat, size: nat)
    ensures |Descriptor(crc, size)| == 24 && Descriptor(crc, size)[2] == 7
  {
    var cells := Cells(DESCRIPTOR, DescriptorFields(crc, size));
    var a, b, c, d := Le(DESCRIPTOR_SIG, 4), Le(crc, 4), Le(size, 8), Le(size, 8);
    assert cells == [a, b, c, d];
    FourPieces(a, b, c, d);
    LeFirst(DESCRIPTOR_SIG, 4);
  }

  lemma TailAt<T>(front: seq<T>, back: seq<T>, n: nat, i: nat)
    requires i < n <= |front + back|
    ensures (front + back)[|front + back| - n..][i]
            == if n - i <= |back| then back[|back| - n + i] else front[|front| + |back| - n + i]
  {
  }

  /** A stream cut off after whole objects ends in a descriptor, which is no end. */
  lemma WholeObjectsUnreadable(front: seq<Byte>, f: File, style: Style, checksum: Checksum)
    ensures Read(front + Block(f, style), checksum) == None
  {
    var z := front + Block(f, style);
    var body, tail := front + (LocalHeader(f.name, style) + f.data), Descriptor(style.checksum(f.data, 0), |f.data|);
    Associates(front, LocalHeader(f.name, style) + f.data, tail);
    assert z == body + tail;
    DescriptorByte(style.checksum(f.data, 0), |f.data|);
    TailAt(body, tail, 22, 0);
    if Read(z, checksum).Some? {
      ReadNeedsEnd(z, checksum);
      EndSignature(z[|z| - 22..]);
    }
  }

  lemma LocatorSignature(t: seq<Byte>)
    requires EndOfArchive(t)
    ensures t[0] == 0x50
  {
    LowByte(t[0..4]);
  }

  /** A stream cut off inside the contents of an object is readable only if those
      contents themselves end in a locator and an end record. */
  lemma CutInContents(front: seq<Byte>, name: seq<Byte>, data: seq<Byte>, style: Style, checksum: Checksum)
    requires Read(front + (LocalHeader(name, style) + data), checksum).Some?
    ensures |data| >= 42 && EndOfArchive(data[|data| - 42..])
  {
    var extra := Pack(LOCAL_EXTRA, [1, 16, 0, 0]);
    var before := Pack(LOCAL, LocalFields(name, style)) + name;
    var z, head := front + (LocalHeader(name, style) + data), front + before;
    Associates(before, extra, data);
    Associates(front, before, extra + data);
    assert z == head + (extra + data);
    ReadNeedsEnd(z, checksum);
    EndSignature(z[|z| - 22..]);
    if |data| < 22 {
      ShortCutEnds(head, extra, data, z);
    }
    LocatorSignature(z[|z| - 42..]);
    if |data| < 42 {
      ShortCutLocates(head, extra, data, z);
    }
    assert z[|z| - 42..] == data[|data| - 42..];
  }

  /** So it is with fewer than 42. */
  lemma ShortCutLocates(head: seq<Byte>, extra: seq<Byte>, data: seq<Byte>, z: seq<Byte>)
    requires z == head + (extra + data) && |z| >= 42 && extra == Pack(LOCAL_EXTRA, [1, 16, 0, 0]) && 22 <= |data| < 42
    ensures z[|z| - 42] != 0x50
  {
    ExtraBytes(|data| - 22);
    assert z[|z| - 42] == extra[|data| - 22];
  }

  /** With fewer than 22 bytes of contents the header's extra field is in the way. */
  lemma ShortCutEnds(head: seq<Byte>, extra: seq<Byte>, data: seq<Byte>, z: seq<Byte>)
    requires z == head + (extra + data) && |z| >= 22 && extra == Pack(LOCAL_EXTRA, [1, 16, 0, 0]) && |data| < 22
    ensures z[|z| - 22] != 0x50 || z[|z| - 21] != 0x4B || z[|z| - 20] != 5
  {
    ExtraBytes(0);
    if |data| == 0 {
      assert z[|z| - 20] == extra[0];
    } else if |data| == 1 {
      assert z[|z| - 21] == extra[0];
    } else {
      ExtraBytes(|data| - 2);
      assert z[|z| - 22] == extra[|data| - 2];
    }
  }

  /** Whatever stops the stream at an object: what has gone out reads as an archive only
      if the stop was inside that object's contents, and these end in a locator and an end
      record. */
  lemma CutOffReadsOnlyIf(fetches: seq<Fetch>, k: nat, style: Style, checksum: Checksum)
    requires StopsAt(fetches, k, style) && Read(CutOff(fetches, k, style), checksum).Some?
    ensures var data := Concat(fetches[k].chunks);
            && |fetches[k].name| <= MAX16 && !Whole(fetches[k])
            && |data| >= 42 && EndOfArchive(data[|data| - 42..])
  {
    var files := FilesOf(fetches);
    if |fetches[k].name| > MAX16 {
      assert Body(files[..k], style) + [] == Body(files[..k], style);
      BodyUnreadable(files, k, style, checksum);
    } else if Whole(fetches[k]) {
      WholeObjectsUnreadable(Body(files[..k], style), files[k], style, checksum);
    } else {
      CutInContents(Body(files[..k], style), fetches[k].name, Concat(fetches[k].chunks), style, checksum);
    }
  }

  lemma BodyUnreadable(files: seq<File>, k: nat, style: Style, checksum: Checksum)
    requires k <= |files|
    ensures Read(Body(files[..k], style), checksum) == None
  {
    if k == 0 {
      assert Blocks(files[..0], style) == [];
      if Read(Body(files[..0], style), checksum).Some? {
        ReadNeedsEnd(Body(files[..0], style), checksum);
      }
    } else {
      BodySnoc(files, k - 1, style);
      WholeObjectsUnreadable(Body(files[..k - 1], style), files[k - 1], style, checksum);
    }
  }

  // ------------------------------------------------------------------- and it does happen

  lemma EndsAloneRead(front: seq<Byte>, checksum: Checksum)
    requires |front| <= MAX64
    ensures Read(front + EndRecords(0, 0, |front|), checksum) == Some([])
  {
    var z := front + EndRecords(0, 0, |front|);
    assert Holds(z, |front| + 0, EndRecords(0, 0, |front|));
    EndsRead(z, 0, 0, |front|);
    EndsAloneShown(z, |front|);
    ArchiveEnds(SourceOf(z), 0, 0, |front|);
  }

  lemma EndsAloneShown(z: seq<Byte>, base: nat)
    requires |z| == base + 98
    requires Fields(z, base + 76, 22, END) == Some([END_SIG, 0, 0, Shown(0), Shown(0), MAX32, MAX32, 0])
    requires Fields(z, base + 56, 20, LOCATOR) == Some([LOCATOR_SIG, 0, base, 1])
    requires Fields(z, base, 56, END64) == Some([END64_SIG, 44, MADE_BY, VERSION, 0, 0, 0, 0, 0, base])
    ensures ShowsEnds(SourceOf(z), 0, 0, base)
  {
    SourceFields(z, base + 76, 22, END);
    SourceFields(z, base + 56, 20, LOCATOR);
    SourceFields(z, base, 56, END64);
  }

  /** A download cut short can read as a well-formed archive with nothing in it: after
      any whole objects, one whose contents so far end in end records and whose fetch
      then fails. */
  lemma CutOffCanRead(fetches: seq<Fetch>, name: seq<Byte>, text: seq<Byte>, style: Style, checksum: Checksum)
    requires |name| <= MAX16 && forall j :: 0 <= j < |fetches| ==> Whole(fetches[j])
    requires var base := |Body(FilesOf(fetches), style) + (LocalHeader(name, style) + text)|; base <= MAX64
    ensures var base := |Body(FilesOf(fetches), style) + (LocalHeader(name, style) + text)|;
            var cut := Fetch(name, [text, EndRecords(0, 0, base)], false);
            && StopsAt(fetches + [cut], |fetches|, style)
            && Read(CutOff(fetches + [cut], |fetches|, style), checksum) == Some([])
  {
    var body, header := Body(FilesOf(fetches), style), LocalHeader(name, style);
    var front := body + (header + text);
    var ends := EndRecords(0, 0, |front|);
    var cut := Fetch(name, [text, ends], false);
    var all := fetches + [cut];
    assert FilesOf(all)[..|fetches|] == FilesOf(fetches);
    forall j | 0 <= j < |fetches| ensures Whole(all[j]) && |Body(FilesOf(all)[..j], style)| <= MAX64 {
      assert FilesOf(all)[..j] == FilesOf(fetches)[..j];
      FilesPrefix(FilesOf(fetches), j, style);
    }
    TwoPieces(text, ends);
    Associates(header, text, ends);
    Associates(body, header + text, ends);
    assert all[|fetches|] == cut;
    assert CutOff(all, |fetches|, style) == front + ends;
    EndsAloneRead(front, checksum);
  }
}
