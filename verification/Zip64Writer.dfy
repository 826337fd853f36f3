/** The archive as the Scheduler streams it: one pass, chunk by chunk, sizes and checksums
    known only after the contents have gone out. */
module Zip64Writer {
  import opened Common
  import opened ByteOrder
  import opened Crc32
  import opened Zip64
  import opened Zip64Theorems

  /** What fetching an object yields: some chunks, then its end or an error. */
  datatype Fetch = Fetch(name: seq<Byte>, chunks: seq<seq<Byte>>, complete: bool)

  /** Carrying on over a second piece gives the checksum of both. */
  ghost predicate Resumable(checksum: Checksum)
  {
    checksum([], 0) == 0 && forall a, b {:trigger checksum(a + b, 0)} :: checksum(a + b, 0) == checksum(b, checksum(a, 0))
  }

  function FileOf(fetch: Fetch): (r: File)
  {
    File(fetch.name, Concat(fetch.chunks))
  }

  function FilesOf(fetches: seq<Fetch>): (r: seq<File>)
  {
    seq(|fetches|, i requires 0 <= i < |fetches| => FileOf(fetches[i]))
  }

  /** Fetched to its end, with a name and a length that fit their fields. */
  predicate Whole(fetch: Fetch)
  {
    fetch.complete && |fetch.name| <= MAX16 && |Concat(fetch.chunks)| <= MAX64
  }

  /** What goes out of an object: a name too long stops it before its header, anything
      else before its descriptor. */
  function EntryBytes(fetch: Fetch, style: Style): (r: seq<Byte>)
  {
    if |fetch.name| > MAX16 then []
    else if !Whole(fetch) then LocalHeader(fetch.name, style) + Concat(fetch.chunks)
    else Block(FileOf(fetch), style)
  }

  /** The contents of one object, passed on as they arrive. */
  method StreamChunks(chunks: seq<seq<Byte>>, sofar: seq<seq<Byte>>, start: nat, checksum: Checksum)
    returns (out: seq<seq<Byte>>, crc: nat, written: nat, offset: nat)
    requires start == |Concat(sofar)| && Resumable(checksum)
    ensures Concat(out) == Concat(sofar) + Concat(chunks)
    ensures crc == checksum(Concat(chunks), 0) && written == |Concat(chunks)| && offset == |Concat(out)|
  {
    out, crc, written, offset := sofar, 0, 0, start;
    var j := 0;
    while j < |chunks|
      invariant 0 <= j <= |chunks|
      invariant Concat(out) == Concat(sofar) + Concat(chunks[..j])
      invariant crc == checksum(Concat(chunks[..j]), 0)
      invariant written == |Concat(chunks[..j])| && offset == |Concat(out)|
    {
      OneMoreChunk(out, Concat(sofar), chunks, j);
      crc := checksum(chunks[j], crc);
      written := written + |chunks[j]|;
      out := out + [chunks[j]];
      offset := offset + |chunks[j]|;
      j := j + 1;
    }
    assert chunks[..|chunks|] == chunks;
  }

  /** One object: header, contents, descriptor.  A name too long, a failed fetch or a
      length no field can carry stops it part way. */
  method StreamEntry(fetch: Fetch, sofar: seq<seq<Byte>>, start: nat, style: Style)
    returns (out: seq<seq<Byte>>, crc: nat, written: nat, offset: nat, ok: bool)
    requires start == |Concat(sofar)| && Resumable(style.checksum)
    ensures ok <==> Whole(fetch)
    ensures Concat(out) == Concat(sofar) + EntryBytes(fetch, style)
    ensures ok ==> crc == style.checksum(Concat(fetch.chunks), 0) && written == |Concat(fetch.chunks)| && offset == |Concat(out)|
  {
    out, crc, written, offset, ok := sofar, 0, 0, start, false;
    if |fetch.name| > MAX16 {
      assert Concat(sofar) + [] == Concat(sofar);
      return;
    }
    var header := LocalHeader(fetch.name, style);
    ConcatSnoc(out, header);
    out := out + [header];
    offset := offset + |header|;
    out, crc, written, offset := StreamChunks(fetch.chunks, out, offset, style.checksum);
    ghost var tail := Descriptor(style.checksum(Concat(fetch.chunks), 0), |Concat(fetch.chunks)|);
    Associates(Concat(sofar), header, Concat(fetch.chunks));
    Associates(Concat(sofar), header + Concat(fetch.chunks), tail);
    assert Concat(sofar) + Block(FileOf(fetch), style) == Concat(out) + tail;
    if !fetch.complete || written > MAX64 {
      return;
    }
    var descriptor := Descriptor(crc, written);
    ConcatSnoc(out, descriptor);
    out := out + [descriptor];
    offset := offset + |descriptor|;
    ok := true;
  }

  lemma FilesPrefix(files: seq<File>, k: nat, style: Style)
    requires k <= |files|
    ensures Blocks(files[..k], style) == Blocks(files, style)[..k]
    ensures Entries(files[..k], style) == Entries(files, style)[..k]
    ensures Body(files[..k], style) <= Body(files, style)
  {
    assert forall i :: 0 <= i < k ==> files[..k][..i] == files[..i];
    assert Blocks(files, style)[..k] + Blocks(files, style)[k..] == Blocks(files, style);
    ConcatAppend(Blocks(files, style)[..k], Blocks(files, style)[k..]);
  }

  lemma BodySnoc(files: seq<File>, k: nat, style: Style)
    requires k < |files|
    ensures Body(files[..k + 1], style) == Body(files[..k], style) + Block(files[k], style)
  {
    FilesPrefix(files, k, style);
    FilesPrefix(files, k + 1, style);
    assert Blocks(files, style)[..k + 1] == Blocks(files, style)[..k] + [Block(files[k], style)];
    ConcatSnoc(Blocks(files, style)[..k], Block(files[k], style));
  }

  predicate Complete(fetches: seq<Fetch>)
  {
    forall i :: 0 <= i < |fetches| ==> fetches[i].complete
  }

  predicate NamesFit(files: seq<File>)
  {
    forall i :: 0 <= i < |files| ==> |files[i].name| <= MAX16
  }

  /** The stream stops at the `k`th object: the first that is not whole, or whose
      header lies beyond the reach of the directory. */
  predicate StopsAt(fetches: seq<Fetch>, k: nat, style: Style)
  {
    && k < |fetches| && (!Whole(fetches[k]) || |Body(FilesOf(fetches)[..k], style)| > MAX64)
    && forall j :: 0 <= j < k ==> Whole(fetches[j]) && |Body(FilesOf(fetches)[..j], style)| <= MAX64
  }

  /** What has gone out when the stream stops at the `k`th object, or before the end
      records when it gets past the last. */
  function CutOff(fetches: seq<Fetch>, k: nat, style: Style): (r: seq<Byte>)
    requires k <= |fetches|
  {
    if k < |fetches| then Body(FilesOf(fetches)[..k], style) + EntryBytes(fetches[k], style)
    else Body(FilesOf(fetches), style) + Directory(FilesOf(fetches), style)
  }

  /** A stream that stops could not have been finished. */
  lemma Stopped(fetches: seq<Fetch>, k: nat, style: Style)
    requires StopsAt(fetches, k, style)
    ensures !Complete(fetches) || !Representable(FilesOf(fetches), style)
  {
    if Representable(FilesOf(fetches), style) {
      FileFits(FilesOf(fetches), k, style);
    }
  }

  lemma EntriesSnoc(fetches: seq<Fetch>, k: nat, style: Style)
    requires k < |fetches|
    ensures Entries(FilesOf(fetches), style)[..k + 1]
            == Entries(FilesOf(fetches), style)[..k]
               + [CentralEntry(fetches[k].name, style.checksum(Concat(fetches[k].chunks), 0), |Concat(fetches[k].chunks)|,
                               |Body(FilesOf(fetches)[..k], style)|, style)]
  {
  }

  /** The first `i` objects are out, and `central` says where they went. */
  ghost predicate Progress(
    fetches: seq<Fetch>, i: nat, style: Style, out: seq<seq<Byte>>, central: seq<seq<Byte>>, offset: nat)
    requires i <= |fetches|
  {
    && Concat(out) == Body(FilesOf(fetches)[..i], style) && offset == |Concat(out)|
    && central == Entries(FilesOf(fetches), style)[..i]
    && forall k :: 0 <= k < i ==> Whole(fetches[k]) && |Body(FilesOf(fetches)[..k], style)| <= MAX64
  }

  lemma Finished(fetches: seq<Fetch>, style: Style, out: seq<seq<Byte>>, central: seq<seq<Byte>>, offset: nat)
    requires Progress(fetches, |fetches|, style, out, central, offset)
    ensures Complete(fetches) && NamesFit(FilesOf(fetches))
    ensures Concat(out) == Body(FilesOf(fetches), style) && offset == |Concat(out)|
    ensures central == Entries(FilesOf(fetches), style)
  {
    var files := FilesOf(fetches);
    assert files[..|files|] == files && Entries(files, style)[..|files|] == Entries(files, style);
  }

  /** The next object. */
  method StreamNext(
    fetches: seq<Fetch>, i: nat, style: Style, sofar: seq<seq<Byte>>, entries: seq<seq<Byte>>, headerOffset: nat)
    returns (out: seq<seq<Byte>>, central: seq<seq<Byte>>, offset: nat, ok: bool)
    requires i < |fetches| && Resumable(style.checksum) && Progress(fetches, i, style, sofar, entries, headerOffset)
    ensures ok ==> Progress(fetches, i + 1, style, out, central, offset)
    ensures !ok ==> StopsAt(fetches, i, style) && Concat(out) == CutOff(fetches, i, style)
  {
    central := entries;
    var crc, written;
    out, crc, written, offset, ok := StreamEntry(fetches[i], sofar, headerOffset, style);
    if !ok || headerOffset > MAX64 {
      ok := false;
      return;
    }
    BodySnoc(FilesOf(fetches), i, style);
    EntriesSnoc(fetches, i, style);
    central := central + [CentralEntry(fetches[i].name, crc, written, headerOffset, style)];
  }

  /** Every object in turn, remembering what the central directory will say of it. */
  method StreamEntries(fetches: seq<Fetch>, style: Style)
    returns (out: seq<seq<Byte>>, central: seq<seq<Byte>>, offset: nat, ok: bool, ghost stop: nat)
    requires Resumable(style.checksum)
    ensures ok ==> Progress(fetches, |fetches|, style, out, central, offset)
    ensures !ok ==> StopsAt(fetches, stop, style) && Concat(out) == CutOff(fetches, stop, style)
  {
    out, central, offset, ok, stop := [], [], 0, true, 0;
    var i := 0;
    while i < |fetches|
      invariant 0 <= i <= |fetches|
      invariant Progress(fetches, i, style, out, central, offset)
    {
      out, central, offset, ok := StreamNext(fetches, i, style, out, central, offset);
      if !ok {
        stop := i;
        return;
      }
      i := i + 1;
    }
    ok := true;
  }

  /** The whole archive.  It is finished exactly when every fetch completed and every
      length fits its field; otherwise it is cut off at the first object that stops it,
      or before the end records. */
  method Stream(fetches: seq<Fetch>, style: Style) returns (out: seq<seq<Byte>>, ok: bool, ghost stop: nat)
    requires ValidStyle(style) && Resumable(style.checksum)
    ensures ok <==> Complete(fetches) && Representable(FilesOf(fetches), style)
    ensures ok ==> Concat(out) == Archive(FilesOf(fetches), style)
    ensures !ok ==> stop <= |fetches| && Concat(out) == CutOff(fetches, stop, style)
    ensures !ok && stop < |fetches| ==> StopsAt(fetches, stop, style)
  {
    var central, base;
    out, central, base, ok, stop := StreamEntries(fetches, style);
    if !ok {
      Stopped(fetches, stop, style);
      return;
    }
    stop := |fetches|;
    Finished(fetches, style, out, central, base);
    var blob := Concat(central);
    ghost var body := Concat(out);
    ConcatSnoc(out, blob);
    if blob != [] {
      out := out + [blob];
    }
    assert Concat(out) == body + blob;
    if |central| > MAX64 || |blob| > MAX64 || base > MAX64 || base + |blob| > MAX64 {
      ok := false;
      return;
    }
    var ends := EndRecords(|central|, |blob|, base);
    ConcatSnoc(out, ends);
    out := out + [ends];
  }

  lemma CrcStyle(time: nat, date: nat)
    requires time <= MAX16 && date <= MAX16
    ensures ValidStyle(Style(time, date, Crc)) && Resumable(Crc)
  {
    CrcNothing(0);
    forall a, b ensures Crc(a + b, 0) == Crc(b, Crc(a, 0)) {
      CrcAppend(a, b, 0);
    }
  }

  /** With CRC-32, whatever the chunks: what is streamed reads back as the objects. */
  method StreamArchive(fetches: seq<Fetch>, time: nat, date: nat) returns (out: seq<seq<Byte>>, ok: bool)
    requires time <= MAX16 && date <= MAX16
    ensures ok <==> Complete(fetches) && Representable(FilesOf(fetches), Style(time, date, Crc))
    ensures ok ==> Read(Concat(out), Crc) == Some(FilesOf(fetches))
  {
    CrcStyle(time, date);
    ghost var stop;
    out, ok, stop := Stream(fetches, Style(time, date, Crc));
    if ok {
      RoundTrip(FilesOf(fetches), Style(time, date, Crc));
    }
  }
}
