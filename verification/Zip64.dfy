/**
 The stored ZIP64 archive the Scheduler streams: its records, the whole archive as a
 function of the files, and a reader that works back from the end record.
 */
module Zip64 {
  import opened Common
  import opened ByteOrder

  const LOCAL_SIG := 0x0403_4B50
  const DESCRIPTOR_SIG := 0x0807_4B50
  const CENTRAL_SIG := 0x0201_4B50
  const END64_SIG := 0x0606_4B50
  const LOCATOR_SIG := 0x0706_4B50
  const END_SIG := 0x0605_4B50
  const MAX16 := 0xFFFF
  const MAX32 := 0xFFFF_FFFF
  const MAX64 := 0xFFFF_FFFF_FFFF_FFFF
  const STORED := 0
  const FLAGS := 0x808
  const VERSION := 45
  const MADE_BY := 0x32D
  const PRIVATE := 0x180_0000

  const LOCAL := "IHHHHHIIIHH"
  const LOCAL_EXTRA := "HHQQ"
  const DESCRIPTOR := "IIQQ"
  const CENTRAL := "IHHHHHHIIIHHHHHII"
  const CENTRAL_EXTRA := "HHQQQ"
  const END64 := "IQHHIIQQQQ"
  const LOCATOR := "IIQI"
  const END := "IHHHHIIH"

  lemma LocalSizes()
    ensures Size(LOCAL) == 30 && Size(LOCAL_EXTRA) == 20 && Size(DESCRIPTOR) == 24
  {
    assert Offset(LOCAL, 2) == 6 && Offset(LOCAL, 4) == 10 && Offset(LOCAL, 6) == 14;
    assert Offset(LOCAL, 8) == 22 && Offset(LOCAL, 10) == 28;
  }

  lemma CentralSizes()
    ensures Size(CENTRAL) == 46 && Size(CENTRAL_EXTRA) == 28
  {
    assert Offset(CENTRAL, 2) == 6 && Offset(CENTRAL, 4) == 10 && Offset(CENTRAL, 6) == 14 && Offset(CENTRAL, 8) == 20;
    assert Offset(CENTRAL, 10) == 28 && Offset(CENTRAL, 12) == 32 && Offset(CENTRAL, 14) == 36 && Offset(CENTRAL, 16) == 42;
    assert Offset(CENTRAL_EXTRA, 2) == 4 && Offset(CENTRAL_EXTRA, 4) == 20;
  }

  lemma EndSizes()
    ensures Size(END64) == 56 && Size(LOCATOR) == 20 && Size(END) == 22
  {
    assert Offset(END64, 2) == 12 && Offset(END64, 4) == 16 && Offset(END64, 6) == 24 && Offset(END64, 8) == 40;
    assert Offset(END, 2) == 6 && Offset(END, 4) == 10 && Offset(END, 6) == 16;
  }

  /** A checksum carried on from an earlier result, zero to begin with. */
  type Checksum = (seq<Byte>, nat) -> nat

  /** What the entries of one archive share: the moment they are stamped with, as two
      16-bit DOS fields, and the checksum over contents. */
  datatype Style = Style(time: nat, date: nat, checksum: Checksum)

  ghost predicate ValidStyle(style: Style)
  {
    style.time <= MAX16 && style.date <= MAX16 && forall data :: style.checksum(data, 0) <= MAX32
  }

  // ------------------------------------------------------------------- records

  function LocalFields(name: seq<Byte>, style: Style): (r: seq<nat>)
  {
    [LOCAL_SIG, VERSION, FLAGS, STORED, style.time, style.date, 0, MAX32, MAX32, |name|, 20]
  }

  function LocalHeader(name: seq<Byte>, style: Style): (r: seq<Byte>)
  {
    Pack(LOCAL, LocalFields(name, style)) + name + Pack(LOCAL_EXTRA, [1, 16, 0, 0])
  }

  function DescriptorFields(crc: nat, size: nat): (r: seq<nat>)
  {
    [DESCRIPTOR_SIG, crc, size, size]
  }

  function Descriptor(crc: nat, size: nat): (r: seq<Byte>)
  {
    Pack(DESCRIPTOR, DescriptorFields(crc, size))
  }

  function CentralFields(name: seq<Byte>, crc: nat, style: Style): (r: seq<nat>)
  {
    [CENTRAL_SIG, MADE_BY, VERSION, FLAGS, STORED, style.time, style.date, crc, MAX32, MAX32, |name|, 28, 0, 0, 0, PRIVATE, MAX32]
  }

  function CentralEntry(name: seq<Byte>, crc: nat, size: nat, offset: nat, style: Style): (r: seq<Byte>)
  {
    Pack(CENTRAL, CentralFields(name, crc, style)) + name + Pack(CENTRAL_EXTRA, [1, 24, size, size, offset])
  }

  function Shown(count: nat): (r: nat)
  {
    if count <= MAX16 then count else MAX16
  }

  function End64Record(count: nat, size: nat, offset: nat): (r: seq<Byte>)
  {
    Pack(END64, [END64_SIG, 44, MADE_BY, VERSION, 0, 0, count, count, size, offset])
  }

  function LocatorRecord(size: nat, offset: nat): (r: seq<Byte>)
  {
    Pack(LOCATOR, [LOCATOR_SIG, 0, offset + size, 1])
  }

  function EndRecord(count: nat): (r: seq<Byte>)
  {
    Pack(END, [END_SIG, 0, 0, Shown(count), Shown(count), MAX32, MAX32, 0])
  }

  function EndRecords(count: nat, size: nat, offset: nat): (r: seq<Byte>)
  {
    End64Record(count, size, offset) + LocatorRecord(size, offset) + EndRecord(count)
  }

  // ------------------------------------------------------------------- the archive

  datatype File = File(name: seq<Byte>, data: seq<Byte>)

  function Block(f: File, style: Style): (r: seq<Byte>)
  {
    LocalHeader(f.name, style) + f.data + Descriptor(style.checksum(f.data, 0), |f.data|)
  }

  function Blocks(files: seq<File>, style: Style): (r: seq<seq<Byte>>)
  {
    seq(|files|, i requires 0 <= i < |files| => Block(files[i], style))
  }

  /** The local headers and contents, in order. */
  function Body(files: seq<File>, style: Style): (r: seq<Byte>)
  {
    Concat(Blocks(files, style))
  }

  /** The directory entry of the `i`th file points at its local header. */
  function Entry(files: seq<File>, i: nat, style: Style): (r: seq<Byte>)
    requires i < |files|
  {
    CentralEntry(files[i].name, style.checksum(files[i].data, 0), |files[i].data|, |Body(files[..i], style)|, style)
  }

  function Entries(files: seq<File>, style: Style): (r: seq<seq<Byte>>)
  {
    seq(|files|, i requires 0 <= i < |files| => Entry(files, i, style))
  }

  function Directory(files: seq<File>, style: Style): (r: seq<Byte>)
  {
    Concat(Entries(files, style))
  }

  function Archive(files: seq<File>, style: Style): (r: seq<Byte>)
  {
    var body, directory := Body(files, style), Directory(files, style);
    body + directory + EndRecords(|files|, |directory|, |body|)
  }

  /** Every length and offset fits the field that carries it. */
  ghost predicate Representable(files: seq<File>, style: Style)
  {
    && ValidStyle(style)
    && (forall i :: 0 <= i < |files| ==> |files[i].name| <= MAX16)
    && |files| <= MAX64
    && |Body(files, style)| + |Directory(files, style)| <= MAX64
  }

  // ------------------------------------------------------------------- reading back

  /** `size` bytes of `z` at `at`, when they are there. */
  function Slice(z: seq<Byte>, at: nat, size: nat): (r: Option<seq<Byte>>)
  {
    if at + size <= |z| then Some(z[at..at + size]) else None
  }

  /** The fields of the `size`-byte record of this format at `at`. */
  function Fields(z: seq<Byte>, at: nat, size: nat, format: string): (r: Option<seq<nat>>)
    ensures r.Some? ==> |r.value| == |format|
  {
    if at + size <= |z| then Some(Unpack(format, z[at..at + size])) else None
  }

  /** An archive as a reader sees it: records and slices at positions. */
  datatype Source = Source(
    length: nat, fields: (nat, nat, string) -> Option<seq<nat>>, slice: (nat, nat) -> Option<seq<Byte>>)

  function SourceOf(z: seq<Byte>): (r: Source)
  {
    Source(|z|, (at: nat, size: nat, format: string) => Fields(z, at, size, format), (at: nat, size: nat) => Slice(z, at, size))
  }

  /** What a central directory entry says of its file, and where the next one starts. */
  datatype Info = Info(name: seq<Byte>, crc: nat, size: nat, offset: nat, next: nat)

  /** A stored file, streamed by a known version, whose sizes and offset stand in the
      extra field. */
  predicate EntryPlausible(central: seq<nat>)
  {
    && |central| == 17
    && central[0] == CENTRAL_SIG && central[2] == VERSION && central[3] == FLAGS && central[4] == STORED
    && central[8] == MAX32 && central[9] == MAX32 && central[11] == 28 && central[12] == 0 && central[13] == 0
    && central[16] == MAX32
  }

  predicate ExtraPlausible(extra: seq<nat>)
  {
    |extra| == 5 && extra[0] == 1 && extra[1] == 24 && extra[2] == extra[3]
  }

  predicate LocalPlausible(local: seq<nat>, name: seq<Byte>)
  {
    && |local| == 11
    && local[0] == LOCAL_SIG && local[1] == VERSION && local[2] == FLAGS && local[3] == STORED
    && local[7] == MAX32 && local[8] == MAX32 && local[9] == |name|
  }

  function ReadEntry(src: Source, at: nat): (r: Option<Info>)
  {
    var central := src.fields(at, 46, CENTRAL);
    if central.None? || !EntryPlausible(central.value) then None
    else
      var length := central.value[10];
      var name, extra := src.slice(at + 46, length), src.fields(at + 46 + length, 28, CENTRAL_EXTRA);
      if name.None? || extra.None? || !ExtraPlausible(extra.value) then None
      else Some(Info(name.value, central.value[7], extra.value[2], extra.value[4], at + 74 + length))
  }

  /** The contents an entry points at.  Refused unless the local header, the checksum
      and the descriptor after the contents agree with the entry. */
  function ReadLocal(src: Source, info: Info, checksum: Checksum): (r: Option<seq<Byte>>)
  {
    var local := src.fields(info.offset, 30, LOCAL);
    if local.None? || !LocalPlausible(local.value, info.name)
       || src.slice(info.offset + 30, |info.name|) != Some(info.name)
    then None
    else
      var start := info.offset + 30 + |info.name| + local.value[10];
      var data, descriptor := src.slice(start, info.size), src.fields(start + info.size, 24, DESCRIPTOR);
      if data.None? || checksum(data.value, 0) != info.crc || descriptor != Some(DescriptorFields(info.crc, info.size)) then None
      else data
  }

  function ReadFile(src: Source, at: nat, checksum: Checksum): (r: Option<(File, nat)>)
  {
    var info := ReadEntry(src, at);
    if info.None? then None
    else
      var data := ReadLocal(src, info.value, checksum);
      if data.None? then None else Some((File(info.value.name, data.value), info.value.next))
  }

  /** Files one after another, each telling where the next is found. */
  function ReadFiles(next: nat -> Option<(File, nat)>, at: nat, count: nat): (r: Option<seq<File>>)
    decreases count
  {
    if count == 0 then Some([])
    else
      var first := next(at);
      if first.None? then None
      else
        var rest := ReadFiles(next, first.value.1, count - 1);
        if rest.None? then None else Some([first.value.0] + rest.value)
  }

  /** The ZIP64 record agrees with the locator that led to it and with the end record. */
  predicate EndsPlausible(end: seq<nat>, locator: seq<nat>, end64: seq<nat>)
  {
    && |end| == 8 && |locator| == 4 && |end64| == 10
    && end[0] == END_SIG && end[7] == 0 && locator[0] == LOCATOR_SIG && locator[3] == 1
    && end64[0] == END64_SIG && end64[9] + end64[8] == locator[2]
    && end64[6] == end64[7] && end[3] == Shown(end64[7]) && end[4] == end[3]
  }

  /** The file count and the start of the directory, by way of the end record, the
      locator and the ZIP64 record. */
  function ReadEnds(src: Source): (r: Option<(nat, nat)>)
  {
    if src.length < 42 then None
    else
      var end, locator := src.fields(src.length - 22, 22, END), src.fields(src.length - 42, 20, LOCATOR);
      if end.None? || locator.None? || |locator.value| != 4 then None
      else
        var end64 := src.fields(locator.value[2], 56, END64);
        if end64.None? || !EndsPlausible(end.value, locator.value, end64.value) then None
        else Some((end64.value[7], end64.value[9]))
  }

  function Next(src: Source, checksum: Checksum): (r: nat -> Option<(File, nat)>)
  {
    (at: nat) => ReadFile(src, at, checksum)
  }

  function ReadSource(src: Source, checksum: Checksum): (r: Option<seq<File>>)
  {
    var ends := ReadEnds(src);
    if ends.None? then None else ReadFiles(Next(src, checksum), ends.value.1, ends.value.0)
  }

  function Read(z: seq<Byte>, checksum: Checksum): (r: Option<seq<File>>)
  {
    ReadSource(SourceOf(z), checksum)
  }
}
