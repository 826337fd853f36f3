/** Reading an archive back gives exactly the files it was made from. */
module Zip64Theorems {
  import opened Common
  import opened ByteOrder
  import opened Zip64

  lemma FieldsRead(z: seq<Byte>, at: nat, format: string, values: seq<nat>)
    requires Fits(format, values) && Holds(z, at, Pack(format, values))
    ensures Fields(z, at, Size(format), format) == Some(values)
  {
    var packed := Pack(format, values);
    PackSize(format, values);
    assert z[at..at + Size(format)] == packed;
    UnpackPack(format, values);
    assert Fields(z, at, Size(format), format) == Some(Unpack(format, packed));
  }

  // ------------------------------------------------------------------- one file

  lemma LocalFits(name: seq<Byte>, style: Style)
    requires ValidStyle(style) && |name| <= MAX16
    ensures Fits(LOCAL, LocalFields(name, style)) && Fits(LOCAL_EXTRA, [1, 16, 0, 0])
  {
  }

  lemma CentralFits(name: seq<Byte>, crc: nat, size: nat, offset: nat, style: Style)
    requires ValidStyle(style) && |name| <= MAX16 && crc <= MAX32 && size <= MAX64 && offset <= MAX64
    ensures Fits(CENTRAL, CentralFields(name, crc, style)) && Fits(CENTRAL_EXTRA, [1, 24, size, size, offset])
  {
  }

  lemma BlockLength(f: File, style: Style)
    ensures |LocalHeader(f.name, style)| == 50 + |f.name|
    ensures |Block(f, style)| == 74 + |f.name| + |f.data|
  {
    LocalSizes();
    PackSize(LOCAL, LocalFields(f.name, style));
    PackSize(LOCAL_EXTRA, [1, 16, 0, 0]);
    PackSize(DESCRIPTOR, DescriptorFields(style.checksum(f.data, 0), |f.data|));
  }

  lemma EntryLength(name: seq<Byte>, crc: nat, size: nat, offset: nat, style: Style)
    ensures |CentralEntry(name, crc, size, offset, style)| == 74 + |name|
  {
    CentralSizes();
    PackSize(CENTRAL, CentralFields(name, crc, style));
    PackSize(CENTRAL_EXTRA, [1, 24, size, size, offset]);
  }

  lemma HeaderParts(z: seq<Byte>, at: nat, name: seq<Byte>, style: Style)
    requires Holds(z, at, LocalHeader(name, style))
    ensures Holds(z, at, Pack(LOCAL, LocalFields(name, style))) && Holds(z, at + 30, name)
  {
    LocalSizes();
    PackSize(LOCAL, LocalFields(name, style));
    HoldsThree(z, at, Pack(LOCAL, LocalFields(name, style)), name, Pack(LOCAL_EXTRA, [1, 16, 0, 0]));
  }

  lemma HeaderRead(z: seq<Byte>, at: nat, name: seq<Byte>, style: Style)
    requires Holds(z, at, Pack(LOCAL, LocalFields(name, style))) && ValidStyle(style) && |name| <= MAX16
    ensures Fields(z, at, 30, LOCAL) == Some(LocalFields(name, style))
  {
    LocalFits(name, style);
    LocalSizes();
    FieldsRead(z, at, LOCAL, LocalFields(name, style));
  }

  /** Where the parts of a block lie. */
  lemma BlockParts(z: seq<Byte>, at: nat, f: File, style: Style)
    requires Holds(z, at, Block(f, style))
    ensures Holds(z, at, LocalHeader(f.name, style))
    ensures Holds(z, at + 50 + |f.name|, f.data)
    ensures Holds(z, at + 50 + |f.name| + |f.data|, Descriptor(style.checksum(f.data, 0), |f.data|))
  {
    var header, tail := LocalHeader(f.name, style), Descriptor(style.checksum(f.data, 0), |f.data|);
    BlockLength(f, style);
    HoldsThree(z, at, header, f.data, tail);
  }

  lemma DescriptorRead(z: seq<Byte>, at: nat, crc: nat, size: nat)
    requires Holds(z, at, Descriptor(crc, size)) && crc <= MAX32 && size <= MAX64
    ensures Fields(z, at, 24, DESCRIPTOR) == Some(DescriptorFields(crc, size))
  {
    LocalSizes();
    FieldsRead(z, at, DESCRIPTOR, DescriptorFields(crc, size));
  }

  /** What reading at a block finds. */
  lemma BlockFound(z: seq<Byte>, at: nat, f: File, style: Style)
    requires Holds(z, at, Block(f, style)) && ValidStyle(style) && |f.name| <= MAX16 && |f.data| <= MAX64
    ensures Fields(z, at, 30, LOCAL) == Some(LocalFields(f.name, style))
    ensures Slice(z, at + 30, |f.name|) == Some(f.name)
    ensures Slice(z, at + 50 + |f.name|, |f.data|) == Some(f.data)
    ensures Fields(z, at + 50 + |f.name| + |f.data|, 24, DESCRIPTOR)
            == Some(DescriptorFields(style.checksum(f.data, 0), |f.data|))
  {
    BlockParts(z, at, f, style);
    HeaderParts(z, at, f.name, style);
    HeaderRead(z, at, f.name, style);
    DescriptorRead(z, at + 50 + |f.name| + |f.data|, style.checksum(f.data, 0), |f.data|);
  }

  lemma EntryParts(z: seq<Byte>, at: nat, name: seq<Byte>, crc: nat, size: nat, offset: nat, style: Style)
    requires Holds(z, at, CentralEntry(name, crc, size, offset, style))
    ensures Holds(z, at, Pack(CENTRAL, CentralFields(name, crc, style))) && Holds(z, at + 46, name)
    ensures Holds(z, at + 46 + |name|, Pack(CENTRAL_EXTRA, [1, 24, size, size, offset]))
  {
    CentralSizes();
    PackSize(CENTRAL, CentralFields(name, crc, style));
    HoldsThree(z, at, Pack(CENTRAL, CentralFields(name, crc, style)), name, Pack(CENTRAL_EXTRA, [1, 24, size, size, offset]));
  }

  lemma CentralRead(z: seq<Byte>, at: nat, name: seq<Byte>, crc: nat, style: Style)
    requires Holds(z, at, Pack(CENTRAL, CentralFields(name, crc, style)))
    requires ValidStyle(style) && |name| <= MAX16 && crc <= MAX32
    ensures Fields(z, at, 46, CENTRAL) == Some(CentralFields(name, crc, style))
  {
    CentralFits(name, crc, 0, 0, style);
    CentralSizes();
    FieldsRead(z, at, CENTRAL, CentralFields(name, crc, style));
  }

  lemma ExtraRead(z: seq<Byte>, at: nat, size: nat, offset: nat)
    requires Holds(z, at, Pack(CENTRAL_EXTRA, [1, 24, size, size, offset])) && size <= MAX64 && offset <= MAX64
    ensures Fields(z, at, 28, CENTRAL_EXTRA) == Some([1, 24, size, size, offset])
  {
    CentralSizes();
    FieldsRead(z, at, CENTRAL_EXTRA, [1, 24, size, size, offset]);
  }

  /** What reading at a directory entry finds. */
  lemma EntryFound(z: seq<Byte>, at: nat, name: seq<Byte>, crc: nat, size: nat, offset: nat, style: Style)
    requires Holds(z, at, CentralEntry(name, crc, size, offset, style))
    requires ValidStyle(style) && |name| <= MAX16 && crc <= MAX32 && size <= MAX64 && offset <= MAX64
    ensures Fields(z, at, 46, CENTRAL) == Some(CentralFields(name, crc, style))
    ensures Slice(z, at + 46, |name|) == Some(name)
    ensures Fields(z, at + 46 + |name|, 28, CENTRAL_EXTRA) == Some([1, 24, size, size, offset])
  {
    EntryParts(z, at, name, crc, size, offset, style);
    CentralRead(z, at, name, crc, style);
    ExtraRead(z, at + 46 + |name|, size, offset);
  }

  // ------------------------------------------------------------------- what a reader makes of it

  /** A source shows a block at `at`. */
  ghost predicate ShowsBlock(src: Source, at: nat, f: File, style: Style)
  {
    && src.fields(at, 30, LOCAL) == Some(LocalFields(f.name, style))
    && src.slice(at + 30, |f.name|) == Some(f.name)
    && src.slice(at + 50 + |f.name|, |f.data|) == Some(f.data)
    && src.fields(at + 50 + |f.name| + |f.data|, 24, DESCRIPTOR)
       == Some(DescriptorFields(style.checksum(f.data, 0), |f.data|))
  }

  /** A source shows a directory entry at `at`. */
  ghost predicate ShowsEntry(src: Source, at: nat, info: Info, style: Style)
  {
    && src.fields(at, 46, CENTRAL) == Some(CentralFields(info.name, info.crc, style))
    && src.slice(at + 46, |info.name|) == Some(info.name)
    && src.fields(at + 46 + |info.name|, 28, CENTRAL_EXTRA) == Some([1, 24, info.size, info.size, info.offset])
    && info.next == at + 74 + |info.name|
  }

  lemma LocalRead(src: Source, info: Info, f: File, style: Style)
    requires ShowsBlock(src, info.offset, f, style)
    requires info.name == f.name && info.crc == style.checksum(f.data, 0) && info.size == |f.data|
    ensures ReadLocal(src, info, style.checksum) == Some(f.data)
  {
    assert LocalPlausible(LocalFields(f.name, style), info.name);
  }

  lemma EntryRead(src: Source, at: nat, info: Info, style: Style)
    requires ShowsEntry(src, at, info, style)
    ensures ReadEntry(src, at) == Some(info)
  {
    assert EntryPlausible(CentralFields(info.name, info.crc, style));
    assert ExtraPlausible([1, 24, info.size, info.size, info.offset]);
  }

  // ------------------------------------------------------------------- all of them

  lemma BlockInBody(files: seq<File>, k: nat, style: Style)
    requires k < |files|
    ensures Holds(Body(files, style), |Body(files[..k], style)|, Block(files[k], style))
  {
    PieceInPlace(Blocks(files, style), k);
    assert Blocks(files, style)[..k] == Blocks(files[..k], style);
  }

  lemma EntryInDirectory(files: seq<File>, k: nat, style: Style)
    requires k < |files|
    ensures Holds(Directory(files, style), |Concat(Entries(files, style)[..k])|, Entry(files, k, style))
    ensures |Concat(Entries(files, style)[..k + 1])| == |Concat(Entries(files, style)[..k])| + |Entry(files, k, style)|
  {
    PieceInPlace(Entries(files, style), k);
  }

  /** What `Representable` means for the `k`th file. */
  lemma FileFits(files: seq<File>, k: nat, style: Style)
    requires k < |files| && Representable(files, style)
    ensures |files[k].name| <= MAX16 && |files[k].data| <= MAX64 && |Body(files[..k], style)| <= MAX64
  {
    BlockInBody(files, k, style);
    BlockLength(files[k], style);
  }

  /** Where the `k`th directory entry starts. */
  function Place(files: seq<File>, k: nat, style: Style): (r: nat)
    requires k <= |files|
  {
    |Body(files, style)| + |Concat(Entries(files, style)[..k])|
  }

  function InfoOf(files: seq<File>, k: nat, style: Style): (r: Info)
    requires k < |files|
  {
    Info(files[k].name, style.checksum(files[k].data, 0), |files[k].data|, |Body(files[..k], style)|, Place(files, k + 1, style))
  }

  lemma EntryPlaced(z: seq<Byte>, files: seq<File>, k: nat, style: Style)
    requires k < |files| && Holds(z, |Body(files, style)|, Directory(files, style))
    ensures Holds(z, Place(files, k, style), Entry(files, k, style))
    ensures Place(files, k + 1, style) == Place(files, k, style) + 74 + |files[k].name|
  {
    EntryInDirectory(files, k, style);
    EntryLength(files[k].name, style.checksum(files[k].data, 0), |files[k].data|, |Body(files[..k], style)|, style);
    HoldsWithin(z, |Body(files, style)|, Directory(files, style), |Concat(Entries(files, style)[..k])|, Entry(files, k, style));
  }

  lemma EntryShown(z: seq<Byte>, files: seq<File>, k: nat, style: Style)
    requires k < |files| && Representable(files, style) && Holds(z, |Body(files, style)|, Directory(files, style))
    ensures ShowsEntry(SourceOf(z), Place(files, k, style), InfoOf(files, k, style), style)
  {
    FileFits(files, k, style);
    EntryPlaced(z, files, k, style);
    EntryFound(z, Place(files, k, style), files[k].name, style.checksum(files[k].data, 0), |files[k].data|,
               |Body(files[..k], style)|, style);
  }

  lemma BlockPlaced(z: seq<Byte>, files: seq<File>, k: nat, style: Style)
    requires k < |files| && Holds(z, 0, Body(files, style))
    ensures Holds(z, |Body(files[..k], style)|, Block(files[k], style))
  {
    BlockInBody(files, k, style);
    HoldsWithin(z, 0, Body(files, style), |Body(files[..k], style)|, Block(files[k], style));
  }

  lemma BlockShown(z: seq<Byte>, files: seq<File>, k: nat, style: Style)
    requires k < |files| && Representable(files, style) && Holds(z, 0, Body(files, style))
    ensures ShowsBlock(SourceOf(z), |Body(files[..k], style)|, files[k], style)
  {
    FileFits(files, k, style);
    BlockPlaced(z, files, k, style);
    BlockFound(z, |Body(files[..k], style)|, files[k], style);
  }

  /** Each directory entry leads to its own local header, contents and descriptor. */
  lemma FileRead(src: Source, files: seq<File>, k: nat, style: Style)
    requires k < |files|
    requires ShowsEntry(src, Place(files, k, style), InfoOf(files, k, style), style)
    requires ShowsBlock(src, |Body(files[..k], style)|, files[k], style)
    ensures ReadFile(src, Place(files, k, style), style.checksum) == Some((files[k], Place(files, k + 1, style)))
  {
    EntryRead(src, Place(files, k, style), InfoOf(files, k, style), style);
    LocalRead(src, InfoOf(files, k, style), files[k], style);
  }

  lemma {:induction false} FilesRead(next: nat -> Option<(File, nat)>, files: seq<File>, places: seq<nat>, k: nat)
    requires k <= |files| && |places| == |files| + 1
    requires forall i :: 0 <= i < |files| ==> next(places[i]) == Some((files[i], places[i + 1]))
    ensures ReadFiles(next, places[k], |files| - k) == Some(files[k..])
    decreases |files| - k
  {
    if k < |files| {
      FilesRead(next, files, places, k + 1);
      assert [files[k]] + files[k + 1..] == files[k..];
    }
  }

  lemma EndFits(count: nat, size: nat, base: nat)
    requires count <= MAX64 && size + base <= MAX64
    ensures Fits(END64, [END64_SIG, 44, MADE_BY, VERSION, 0, 0, count, count, size, base])
    ensures Fits(LOCATOR, [LOCATOR_SIG, 0, base + size, 1])
    ensures Fits(END, [END_SIG, 0, 0, Shown(count), Shown(count), MAX32, MAX32, 0])
  {
  }

  /** The three end records, found after `at`. */
  lemma EndsRead(z: seq<Byte>, count: nat, size: nat, base: nat)
    requires count <= MAX64 && size + base <= MAX64 && Holds(z, base + size, EndRecords(count, size, base))
    ensures |EndRecords(count, size, base)| == 98
    ensures Fields(z, base + size + 76, 22, END) == Some([END_SIG, 0, 0, Shown(count), Shown(count), MAX32, MAX32, 0])
    ensures Fields(z, base + size + 56, 20, LOCATOR) == Some([LOCATOR_SIG, 0, base + size, 1])
    ensures Fields(z, base + size, 56, END64) == Some([END64_SIG, 44, MADE_BY, VERSION, 0, 0, count, count, size, base])
  {
    var end64 := [END64_SIG, 44, MADE_BY, VERSION, 0, 0, count, count, size, base];
    var locator := [LOCATOR_SIG, 0, base + size, 1];
    var end := [END_SIG, 0, 0, Shown(count), Shown(count), MAX32, MAX32, 0];
    EndSizes();
    EndFits(count, size, base);
    PackSize(END64, end64);
    PackSize(LOCATOR, locator);
    PackSize(END, end);
    HoldsParts(z, base + size, End64Record(count, size, base) + LocatorRecord(size, base), EndRecord(count));
    HoldsParts(z, base + size, End64Record(count, size, base), LocatorRecord(size, base));
    FieldsRead(z, base + size, END64, end64);
    FieldsRead(z, base + size + 56, LOCATOR, locator);
    FieldsRead(z, base + size + 76, END, end);
  }

  ghost predicate ShowsEnds(src: Source, count: nat, size: nat, base: nat)
  {
    && src.length == base + size + 98
    && src.fields(base + size + 76, 22, END) == Some([END_SIG, 0, 0, Shown(count), Shown(count), MAX32, MAX32, 0])
    && src.fields(base + size + 56, 20, LOCATOR) == Some([LOCATOR_SIG, 0, base + size, 1])
    && src.fields(base + size, 56, END64) == Some([END64_SIG, 44, MADE_BY, VERSION, 0, 0, count, count, size, base])
  }

  /** The end records lead to the count and the directory. */
  lemma ArchiveEnds(src: Source, count: nat, size: nat, base: nat)
    requires ShowsEnds(src, count, size, base)
    ensures ReadEnds(src) == Some((count, base))
  {
    assert EndsPlausible([END_SIG, 0, 0, Shown(count), Shown(count), MAX32, MAX32, 0], [LOCATOR_SIG, 0, base + size, 1],
                         [END64_SIG, 44, MADE_BY, VERSION, 0, 0, count, count, size, base]);
  }

  lemma EndsShown(files: seq<File>, style: Style)
    requires Representable(files, style)
    ensures ShowsEnds(SourceOf(Archive(files, style)), |files|, |Directory(files, style)|, |Body(files, style)|)
  {
    var z, count, size, base := Archive(files, style), |files|, |Directory(files, style)|, |Body(files, style)|;
    assert Holds(z, base + size, EndRecords(count, size, base));
    EndsRead(z, count, size, base);
  }

  lemma PlacesRead(next: nat -> Option<(File, nat)>, files: seq<File>, style: Style)
    requires forall k :: 0 <= k < |files| ==> next(Place(files, k, style)) == Some((files[k], Place(files, k + 1, style)))
    ensures ReadFiles(next, Place(files, 0, style), |files|) == Some(files)
  {
    var places := seq(|files| + 1, k requires 0 <= k < |files| + 1 => Place(files, k, style));
    FilesRead(next, files, places, 0);
    assert files[0..] == files;
  }

  /** All a source must show to be read as these files. */
  ghost predicate ShowsFiles(src: Source, files: seq<File>, style: Style)
  {
    forall k :: 0 <= k < |files| ==>
      && ShowsEntry(src, Place(files, k, style), InfoOf(files, k, style), style)
      && ShowsBlock(src, |Body(files[..k], style)|, files[k], style)
  }

  lemma DirectoryRead(src: Source, files: seq<File>, style: Style)
    requires ShowsFiles(src, files, style)
    ensures ReadFiles(Next(src, style.checksum), |Body(files, style)|, |files|) == Some(files)
  {
    forall k | 0 <= k < |files|
      ensures Next(src, style.checksum)(Place(files, k, style)) == Some((files[k], Place(files, k + 1, style)))
    {
      FileRead(src, files, k, style);
    }
    PlacesRead(Next(src, style.checksum), files, style);
    assert Entries(files, style)[..0] == [];
  }

  lemma SourceRead(src: Source, files: seq<File>, style: Style)
    requires ShowsFiles(src, files, style) && ShowsEnds(src, |files|, |Directory(files, style)|, |Body(files, style)|)
    ensures ReadSource(src, style.checksum) == Some(files)
  {
    ArchiveEnds(src, |files|, |Directory(files, style)|, |Body(files, style)|);
    DirectoryRead(src, files, style);
  }

  lemma ArchiveShown(files: seq<File>, style: Style)
    requires Representable(files, style)
    ensures ShowsFiles(SourceOf(Archive(files, style)), files, style)
  {
    var z := Archive(files, style);
    assert Holds(z, 0, Body(files, style)) && Holds(z, |Body(files, style)|, Directory(files, style));
    forall k | 0 <= k < |files|
      ensures ShowsEntry(SourceOf(z), Place(files, k, style), InfoOf(files, k, style), style)
      ensures ShowsBlock(SourceOf(z), |Body(files[..k], style)|, files[k], style)
    {
      EntryShown(z, files, k, style);
      BlockShown(z, files, k, style);
    }
  }

  /** Working back from the end record, a reader recovers every name and every
      content, in order, and finds every field and checksum right. */
  lemma RoundTrip(files: seq<File>, style: Style)
    requires Representable(files, style)
    ensures Read(Archive(files, style), style.checksum) == Some(files)
  {
    ArchiveShown(files, style);
    EndsShown(files, style);
    SourceRead(SourceOf(Archive(files, style)), files, style);
  }
}
