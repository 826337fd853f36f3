/**
 File content over the workspace stream: numbered chunks packed without JSON, the
 upload a session assembles from them, and the chunks a read is streamed as.
 */
module Chunks {
  import opened Common
  import opened ByteOrder

  const CHUNK_LIMIT := 32768
  const FILE_LIMIT := 2097152

  /** A request identifier: ASCII letters, digits, `_` and `-`, by their codes. */
  type Name = seq<Byte>

  predicate NameByte(b: Byte)
  {
    48 <= b <= 57 || 65 <= b <= 90 || 97 <= b <= 122 || b == 95 || b == 45
  }

  predicate ValidName(name: Name)
  {
    1 <= |name| <= 64 && forall i :: 0 <= i < |name| ==> NameByte(name[i])
  }

  datatype Chunk = Chunk(id: Name, sequence: nat, data: seq<Byte>)

  predicate ValidChunk(c: Chunk)
  {
    ValidName(c.id) && c.sequence <= MAX_U32 && |c.data| <= CHUNK_LIMIT
  }

  /** `pack_chunk`; none where it raises. */
  function PackChunk(c: Chunk): (r: Option<seq<Byte>>)
    ensures r.Some? <==> ValidChunk(c)
  {
    if !ValidChunk(c) then None else Some([|c.id|] + c.id + Be32(c.sequence) + c.data)
  }

  /** `unpack_chunk`; none where it raises. */
  function UnpackChunk(p: seq<Byte>): (r: Option<Chunk>)
  {
    if |p| < 6 then None
    else
      var n: nat := p[0];
      if !(1 <= n <= 64) || |p| < 5 + n || !ValidName(p[1..1 + n]) || |p[5 + n..]| > CHUNK_LIMIT then None
      else Some(Chunk(p[1..1 + n], UnBe32(p[1 + n..5 + n]), p[5 + n..]))
  }

  /** Unpacking undoes packing on everything that packs. */
  lemma UnpackPacked(c: Chunk)
    requires ValidChunk(c)
    ensures UnpackChunk(PackChunk(c).value) == Some(c)
  {
    var p, n := PackChunk(c).value, |c.id|;
    assert p[1..1 + n] == c.id && p[1 + n..5 + n] == Be32(c.sequence) && p[5 + n..] == c.data;
    UnBe32Be32(c.sequence);
  }

  /** Packing undoes unpacking on everything that unpacks. */
  lemma PackUnpacked(p: seq<Byte>)
    requires UnpackChunk(p).Some?
    ensures PackChunk(UnpackChunk(p).value) == Some(p)
  {
    var c, n := UnpackChunk(p).value, p[0] as nat;
    Be32UnBe32(p[1 + n..5 + n]);
    assert p == [p[0]] + p[1..1 + n] + p[1 + n..5 + n] + p[5 + n..];
  }

  // ------------------------------------------------------------------- an upload

  datatype Pending = Pending(id: Name, size: nat, sequence: nat, data: seq<Byte>)

  /** The content hash, and which bytes are UTF-8 text. */
  datatype Codec = Codec(digest: seq<Byte> -> string, isText: seq<Byte> -> bool)

  /** What a session does with one record: it fails, or it goes on, perhaps with
      content to write. */
  datatype Reply = Fatal | Next(pending: Option<Pending>, written: Option<seq<Byte>>)

  datatype Op =
    | Begin(id: Name, size: int)
    | Piece(chunk: Chunk)
    | End(id: Name, size: int, sha256: string)
    | Cancel(id: Name)

  function Step(pending: Option<Pending>, op: Op, codec: Codec): (r: Reply)
  {
    match op
    case Begin(id, size) =>
      if !ValidName(id) || pending.Some? || !(0 <= size <= FILE_LIMIT) then Fatal
      else Next(Some(Pending(id, size, 0, [])), None)
    case Piece(c) =>
      if pending.None? || c.id != pending.value.id || c.sequence != pending.value.sequence then Fatal
      else if |pending.value.data| + |c.data| > pending.value.size then Fatal
      else Next(Some(pending.value.(data := pending.value.data + c.data, sequence := pending.value.sequence + 1)), None)
    case End(id, size, sha256) =>
      if !ValidName(id) || pending.None? || id != pending.value.id || size != |pending.value.data| then Fatal
      else if codec.digest(pending.value.data) != sha256 then Fatal
      else Next(None, if codec.isText(pending.value.data) then Some(pending.value.data) else None)
    case Cancel(id) =>
      if !ValidName(id) then Fatal
      else Next(if pending.Some? && pending.value.id == id then None else pending, None)
  }

  /** The state after a run; fatal as soon as one record was. */
  function Run(ops: seq<Op>, codec: Codec): (r: Reply)
  {
    if ops == [] then Next(None, None)
    else
      var before := Run(ops[..|ops| - 1], codec);
      if before.Fatal? then Fatal else Step(before.pending, ops[|ops| - 1], codec)
  }

  /** The chunk contents since the last upload began. */
  function Pieces(ops: seq<Op>): (r: seq<seq<Byte>>)
  {
    if ops == [] then []
    else
      match ops[|ops| - 1]
      case Begin(_, _) => []
      case Piece(c) => Pieces(ops[..|ops| - 1]) + [c.data]
      case _ => Pieces(ops[..|ops| - 1])
  }

  /** In every run: what a session has received is exactly its chunks in order, as
      many as it has counted, within the declared size and the file limit. */
  lemma {:induction false} UploadSoFar(ops: seq<Op>, codec: Codec)
    requires Run(ops, codec).Next? && Run(ops, codec).pending.Some?
    ensures var p := Run(ops, codec).pending.value;
            p.data == Concat(Pieces(ops)) && p.sequence == |Pieces(ops)| && |p.data| <= p.size <= FILE_LIMIT
    decreases |ops|
  {
    var front, op := ops[..|ops| - 1], ops[|ops| - 1];
    if !op.Begin? {
      UploadSoFar(front, codec);
      if op.Piece? {
        ConcatSnoc(Pieces(front), op.chunk.data);
      }
    }
  }

  /** Whatever is written is the in-order concatenation of the chunks sent for it,
      within two mebibytes, and has the digest the client named. */
  lemma WrittenIsSent(ops: seq<Op>, codec: Codec)
    requires ops != [] && Run(ops, codec).Next? && Run(ops, codec).written.Some?
    ensures var front, op := ops[..|ops| - 1], ops[|ops| - 1];
            && op.End? && Run(ops, codec).written.value == Concat(Pieces(front))
            && |Run(ops, codec).written.value| == op.size <= FILE_LIMIT
            && codec.digest(Concat(Pieces(front))) == op.sha256 && Run(ops, codec).pending.None?
  {
    UploadSoFar(ops[..|ops| - 1], codec);
  }

  // ------------------------------------------------------------------- a download

  /** Content cut into chunks from number `sequence` on. */
  function Cut(id: Name, content: seq<Byte>, sequence: nat): (r: seq<Chunk>)
    decreases |content|
  {
    if content == [] then []
    else if |content| <= CHUNK_LIMIT then [Chunk(id, sequence, content)]
    else [Chunk(id, sequence, content[..CHUNK_LIMIT])] + Cut(id, content[CHUNK_LIMIT..], sequence + 1)
  }

  function Contents(chunks: seq<Chunk>): (r: seq<seq<Byte>>)
  {
    seq(|chunks|, i requires 0 <= i < |chunks| => chunks[i].data)
  }

  lemma {:induction false} CutWhole(id: Name, content: seq<Byte>, sequence: nat)
    ensures var chunks := Cut(id, content, sequence);
            && Concat(Contents(chunks)) == content
            && (forall i :: 0 <= i < |chunks| ==>
                  chunks[i].id == id && chunks[i].sequence == sequence + i && 1 <= |chunks[i].data| <= CHUNK_LIMIT)
            && (content != [] ==> CHUNK_LIMIT * (|chunks| - 1) < |content| <= CHUNK_LIMIT * |chunks|)
    decreases |content|
  {
    var chunks := Cut(id, content, sequence);
    if |content| > CHUNK_LIMIT {
      CutWhole(id, content[CHUNK_LIMIT..], sequence + 1);
      assert Contents(chunks)[1..] == Contents(chunks[1..]);
      assert content[..CHUNK_LIMIT] + content[CHUNK_LIMIT..] == content;
    } else if content != [] {
      assert Contents(chunks)[1..] == [];
    }
  }

  /** A read streams without error exactly when its content has at most 2^47 bytes,
      since a chunk number has 32 bits. */
  lemma StreamableIff(id: Name, content: seq<Byte>)
    requires ValidName(id)
    ensures (forall i :: 0 <= i < |Cut(id, content, 0)| ==> PackChunk(Cut(id, content, 0)[i]).Some?)
            <==> |content| <= CHUNK_LIMIT * (MAX_U32 + 1)
  {
    var chunks := Cut(id, content, 0);
    CutWhole(id, content, 0);
    if |chunks| > MAX_U32 + 1 {
      assert chunks[MAX_U32 + 1].sequence == MAX_U32 + 1;
    }
  }

  function PieceOps(chunks: seq<Chunk>): (r: seq<Op>)
  {
    seq(|chunks|, i requires 0 <= i < |chunks| => Piece(chunks[i]))
  }

  lemma OneMoreSent(id: Name, content: seq<Byte>, k: nat)
    requires k < |Cut(id, content, 0)|
    ensures var chunks := Cut(id, content, 0);
            && chunks[k].id == id && chunks[k].sequence == k
            && Concat(Contents(chunks)[..k + 1]) == Concat(Contents(chunks)[..k]) + chunks[k].data
            && |Concat(Contents(chunks)[..k + 1])| <= |content|
  {
    var sent := Contents(Cut(id, content, 0));
    CutWhole(id, content, 0);
    ConcatSnoc(sent[..k], sent[k]);
    assert sent[..k + 1] == sent[..k] + [sent[k]];
    ConcatAppend(sent[..k + 1], sent[k + 1..]);
    assert sent[..k + 1] + sent[k + 1..] == sent;
  }

  lemma {:induction false} ReplaySoFar(id: Name, content: seq<Byte>, size: nat, k: nat, codec: Codec)
    requires ValidName(id) && |content| <= size <= FILE_LIMIT && k <= |Cut(id, content, 0)|
    ensures var sent := Contents(Cut(id, content, 0))[..k];
            Run([Begin(id, size)] + PieceOps(Cut(id, content, 0))[..k], codec)
            == Next(Some(Pending(id, size, k, Concat(sent))), None)
  {
    var chunks := Cut(id, content, 0);
    var ops := [Begin(id, size)] + PieceOps(chunks)[..k];
    if k == 0 {
      assert ops == [Begin(id, size)] && ops[..0] == [];
      assert Run(ops[..0], codec) == Next(None, None);
    } else {
      ReplaySoFar(id, content, size, k - 1, codec);
      assert ops[..k] == [Begin(id, size)] + PieceOps(chunks)[..k - 1] && ops[k] == Piece(chunks[k - 1]);
      OneMoreSent(id, content, k - 1);
    }
  }

  /** The chunks of a read, sent back as an upload, are accepted and rebuild it. */
  lemma StreamRebuilds(id: Name, content: seq<Byte>, size: nat, codec: Codec)
    requires ValidName(id) && |content| <= size <= FILE_LIMIT && codec.isText(content)
    ensures Run([Begin(id, size)] + PieceOps(Cut(id, content, 0)) + [End(id, |content|, codec.digest(content))], codec)
            == Next(None, Some(content))
  {
    var pieces := PieceOps(Cut(id, content, 0));
    var ops := [Begin(id, size)] + pieces + [End(id, |content|, codec.digest(content))];
    ReplaySoFar(id, content, size, |pieces|, codec);
    CutWhole(id, content, 0);
    assert pieces[..|pieces|] == pieces && ops[..|ops| - 1] == [Begin(id, size)] + pieces;
    assert Contents(Cut(id, content, 0))[..|pieces|] == Contents(Cut(id, content, 0));
  }

  // ------------------------------------------------------------------- the session

  lemma RunSnoc(ops: seq<Op>, op: Op, codec: Codec)
    ensures Run(ops + [op], codec)
            == if Run(ops, codec).Fatal? then Fatal else Step(Run(ops, codec).pending, op, codec)
  {
    assert (ops + [op])[..|ops|] == ops;
  }

  class Session {
    const codec: Codec
    const readOnly: bool
    var pending: Option<Pending>

    /** The records accepted so far. */
    ghost var ops: seq<Op>

    constructor (codec: Codec, readOnly: bool)
      ensures this.codec == codec && this.readOnly == readOnly && Valid() && ops == []
    {
      this.codec, this.readOnly, pending, ops := codec, readOnly, None, [];
    }

    /** No record failed, and the upload under way is the one the records make. */
    ghost predicate Valid()
      reads this
    {
      Run(ops, codec).Next? && Run(ops, codec).pending == pending
    }

    /** A write request. */
    method BeginWrite(id: Name, size: int) returns (fatal: bool)
      requires Valid()
      modifies this
      ensures fatal <==> readOnly || Run(old(ops) + [Begin(id, size)], codec).Fatal?
      ensures !fatal ==> Valid() && ops == old(ops) + [Begin(id, size)]
    {
      RunSnoc(ops, Begin(id, size), codec);
      if !ValidName(id) || readOnly || pending.Some? || !(0 <= size <= FILE_LIMIT) {
        return true;
      }
      pending := Some(Pending(id, size, 0, []));
      ops := ops + [Begin(id, size)];
      fatal := false;
    }

    /** A chunk is taken exactly when it is the next one of the upload under way and
        fits its size; what the session then holds is the chunks so far, in order. */
    method FileChunk(c: Chunk) returns (fatal: bool)
      requires Valid()
      modifies this
      ensures fatal <==> Run(old(ops) + [Piece(c)], codec).Fatal?
      ensures fatal <==> !(&& old(pending).Some? && c.id == old(pending).value.id && c.sequence == |Pieces(old(ops))|
                           && |Concat(Pieces(old(ops)))| + |c.data| <= old(pending).value.size)
      ensures !fatal ==> Valid() && ops == old(ops) + [Piece(c)]
      ensures !fatal ==> pending.Some? && pending.value.data == Concat(Pieces(ops))
    {
      RunSnoc(ops, Piece(c), codec);
      if pending.Some? {
        UploadSoFar(ops, codec);
      }
      if pending.None? || c.id != pending.value.id || c.sequence != pending.value.sequence {
        return true;
      }
      if |pending.value.data| + |c.data| > pending.value.size {
        return true;
      }
      pending := Some(pending.value.(data := pending.value.data + c.data));
      pending := Some(pending.value.(sequence := pending.value.sequence + 1));
      ops := ops + [Piece(c)];
      UploadSoFar(ops, codec);
      fatal := false;
    }

    /** The content to write, when there is some: the chunks sent for it, in order, with
        the length and digest the client named, if they are text. */
    method FileEnd(id: Name, size: int, sha256: string) returns (fatal: bool, written: Option<seq<Byte>>)
      requires Valid()
      modifies this
      ensures fatal <==> Run(old(ops) + [End(id, size, sha256)], codec).Fatal?
      ensures !fatal ==> Valid() && ops == old(ops) + [End(id, size, sha256)] && pending == None
      ensures var content := Concat(Pieces(old(ops)));
              && (!fatal ==> |content| == size <= FILE_LIMIT && codec.digest(content) == sha256)
              && written == if !fatal && codec.isText(content) then Some(content) else None
    {
      RunSnoc(ops, End(id, size, sha256), codec);
      if !ValidName(id) || pending.None? || id != pending.value.id || size != |pending.value.data| {
        return true, None;
      }
      UploadSoFar(ops, codec);
      var data := pending.value.data;
      pending := None;
      if codec.digest(data) != sha256 {
        return true, None;
      }
      ops := ops + [End(id, size, sha256)];
      return false, if codec.isText(data) then Some(data) else None;
    }

    /** Whether the identifier named the upload under way. */
    method CancelWrite(id: Name) returns (fatal: bool, found: bool)
      requires Valid()
      modifies this
      ensures fatal <==> Run(old(ops) + [Cancel(id)], codec).Fatal?
      ensures !fatal ==> Valid() && ops == old(ops) + [Cancel(id)]
      ensures found <==> !fatal && old(pending).Some? && old(pending).value.id == id
      ensures !fatal && old(pending).Some? ==> (pending == None <==> found)
    {
      RunSnoc(ops, Cancel(id), codec);
      if !ValidName(id) {
        return true, false;
      }
      found := pending.Some? && pending.value.id == id;
      if found {
        pending := None;
      }
      ops := ops + [Cancel(id)];
      fatal := false;
    }

    /** A read's content, sent as packed chunks until one does not pack. */
    method StreamRead(id: Name, content: seq<Byte>) returns (sent: seq<seq<Byte>>, raised: bool)
      requires ValidName(id)
      ensures raised <==> |content| > CHUNK_LIMIT * (MAX_U32 + 1)
      ensures !raised ==> |sent| == |Cut(id, content, 0)|
      ensures forall i :: 0 <= i < |sent| ==> i < |Cut(id, content, 0)| && UnpackChunk(sent[i]) == Some(Cut(id, content, 0)[i])
    {
      sent, raised := [], false;
      ghost var chunks := Cut(id, content, 0);
      StreamableIff(id, content);
      var start := 0;
      assert content[0..] == content;
      while start < |content|
        invariant 0 <= start <= |content| && |sent| <= |chunks|
        invariant chunks[|sent|..] == Cut(id, content[start..], |sent|)
        invariant forall i :: 0 <= i < |sent| ==> PackChunk(chunks[i]).Some? && UnpackChunk(sent[i]) == Some(chunks[i])
        decreases |content| - start
      {
        var stop := if |content| - start < CHUNK_LIMIT then |content| else start + CHUNK_LIMIT;
        var chunk := Chunk(id, |sent|, content[start..stop]);
        CutFirst(id, content[start..], |sent|, chunk);
        assert chunks[|sent|..][0] == chunk && chunks[|sent|..][1..] == chunks[|sent| + 1..];
        assert content[start..][stop - start..] == content[stop..];
        var packed := PackChunk(chunk);
        if packed.None? {
          assert chunks[|sent|] == chunk;
          return sent, true;
        }
        UnpackPacked(chunk);
        sent := sent + [packed.value];
        start := stop;
      }
    }
  }

  lemma CutFirst(id: Name, content: seq<Byte>, sequence: nat, chunk: Chunk)
    requires content != []
    requires var n := if |content| < CHUNK_LIMIT then |content| else CHUNK_LIMIT; chunk == Chunk(id, sequence, content[..n])
    ensures Cut(id, content, sequence) == [chunk] + Cut(id, content[|chunk.data|..], sequence + 1)
  {
    if |content| <= CHUNK_LIMIT {
      assert content[..|content|] == content;
    }
  }
}
