/**
 The SSH relay's view of a Docker exec stream: stdout and stderr frames multiplexed on
 one socket, handed out as stdout bytes.
 */
module Demux {
  import opened Common
  import opened ByteOrder

  const FRAME_HEADER := 8
  const MAX_FRAME := 1048576

  /** The payload size of a frame header; none when it is refused. */
  function FrameSize(header: seq<Byte>): (r: Option<nat>)
    requires |header| == FRAME_HEADER
    ensures r.Some? ==> r.value <= MAX_FRAME && (header[0] == 1 || header[0] == 2)
  {
    var size := UnBe32(header[4..8]);
    if header[1] != 0 || header[2] != 0 || header[3] != 0 || size > MAX_FRAME || (header[0] != 1 && header[0] != 2) then None else Some(size)
  }

  /** A whole frame at the front: its header, and where the next one starts. */
  function FrameEnd(s: seq<Byte>): (r: Option<nat>)
    ensures r.Some? ==> FRAME_HEADER <= r.value <= |s| && FrameSize(s[..FRAME_HEADER]).Some?
  {
    if |s| < FRAME_HEADER then None
    else
      var size := FrameSize(s[..FRAME_HEADER]);
      if size.None? || |s| < FRAME_HEADER + size.value then None else Some(FRAME_HEADER + size.value)
  }

  /** What a frame contributes: stdout is passed on, stderr is not. */
  function Passed(frame: seq<Byte>): (r: seq<Byte>)
    requires |frame| >= FRAME_HEADER
  {
    if frame[0] == 1 then frame[FRAME_HEADER..] else []
  }

  /** The stdout payloads of all whole frames, up to the first that is not. */
  function Stdout(s: seq<Byte>): (r: seq<Byte>)
    decreases |s|
  {
    var end := FrameEnd(s);
    if end.None? then [] else Passed(s[..end.value]) + Stdout(s[end.value..])
  }

  /** Nothing but whole frames. */
  predicate AllFrames(s: seq<Byte>)
    decreases |s|
  {
    s == [] || (FrameEnd(s).Some? && AllFrames(s[FrameEnd(s).value..]))
  }

  // ------------------------------------------------------------------- one receive

  /** Bytes handed out, the end of the stream, or an error. */
  datatype Got = Data(bytes: seq<Byte>, pending: seq<Byte>, rest: seq<Byte>) | Closed | Failed

  /** `recv(n)` with `pending` left over and `s` still to come. */
  function Recv(pending: seq<Byte>, s: seq<Byte>, n: int): (r: Got)
    decreases |s|
  {
    if n <= 0 then Failed
    else if pending != [] then
      if n < |pending| then Data(pending[..n], pending[n..], s) else Data(pending, [], s)
    else if s == [] then Closed
    else if FrameEnd(s).None? then Failed
    else Recv(Passed(s[..FrameEnd(s).value]), s[FrameEnd(s).value..], n)
  }

  /** Nothing is lost, repeated or reordered: what is handed out is the front of the
      pending bytes and the stdout payloads to come. */
  lemma {:induction false} Conserved(pending: seq<Byte>, s: seq<Byte>, n: int)
    requires Recv(pending, s, n).Data?
    ensures var got := Recv(pending, s, n);
            got.bytes + (got.pending + Stdout(got.rest)) == pending + Stdout(s) && 1 <= |got.bytes| <= n
    decreases |s|
  {
    if pending != [] {
      var got := Recv(pending, s, n);
      assert got.bytes + got.pending == pending;
      Associates(got.bytes, got.pending, Stdout(s));
    } else {
      var end := FrameEnd(s).value;
      Conserved(Passed(s[..end]), s[end..], n);
      assert pending + Stdout(s) == Stdout(s);
    }
  }

  /** The end is reported exactly at a frame boundary with nothing left to hand out:
      empty frames and stderr never look like the end. */
  lemma {:induction false} ClosedIff(pending: seq<Byte>, s: seq<Byte>, n: int)
    requires n > 0
    ensures Recv(pending, s, n).Closed? <==> pending + Stdout(s) == [] && AllFrames(s)
    decreases |s|
  {
    if pending == [] && FrameEnd(s).Some? {
      var end := FrameEnd(s).value;
      ClosedIff(Passed(s[..end]), s[end..], n);
      assert pending + Stdout(s) == Stdout(s);
    }
  }

  /** A stream that stops inside a frame, or goes wrong, is an error and not an end,
      once everything before it has been handed out. */
  lemma {:induction false} FailedIff(pending: seq<Byte>, s: seq<Byte>, n: int)
    requires n > 0
    ensures Recv(pending, s, n).Failed? <==> pending + Stdout(s) == [] && !AllFrames(s)
    decreases |s|
  {
    if pending == [] && FrameEnd(s).Some? {
      var end := FrameEnd(s).value;
      FailedIff(Passed(s[..end]), s[end..], n);
      assert pending + Stdout(s) == Stdout(s);
    }
  }

  // ------------------------------------------------------------------- a whole session

  /** All bytes handed out over a list of receives, up to the end or an error. */
  function Received(pending: seq<Byte>, s: seq<Byte>, sizes: seq<int>): (r: seq<Byte>)
    decreases |sizes|
  {
    if sizes == [] then []
    else
      var got := Recv(pending, s, sizes[0]);
      if !got.Data? then [] else got.bytes + Received(got.pending, got.rest, sizes[1..])
  }

  /** Whatever sizes are asked for, the client sees a prefix of the stdout payloads. */
  lemma {:induction false} ReceivedIsPrefix(pending: seq<Byte>, s: seq<Byte>, sizes: seq<int>)
    ensures Received(pending, s, sizes) <= pending + Stdout(s)
    decreases |sizes|
  {
    if sizes != [] {
      var got := Recv(pending, s, sizes[0]);
      if got.Data? {
        Conserved(pending, s, sizes[0]);
        ReceivedIsPrefix(got.pending, got.rest, sizes[1..]);
      }
    }
  }

  /** With enough receives the client sees all of it. */
  lemma {:induction false} ReceivedAll(pending: seq<Byte>, s: seq<Byte>, sizes: seq<int>)
    requires |sizes| >= |pending + Stdout(s)| && forall i :: 0 <= i < |sizes| ==> sizes[i] > 0
    ensures Received(pending, s, sizes) == pending + Stdout(s)
    decreases |sizes|
  {
    if sizes != [] {
      var got := Recv(pending, s, sizes[0]);
      ClosedIff(pending, s, sizes[0]);
      FailedIff(pending, s, sizes[0]);
      if got.Data? {
        Conserved(pending, s, sizes[0]);
        ReceivedAll(got.pending, got.rest, sizes[1..]);
      }
    }
  }

  // ------------------------------------------------------------------- frames from the daemon

  datatype Frame = Frame(stderr: bool, payload: seq<Byte>)

  function Framed(f: Frame): (r: seq<Byte>)
    requires |f.payload| <= MAX_FRAME
  {
    [if f.stderr then 2 else 1, 0, 0, 0] + Be32(|f.payload|) + f.payload
  }

  ghost predicate Sendable(frames: seq<Frame>)
  {
    forall i :: 0 <= i < |frames| ==> |frames[i].payload| <= MAX_FRAME
  }

  function Wire(frames: seq<Frame>): (r: seq<Byte>)
    requires forall i :: 0 <= i < |frames| ==> |frames[i].payload| <= MAX_FRAME
  {
    if frames == [] then [] else Framed(frames[0]) + Wire(frames[1..])
  }

  function Output(frames: seq<Frame>): (r: seq<Byte>)
  {
    if frames == [] then [] else (if frames[0].stderr then [] else frames[0].payload) + Output(frames[1..])
  }

  lemma FramedEnd(f: Frame, t: seq<Byte>)
    requires |f.payload| <= MAX_FRAME
    ensures var s := Framed(f) + t;
            && FrameEnd(s) == Some(|Framed(f)|) && s[|Framed(f)|..] == t
            && Passed(s[..|Framed(f)|]) == if f.stderr then [] else f.payload
  {
    var w := Framed(f);
    var s := w + t;
    assert w[4..8] == Be32(|f.payload|);
    assert s[..FRAME_HEADER][4..8] == w[4..8];
    UnBe32Be32(|f.payload|);
    assert s[..|w|] == w && w[FRAME_HEADER..] == f.payload;
  }

  /** What the daemon frames is exactly what comes through, in whole frames. */
  lemma {:induction false} WireDecodes(frames: seq<Frame>)
    requires Sendable(frames)
    ensures Stdout(Wire(frames)) == Output(frames) && AllFrames(Wire(frames))
  {
    if frames != [] {
      FramedEnd(frames[0], Wire(frames[1..]));
      WireDecodes(frames[1..]);
    }
  }

  // ------------------------------------------------------------------- the relay

  ghost predicate Segments(socket: seq<seq<Byte>>)
  {
    forall i :: 0 <= i < |socket| ==> socket[i] != []
  }

  datatype Read = Bytes(bytes: seq<Byte>) | EndOfFile | Truncated

  /** `_read_exact` with `s` still to come. */
  function ReadExactly(s: seq<Byte>, size: nat): (r: Read)
  {
    if size <= |s| then Bytes(s[..size]) else if s == [] then EndOfFile else Truncated
  }

  class Relay {
    /** The segments the socket has yet to deliver; each receive yields at most one. */
    var socket: seq<seq<Byte>>
    var pending: seq<Byte>

    constructor (socket: seq<seq<Byte>>)
      requires Segments(socket)
      ensures this.socket == socket && pending == []
    {
      this.socket, pending := socket, [];
    }

    /** At most `limit` bytes of the next segment; nothing at the end of the stream. */
    method SocketRecv(limit: nat) returns (chunk: seq<Byte>)
      requires limit > 0 && Segments(socket)
      modifies this`socket
      ensures Segments(socket) && |chunk| <= limit && chunk + Concat(socket) == Concat(old(socket))
      ensures chunk == [] <==> old(socket) == []
      ensures old(socket) == [] ==> socket == []
    {
      if socket == [] {
        return [];
      }
      var first := socket[0];
      if |first| <= limit {
        chunk := first;
        socket := socket[1..];
      } else {
        chunk := first[..limit];
        ghost var rest := socket[1..];
        socket := [first[limit..]] + socket[1..];
        assert socket[1..] == rest && first[..limit] + first[limit..] == first;
        Associates(chunk, first[limit..], Concat(rest));
      }
    }

    method ReadExact(size: nat) returns (r: Read)
      requires Segments(socket)
      modifies this`socket
      ensures Segments(socket) && r == ReadExactly(Concat(old(socket)), size)
      ensures r.Bytes? ==> r.bytes + Concat(socket) == Concat(old(socket))
      ensures r.EndOfFile? ==> socket == []
    {
      var data: seq<Byte> := [];
      ghost var whole := Concat(socket);
      while |data| < size
        invariant |data| <= size && Segments(socket) && data + Concat(socket) == whole
        decreases size - |data|
      {
        ghost var before := socket;
        var chunk := SocketRecv(size - |data|);
        Associates(data, chunk, Concat(socket));
        if chunk == [] {
          assert before == [] && Concat(before) == [];
          assert whole == data;
          return if data != [] then Truncated else EndOfFile;
        }
        data := data + chunk;
      }
      assert whole[..size] == data;
      r := Bytes(data);
    }

    /** The next stdout bytes, at most `n`; an error loses the stream's place. */
    method Receive(n: int) returns (r: Got)
      requires Segments(socket)
      modifies this
      ensures Segments(socket)
      ensures r == Recv(old(pending), Concat(old(socket)), n)
      ensures r.Data? ==> pending == r.pending && Concat(socket) == r.rest
      ensures r.Closed? ==> pending == [] && socket == []
    {
      if n <= 0 {
        return Failed;
      }
      ghost var start, whole := pending, Concat(socket);
      while pending == []
        invariant Segments(socket) && Recv(start, whole, n) == Recv(pending, Concat(socket), n)
        decreases |Concat(socket)|
      {
        ghost var s := Concat(socket);
        var header := ReadExact(FRAME_HEADER);
        if header.EndOfFile? {
          return Closed;
        }
        if header.Truncated? {
          return Failed;
        }
        assert s[..FRAME_HEADER] == header.bytes;
        var size := FrameSize(header.bytes);
        if size.None? {
          return Failed;
        }
        ghost var t := Concat(socket);
        assert t == s[FRAME_HEADER..];
        var payload := ReadExact(size.value);
        if !payload.Bytes? {
          return Failed;
        }
        FrameTaken(s, header.bytes, payload.bytes, Concat(socket));
        if header.bytes[0] == 1 {
          pending := payload.bytes;
        }
      }
      if n < |pending| {
        r := Data(pending[..n], pending[n..], Concat(socket));
        pending := pending[n..];
      } else {
        r := Data(pending, [], Concat(socket));
        pending := [];
      }
    }
  }

  lemma FrameTaken(s: seq<Byte>, header: seq<Byte>, payload: seq<Byte>, t: seq<Byte>)
    requires s == header + (payload + t) && |header| == FRAME_HEADER && FrameSize(header) == Some(|payload|)
    ensures FrameEnd(s) == Some(FRAME_HEADER + |payload|) && s[FRAME_HEADER + |payload|..] == t
    ensures Passed(s[..FRAME_HEADER + |payload|]) == if header[0] == 1 then payload else []
  {
    assert s[..FRAME_HEADER] == header;
    assert s[..FRAME_HEADER + |payload|][FRAME_HEADER..] == payload;
  }
}
