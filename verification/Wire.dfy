/** Length-prefixed framing over a byte stream (src/protocol.rs:8-203). */
module Wire {
  import opened Basics

  const HEADER_LEN: nat := 6
  const MAX_PAYLOAD_LEN: nat := 1024 * 1024

  datatype Frame = Frame(msgType: byte, flags: byte, payload: seq<byte>)

  datatype ProtocolError =
    | Io
    | TruncatedHeader
    | TruncatedPayload(expected: nat, actual: nat)
    | PayloadTooLarge(len: nat, max: nat)
    | InvalidMessage

  datatype Result<+T> = Ok(value: T) | Err(error: ProtocolError)

  /** How a stream stops once its bytes are used up: orderly end of file, or a read error. */
  datatype Ending = Eof | ReadError

  predicate Fits(f: Frame) {
    |f.payload| <= MAX_PAYLOAD_LEN
  }

  function NewFrame(msgType: byte, flags: byte, payload: seq<byte>): (r: Result<Frame>)
    ensures r.Ok? <==> |payload| <= MAX_PAYLOAD_LEN
    ensures r.Ok? ==> Fits(r.value) && r.value.payload == payload
    ensures r.Ok? ==> r.value.msgType == msgType && r.value.flags == flags
    ensures r.Err? ==> r.error == PayloadTooLarge(|payload|, MAX_PAYLOAD_LEN)
  {
    if |payload| > MAX_PAYLOAD_LEN then Err(PayloadTooLarge(|payload|, MAX_PAYLOAD_LEN))
    else Ok(Frame(msgType, flags, payload))
  }

  // ---------------------------------------------------------------- specification

  function BigEndian(n: nat, width: nat): (b: seq<byte>)
    ensures |b| == width
  {
    if width == 0 then [] else BigEndian(n / 256, width - 1) + [n % 256]
  }

  function FromBigEndian(b: seq<byte>): nat {
    if b == [] then 0 else FromBigEndian(b[..|b| - 1]) * 256 + b[|b| - 1] as nat
  }

  function Capacity(width: nat): nat {
    if width == 0 then 1 else Capacity(width - 1) * 256
  }

  lemma {:induction false} BigEndianRoundTrip(n: nat, width: nat)
    requires n < Capacity(width)
    ensures FromBigEndian(BigEndian(n, width)) == n
  {
    if width > 0 {
      BigEndianRoundTrip(n / 256, width - 1);
      assert BigEndian(n, width)[..width - 1] == BigEndian(n / 256, width - 1);
    }
  }

  lemma {:induction false} BigEndianUnique(b: seq<byte>)
    ensures BigEndian(FromBigEndian(b), |b|) == b
  {
    if b != [] {
      BigEndianUnique(b[..|b| - 1]);
      assert FromBigEndian(b) / 256 == FromBigEndian(b[..|b| - 1]);
      assert FromBigEndian(b) % 256 == b[|b| - 1];
    }
  }

  /** A payload that fits survives the 32-bit length field. */
  lemma LengthRoundTrip(len: nat)
    requires len <= MAX_PAYLOAD_LEN
    ensures FromBigEndian(BigEndian(len, 4)) == len
  {
    assert Capacity(4) == 0x1_0000_0000 by {
      assert Capacity(2) == 0x1_0000;
    }
    BigEndianRoundTrip(len, 4);
  }

  function Encode(f: Frame): (bytes: seq<byte>)
    requires Fits(f)
    ensures |bytes| == HEADER_LEN + |f.payload|
  {
    [f.msgType, f.flags] + BigEndian(|f.payload|, 4) + f.payload
  }

  predicate AllFit(frames: seq<Frame>) {
    forall i :: 0 <= i < |frames| ==> Fits(frames[i])
  }

  function EncodeAll(frames: seq<Frame>): seq<byte>
    requires AllFit(frames)
  {
    if frames == [] then [] else Encode(frames[0]) + EncodeAll(frames[1..])
  }

  datatype Outcome = Got(frame: Frame) | CleanEof | Failed(error: ProtocolError)
  datatype Parsed = Parsed(outcome: Outcome, consumed: nat)

  /** The error a short read becomes, depending on why it was short. */
  function Short(ending: Ending, truncated: ProtocolError): ProtocolError {
    if ending == Eof then truncated else Io
  }

  /** What reading one frame must yield when `rest` is all that will ever arrive. */
  function Parse(rest: seq<byte>, ending: Ending): (p: Parsed)
    ensures p.consumed <= |rest|
    ensures p.outcome.Got? ==> HEADER_LEN <= p.consumed && Fits(p.outcome.frame)
  {
    if rest == [] then Parsed(if ending == Eof then CleanEof else Failed(Io), 0)
    else if |rest| < HEADER_LEN then Parsed(Failed(Short(ending, TruncatedHeader)), |rest|)
    else
      var len := FromBigEndian(rest[2..6]);
      if len > MAX_PAYLOAD_LEN then Parsed(Failed(PayloadTooLarge(len, MAX_PAYLOAD_LEN)), HEADER_LEN)
      else if |rest| < HEADER_LEN + len then Parsed(Failed(Short(ending, TruncatedPayload(len, 0))), |rest|)
      else Parsed(Got(Frame(rest[0], rest[1], rest[HEADER_LEN..HEADER_LEN + len])), HEADER_LEN + len)
  }

  /** Reading frame after frame until something other than a frame comes back. */
  datatype Transcript = Transcript(frames: seq<Frame>, last: Outcome)

  function ReadAll(rest: seq<byte>, ending: Ending): (t: Transcript)
    ensures !t.last.Got? && AllFit(t.frames)
    decreases |rest|
  {
    var p := Parse(rest, ending);
    if p.outcome.Got? then
      var more := ReadAll(rest[p.consumed..], ending);
      Transcript([p.outcome.frame] + more.frames, more.last)
    else Transcript([], p.outcome)
  }

  // ---------------------------------------------------------------- the stream and its reader

  datatype Chunk = Bytes(bytes: seq<byte>) | End | Broken

  class Stream {
    const data: seq<byte>
    const ending: Ending
    var pos: nat

    constructor (data: seq<byte>, ending: Ending)
      ensures Valid() && this.data == data && this.ending == ending && pos == 0
    {
      this.data, this.ending, this.pos := data, ending, 0;
    }

    ghost predicate Valid()
      reads this
    {
      pos <= |data|
    }

    ghost function Rest(): seq<byte>
      requires Valid()
      reads this
    {
      data[pos..]
    }

    /** One read call: some of the available bytes, as many as the kernel pleases. */
    method Read(limit: nat) returns (c: Chunk)
      requires Valid() && 0 < limit
      modifies this
      ensures Valid()
      ensures old(Rest()) == [] ==> pos == old(pos) && c == if ending == Eof then End else Broken
      ensures old(Rest()) != [] ==>
        c.Bytes? && 1 <= |c.bytes| <= limit && old(Rest()) == c.bytes + Rest()
    {
      if pos == |data| {
        return if ending == Eof then End else Broken;
      }
      var available := Min(limit, |data| - pos);
      var n: nat :| 1 <= n <= available;
      c := Bytes(data[pos..pos + n]);
      pos := pos + n;
    }

    /** `read_exact`: loops over short reads until the buffer is full. */
    method ReadExact(want: nat) returns (got: seq<byte>, complete: bool)
      requires Valid()
      modifies this
      ensures Valid()
      ensures complete <==> |old(Rest())| >= want
      ensures old(Rest()) == got + Rest()
      ensures complete ==> |got| == want
      ensures !complete ==> Rest() == []
    {
      got, complete := [], true;
      while |got| < want
        invariant Valid() && |got| <= want
        invariant old(Rest()) == got + Rest()
      {
        var c := Read(want - |got|);
        match c
        case Bytes(b) =>
          ConcatAssociative(got, b, Rest());
          got := got + b;
        case End =>
          return got, false;
        case Broken =>
          return got, false;
      }
    }

    /** `read_frame`: a one-byte read that may see a clean end, then the rest of the header,
        then the payload. */
    method ReadFrame() returns (o: Outcome)
      requires Valid()
      modifies this
      ensures Valid()
      ensures o == Parse(old(Rest()), ending).outcome
      ensures pos == old(pos) + Parse(old(Rest()), ending).consumed
    {
      ghost var rest := Rest();
      var first := Read(1);
      if first.End? {
        return CleanEof;
      }
      if first.Broken? {
        return Failed(Io);
      }
      assert rest[0] == first.bytes[0];
      var more, whole := ReadExact(HEADER_LEN - 1);
      assert rest == first.bytes + more + Rest();
      if !whole {
        return Failed(Short(ending, TruncatedHeader));
      }
      var header := first.bytes + more;
      assert rest[..HEADER_LEN] == header;
      assert rest[2..6] == header[2..6];
      var len := FromBigEndian(header[2..6]);
      if len > MAX_PAYLOAD_LEN {
        return Failed(PayloadTooLarge(len, MAX_PAYLOAD_LEN));
      }
      assert Rest() == rest[HEADER_LEN..];
      var payload, complete := ReadExact(len);
      if !complete {
        return Failed(Short(ending, TruncatedPayload(len, 0)));
      }
      assert rest[HEADER_LEN..HEADER_LEN + len] == payload;
      var made := NewFrame(header[0], header[1], payload);
      return Got(made.value);
    }
  }

  /** A writer that accepts `room` more bytes before its peer goes away. */
  class Sink {
    var written: seq<byte>
    var room: nat

    method WriteAll(bytes: seq<byte>) returns (ok: bool)
      modifies this
      ensures ok <==> |bytes| <= old(room)
      ensures written == old(written) + bytes[..Min(|bytes|, old(room))]
      ensures room == old(room) - Min(|bytes|, old(room))
    {
      var n := Min(|bytes|, room);
      ok := n == |bytes|;
      written := written + bytes[..n];
      room := room - n;
    }
  }

  /** `write_to`: an oversized frame is refused before a single byte is written; a frame that
      fits goes out as header, length and payload, or breaks off when the writer does. */
  method WriteFrame(f: Frame, w: Sink) returns (r: Result<()>)
    modifies w
    ensures !Fits(f) ==> r == Err(PayloadTooLarge(|f.payload|, MAX_PAYLOAD_LEN)) && w.written == old(w.written)
    ensures Fits(f) ==> (r.Ok? <==> |Encode(f)| <= old(w.room)) && (r.Err? ==> r.error == Io)
    ensures Fits(f) ==> w.written == old(w.written) + Encode(f)[..Min(|Encode(f)|, old(w.room))]
  {
    if |f.payload| >= 0x1_0000_0000 {
      return Err(PayloadTooLarge(|f.payload|, MAX_PAYLOAD_LEN));
    }
    if |f.payload| > MAX_PAYLOAD_LEN {
      return Err(PayloadTooLarge(|f.payload|, MAX_PAYLOAD_LEN));
    }
    var ok := w.WriteAll([f.msgType, f.flags]);
    if !ok {
      return Err(Io);
    }
    ok := w.WriteAll(BigEndian(|f.payload|, 4));
    if !ok {
      return Err(Io);
    }
    ok := w.WriteAll(f.payload);
    r := if ok then Ok(()) else Err(Io);
  }

  // ---------------------------------------------------------------- round trips

  /** Decoding undoes encoding, whatever follows on the stream. */
  lemma ParseUndoesEncode(f: Frame, rest: seq<byte>, ending: Ending)
    requires Fits(f)
    ensures Parse(Encode(f) + rest, ending) == Parsed(Got(f), |Encode(f)|)
  {
    var all := Encode(f) + rest;
    assert all[2..6] == BigEndian(|f.payload|, 4);
    LengthRoundTrip(|f.payload|);
    assert all[HEADER_LEN..HEADER_LEN + |f.payload|] == f.payload;
  }

  /** Encoding undoes decoding: only the canonical bytes of a frame parse as that frame. */
  lemma EncodeUndoesParse(rest: seq<byte>, ending: Ending)
    requires Parse(rest, ending).outcome.Got?
    ensures Encode(Parse(rest, ending).outcome.frame) == rest[..Parse(rest, ending).consumed]
  {
    BigEndianUnique(rest[2..6]);
    var p := Parse(rest, ending);
    var len := FromBigEndian(rest[2..6]);
    assert rest[..p.consumed] == rest[..2] + rest[2..6] + rest[HEADER_LEN..HEADER_LEN + len];
    assert rest[..2] == [rest[0], rest[1]];
  }

  lemma FourBytes(b: seq<byte>)
    requires |b| == 4
    ensures FromBigEndian(b) == 0x100_0000 * b[0] as nat + 0x1_0000 * b[1] as nat + 0x100 * b[2] as nat + b[3] as nat
  {
    assert b[..3][..2] == b[..2] && b[..2][..1] == b[..1] && b[..1][..0] == [];
    assert FromBigEndian(b[..1]) == b[0] as nat;
    assert FromBigEndian(b[..2]) == 0x100 * b[0] as nat + b[1] as nat;
    assert FromBigEndian(b[..3]) == 0x1_0000 * b[0] as nat + 0x100 * b[1] as nat + b[2] as nat;
  }

  /** The bytes of a frame: type, flags, the payload's length with its most significant byte
      first, and the payload. */
  lemma FrameLayout(f: Frame)
    requires Fits(f)
    ensures var b := Encode(f);
      && |b| == 6 + |f.payload| && b[0] == f.msgType && b[1] == f.flags && b[6..] == f.payload
      && 0x100_0000 * b[2] as nat + 0x1_0000 * b[3] as nat + 0x100 * b[4] as nat + b[5] as nat == |f.payload|
  {
    LengthRoundTrip(|f.payload|);
    var length := BigEndian(|f.payload|, 4);
    FourBytes(length);
    assert Encode(f)[2] == length[0] && Encode(f)[3] == length[1];
    assert Encode(f)[4] == length[2] && Encode(f)[5] == length[3];
  }

  lemma {:induction false} EncodeAllConcat(a: seq<Frame>, b: seq<Frame>)
    requires AllFit(a) && AllFit(b)
    ensures AllFit(a + b) && EncodeAll(a + b) == EncodeAll(a) + EncodeAll(b)
  {
    if a == [] {
      assert a + b == b;
    } else {
      EncodeAllConcat(a[1..], b);
      assert (a + b)[1..] == a[1..] + b;
      assert (a + b)[0] == a[0];
      ConcatAssociative(Encode(a[0]), EncodeAll(a[1..]), EncodeAll(b));
    }
  }

  lemma ReadAllStep(f: Frame, rest: seq<byte>, ending: Ending)
    requires Fits(f)
    ensures ReadAll(Encode(f) + rest, ending)
         == Transcript([f] + ReadAll(rest, ending).frames, ReadAll(rest, ending).last)
  {
    ParseUndoesEncode(f, rest, ending);
    assert (Encode(f) + rest)[|Encode(f)|..] == rest;
  }

  /** Whole frames are read back exactly, and then whatever follows them is read. */
  lemma {:induction false} ReadAllUndoesEncodeAll(frames: seq<Frame>, tail: seq<byte>, ending: Ending)
    requires AllFit(frames)
    ensures ReadAll(EncodeAll(frames) + tail, ending)
         == Transcript(frames + ReadAll(tail, ending).frames, ReadAll(tail, ending).last)
  {
    var more := ReadAll(tail, ending);
    if frames == [] {
      assert EncodeAll(frames) + tail == tail;
      assert frames + more.frames == more.frames;
    } else {
      var f, others := frames[0], frames[1..];
      var rest := EncodeAll(others) + tail;
      assert ReadAll(rest, ending) == Transcript(others + more.frames, more.last) by {
        ReadAllUndoesEncodeAll(others, tail, ending);
      }
      assert ReadAll(Encode(f) + rest, ending) == Transcript([f] + (others + more.frames), more.last) by {
        ReadAllStep(f, rest, ending);
      }
      EncodeAllHead(frames, tail);
      ConsConcat(frames, more.frames);
    }
  }

  lemma EncodeAllHead(frames: seq<Frame>, tail: seq<byte>)
    requires AllFit(frames) && frames != []
    ensures EncodeAll(frames) + tail == Encode(frames[0]) + (EncodeAll(frames[1..]) + tail)
  {
  }

  /** Frames written and then closed are read back exactly, ending cleanly. */
  lemma WholeStreamRoundTrip(frames: seq<Frame>)
    requires AllFit(frames)
    ensures ReadAll(EncodeAll(frames), Eof) == Transcript(frames, CleanEof)
  {
    ReadAllUndoesEncodeAll(frames, [], Eof);
    assert EncodeAll(frames) + [] == EncodeAll(frames);
    assert ReadAll([], Eof) == Transcript([], CleanEof);
    assert frames + [] == frames;
  }

  /** `k` frames are delivered whole by the first `p` bytes of the encoding, and no more. */
  ghost predicate DeliveredWhole(frames: seq<Frame>, p: nat, k: nat)
    requires AllFit(frames)
  {
    && k <= |frames|
    && |EncodeAll(frames[..k])| <= p
    && (k < |frames| ==> p < |EncodeAll(frames[..k + 1])|)
  }

  lemma LongerIsLarger(frames: seq<Frame>, j: nat, k: nat)
    requires AllFit(frames) && j <= k <= |frames|
    ensures |EncodeAll(frames[..j])| <= |EncodeAll(frames[..k])|
  {
    EncodeAllConcat(frames[..j], frames[j..k]);
    assert frames[..k] == frames[..j] + frames[j..k];
  }

  /** The bytes that arrived settle how many frames are whole. */
  lemma DeliveredWholeUnique(frames: seq<Frame>, p: nat, j: nat, k: nat)
    requires AllFit(frames) && DeliveredWhole(frames, p, j) && DeliveredWhole(frames, p, k)
    ensures j == k
  {
    if j < k {
      LongerIsLarger(frames, j + 1, k);
    } else if k < j {
      LongerIsLarger(frames, k + 1, j);
    }
  }

  lemma PrefixSize(frames: seq<Frame>, k: nat)
    requires AllFit(frames) && k < |frames|
    ensures |EncodeAll(frames[..k + 1])| == |Encode(frames[0])| + |EncodeAll(frames[1..][..k])|
  {
    assert frames[..k + 1][1..] == frames[1..][..k];
  }

  lemma DeliveredOneMore(frames: seq<Frame>, p: nat, k: nat)
    requires AllFit(frames) && frames != [] && |Encode(frames[0])| <= p
    requires DeliveredWhole(frames[1..], p - |Encode(frames[0])|, k)
    ensures DeliveredWhole(frames, p, k + 1)
    ensures |EncodeAll(frames[..k + 1])| == |Encode(frames[0])| + |EncodeAll(frames[1..][..k])|
  {
    PrefixSize(frames, k);
    if k + 1 < |frames| {
      PrefixSize(frames, k + 1);
    }
  }

  lemma CutAfterHead(frames: seq<Frame>, p: nat)
    requires AllFit(frames) && frames != [] && |Encode(frames[0])| <= p <= |EncodeAll(frames)|
    ensures EncodeAll(frames)[..p]
         == Encode(frames[0]) + EncodeAll(frames[1..])[..p - |Encode(frames[0])|]
  {
  }

  /** What a reader may end with after a cut: never a frame, never an oversize verdict. */
  predicate CutOutcome(o: Outcome) {
    o == CleanEof || (o.Failed? && (o.error == Io || o.error == TruncatedHeader || o.error.TruncatedPayload?))
  }

  /** A proper piece of one frame is never mistaken for a frame. */
  lemma PieceIsTruncated(f: Frame, n: nat, ending: Ending)
    requires Fits(f) && n < |Encode(f)|
    ensures ReadAll(Encode(f)[..n], ending).frames == []
    ensures CutOutcome(ReadAll(Encode(f)[..n], ending).last)
    ensures ReadAll(Encode(f)[..n], ending).last == CleanEof <==> n == 0 && ending == Eof
  {
    var piece := Encode(f)[..n];
    if HEADER_LEN <= n {
      assert piece[2..6] == BigEndian(|f.payload|, 4);
      LengthRoundTrip(|f.payload|);
    }
  }

  /** The reader's whole account of a stream of `frames` cut after `p` bytes: `k` frames, then
      a cut outcome, the clean one only at a frame boundary. */
  ghost predicate CutAccount(frames: seq<Frame>, p: nat, ending: Ending, k: nat)
    requires AllFit(frames) && p <= |EncodeAll(frames)|
  {
    var t := ReadAll(EncodeAll(frames)[..p], ending);
    && DeliveredWhole(frames, p, k)
    && t.frames == frames[..k]
    && CutOutcome(t.last)
    && (t.last == CleanEof <==> p == |EncodeAll(frames[..k])| && ending == Eof)
  }

  lemma CutInHead(frames: seq<Frame>, p: nat, ending: Ending)
    requires AllFit(frames) && frames != [] && p < |Encode(frames[0])| && p <= |EncodeAll(frames)|
    ensures CutAccount(frames, p, ending, 0)
  {
    PieceIsTruncated(frames[0], p, ending);
    PrefixSize(frames, 0);
    assert EncodeAll(frames)[..p] == Encode(frames[0])[..p];
  }

  lemma CutPastHead(frames: seq<Frame>, p: nat, ending: Ending, k: nat)
    requires AllFit(frames) && frames != [] && |Encode(frames[0])| <= p <= |EncodeAll(frames)|
    requires CutAccount(frames[1..], p - |Encode(frames[0])|, ending, k)
    ensures CutAccount(frames, p, ending, k + 1)
  {
    var rest := EncodeAll(frames[1..])[..p - |Encode(frames[0])|];
    var t := ReadAll(rest, ending);
    DeliveredOneMore(frames, p, k);
    assert ReadAll(EncodeAll(frames)[..p], ending) == Transcript([frames[0]] + t.frames, t.last) by {
      CutAfterHead(frames, p);
      ReadAllStep(frames[0], rest, ending);
    }
    assert frames[..k + 1] == [frames[0]] + frames[1..][..k];
  }

  /** Cut the stream of any valid frames at any byte, by end of file or by a read error: the
      reader yields exactly the frames delivered whole, then one of the cut outcomes. */
  lemma {:induction false} CutYieldsWholeFrames(frames: seq<Frame>, p: nat, ending: Ending) returns (k: nat)
    requires AllFit(frames) && p <= |EncodeAll(frames)|
    ensures CutAccount(frames, p, ending, k)
    decreases |frames|
  {
    if frames == [] {
      k := 0;
    } else if p < |Encode(frames[0])| {
      k := 0;
      CutInHead(frames, p, ending);
    } else {
      k := CutYieldsWholeFrames(frames[1..], p - |Encode(frames[0])|, ending);
      CutPastHead(frames, p, ending, k);
      k := k + 1;
    }
  }
}
