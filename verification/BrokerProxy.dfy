/** The broker between an attached client and its daemon: two threads, one shared client
    writer, pings answered locally (src/server.rs:403-481). Every interleaving, down to the
    single write call, is a run. */
module BrokerProxy {
  import opened Basics
  import opened Wire
  import opened Cbor

  const DETACH: byte := 9
  const CLIENT_SHOULD_EXIT: byte := 10
  const SESSION_BUSY: byte := 11
  const EXIT_STATUS: byte := 14
  const ERROR: byte := 15
  const PING: byte := 18
  const PONG: byte := 19

  predicate IsPing(f: Frame) { f.msgType == PING }
  predicate IsDetach(f: Frame) { f.msgType == DETACH }

  predicate IsClosing(f: Frame) {
    f.msgType == CLIENT_SHOULD_EXIT || f.msgType == EXIT_STATUS || f.msgType == SESSION_BUSY || f.msgType == ERROR
  }

  /** The two directions, and the frame after which each one stops. */
  datatype Side = FromClient | FromDaemon

  predicate Ends(side: Side, f: Frame) {
    if side == FromClient then IsDetach(f) else IsClosing(f)
  }

  /** The PONG for a PING that decodes: same nonce, fresh frame. */
  function PongFor(ping: Frame): (pong: Option<Frame>)
    ensures pong.Some? <==> ParseKeepalive(ping.payload).Some?
    ensures pong.Some? ==> Fits(pong.value) && pong.value.msgType == PONG && pong.value.flags == 0
    ensures pong.Some? ==> |pong.value.payload| <= 16
    ensures pong.Some? ==> ParseKeepalive(pong.value.payload) == ParseKeepalive(ping.payload)
  {
    var nonce := ParseKeepalive(ping.payload);
    if nonce.None? then None
    else
      NonceFits(ping.payload);
      ParseUndoesKeepaliveBody(nonce.value);
      Some(Frame(PONG, 0, KeepaliveBody(nonce.value)))
  }

  /** The client-to-daemon thread. */
  datatype Uplink =
    | UpReading
    | UpForward(f: Frame)
    | UpPong(f: Frame)                 // waiting for the client writer
    | UpWriting(f: Frame, done: nat)   // holding the client writer
    | UpClosed
    | UpFailed(lostFrames: seq<Frame>, lostPongs: seq<Frame>)

  /** The daemon-to-client thread. */
  datatype Downlink =
    | DownReading
    | DownWaiting(f: Frame)
    | DownWriting(f: Frame, done: nat)
    | DownClosed
    | DownFailed(lost: seq<Frame>)

  /** Each thread with all the frames its peer ever sends, how many it has taken, and what it
      has got through; and the shared client stream: its bytes, the frames completely on it
      after ATTACHED_SESSION, and the frame a failed write broke off in, if any. */
  datatype UpSide = UpSide(input: seq<Frame>, taken: nat, up: Uplink, toDaemon: seq<Frame>, pongs: seq<Frame>)
  datatype DownSide = DownSide(input: seq<Frame>, taken: nat, down: Downlink, toClient: seq<Frame>)
  datatype ClientEnd = ClientEnd(bytes: seq<byte>, relayed: seq<Frame>, torn: Option<(Frame, nat)>)

  datatype Proxy = Proxy(keepalive: bool, u: UpSide, d: DownSide, c: ClientEnd)

  datatype Step =
    | UpReads
    | UpEnds(clean: bool)
    | UpForwards(ok: bool)
    | UpLocks
    | UpWrites(n: nat)
    | UpWriteFails
    | DownReads
    | DownEnds(clean: bool)
    | DownLocks
    | DownWrites(n: nat)
    | DownWriteFails

  predicate LockFree(p: Proxy) {
    !p.u.up.UpWriting? && !p.d.down.DownWriting?
  }

  predicate UpEnabled(u: UpSide, step: Step) {
    match step
    case UpReads => u.up == UpReading && u.taken < |u.input|
    case UpEnds(clean) => u.up == UpReading && (clean ==> u.taken == |u.input|)
    case UpForwards(_) => u.up.UpForward?
    case UpLocks => u.up.UpPong?
    case UpWrites(n) => u.up.UpWriting? && Fits(u.up.f) && 0 < n && u.up.done + n <= |Encode(u.up.f)|
    case UpWriteFails => u.up.UpWriting?
    case _ => false
  }

  predicate DownEnabled(d: DownSide, step: Step) {
    match step
    case DownReads => d.down == DownReading && d.taken < |d.input|
    case DownEnds(clean) => d.down == DownReading && (clean ==> d.taken == |d.input|)
    case DownLocks => d.down.DownWaiting?
    case DownWrites(n) => d.down.DownWriting? && Fits(d.down.f) && 0 < n && d.down.done + n <= |Encode(d.down.f)|
    case DownWriteFails => d.down.DownWriting?
    case _ => false
  }

  /** A client pipe that has failed once stays failed: nothing is written to it any more. */
  predicate Enabled(p: Proxy, step: Step) {
    && (UpEnabled(p.u, step) || DownEnabled(p.d, step))
    && (step.UpLocks? || step.DownLocks? ==> LockFree(p))
    && (step.UpWrites? || step.DownWrites? ==> p.c.torn.None?)
  }

  function ApplyUp(u: UpSide, keepalive: bool, step: Step): UpSide
    requires UpEnabled(u, step)
  {
    match step
    case UpReads =>
      var f := u.input[u.taken];
      var pong := PongFor(f);
      u.(taken := u.taken + 1,
         up := if !IsPing(f) then UpForward(f)
               else if pong.None? then UpFailed([], [])
               else if !keepalive then UpFailed([], [pong.value])
               else UpPong(pong.value))
    case UpEnds(clean) => u.(up := if clean then UpClosed else UpFailed([], []))
    case UpForwards(ok) =>
      if ok then u.(toDaemon := u.toDaemon + [u.up.f], up := if IsDetach(u.up.f) then UpClosed else UpReading)
      else u.(up := UpFailed([u.up.f], []))
    case UpLocks => u.(up := UpWriting(u.up.f, 0))
    case UpWrites(n) =>
      if u.up.done + n < |Encode(u.up.f)| then u.(up := UpWriting(u.up.f, u.up.done + n))
      else u.(up := UpReading, pongs := u.pongs + [u.up.f])
    case UpWriteFails => u.(up := UpFailed([], [u.up.f]))
  }

  function ApplyDown(d: DownSide, step: Step): DownSide
    requires DownEnabled(d, step)
  {
    match step
    case DownReads => d.(taken := d.taken + 1, down := DownWaiting(d.input[d.taken]))
    case DownEnds(clean) => d.(down := if clean then DownClosed else DownFailed([]))
    case DownLocks => d.(down := DownWriting(d.down.f, 0))
    case DownWrites(n) =>
      if d.down.done + n < |Encode(d.down.f)| then d.(down := DownWriting(d.down.f, d.down.done + n))
      else d.(down := if IsClosing(d.down.f) then DownClosed else DownReading, toClient := d.toClient + [d.down.f])
    case DownWriteFails => d.(down := DownFailed([d.down.f]))
  }

  /** `n` more bytes of `f` reach the client. */
  function Written(c: ClientEnd, f: Frame, done: nat, n: nat): ClientEnd
    requires Fits(f) && done + n <= |Encode(f)|
  {
    c.(bytes := c.bytes + Encode(f)[done..done + n],
       relayed := if done + n == |Encode(f)| then c.relayed + [f] else c.relayed)
  }

  function Torn(c: ClientEnd, f: Frame, done: nat): ClientEnd {
    if c.torn.None? then c.(torn := Some((f, done))) else c
  }

  function ApplyClient(p: Proxy, step: Step): ClientEnd
    requires Enabled(p, step)
  {
    match step
    case UpWrites(n) => Written(p.c, p.u.up.f, p.u.up.done, n)
    case UpWriteFails => Torn(p.c, p.u.up.f, p.u.up.done)
    case DownWrites(n) => Written(p.c, p.d.down.f, p.d.down.done, n)
    case DownWriteFails => Torn(p.c, p.d.down.f, p.d.down.done)
    case _ => p.c
  }

  function Apply(p: Proxy, step: Step): Proxy
    requires Enabled(p, step)
  {
    if UpEnabled(p.u, step) then p.(u := ApplyUp(p.u, p.keepalive, step), c := ApplyClient(p, step))
    else p.(d := ApplyDown(p.d, step), c := ApplyClient(p, step))
  }

  /** The proxy starts once ATTACHED_SESSION has been written. */
  function Start(attached: Frame, fromClient: seq<Frame>, fromDaemon: seq<Frame>, keepalive: bool): Proxy
    requires Fits(attached)
  {
    Proxy(keepalive,
          UpSide(fromClient, 0, UpReading, [], []),
          DownSide(fromDaemon, 0, DownReading, []),
          ClientEnd(Encode(attached), [], None))
  }

  function Exec(p: Proxy, steps: seq<Step>): Option<Proxy>
    decreases |steps|
  {
    if steps == [] then Some(p)
    else if Enabled(p, steps[0]) then Exec(Apply(p, steps[0]), steps[1..])
    else None
  }

  // ---------------------------------------------------------------- what should come out

  predicate Has(frames: seq<Frame>, side: Side) {
    exists i :: 0 <= i < |frames| && Ends(side, frames[i])
  }

  /** Everything up to and including the first frame that ends `side`. */
  function Through(frames: seq<Frame>, side: Side): seq<Frame> {
    if frames == [] then []
    else
      var init, last := frames[..|frames| - 1], frames[|frames| - 1];
      if Has(init, side) then Through(init, side) else Through(init, side) + [last]
  }

  function WithoutPings(frames: seq<Frame>): seq<Frame> {
    if frames == [] then []
    else
      var init, last := WithoutPings(frames[..|frames| - 1]), frames[|frames| - 1];
      if IsPing(last) then init else init + [last]
  }

  function PongsFor(frames: seq<Frame>): seq<Frame> {
    if frames == [] then []
    else
      var init, last := PongsFor(frames[..|frames| - 1]), frames[|frames| - 1];
      if IsPing(last) && PongFor(last).Some? then init + [PongFor(last).value] else init
  }

  /** `merged` is `a` and `b` shuffled together, each keeping its own order. */
  ghost predicate Interleaving(merged: seq<Frame>, a: seq<Frame>, b: seq<Frame>)
    decreases |merged|
  {
    if merged == [] then a == [] && b == []
    else
      var init, last := merged[..|merged| - 1], merged[|merged| - 1];
      || (a != [] && a[|a| - 1] == last && Interleaving(init, a[..|a| - 1], b))
      || (b != [] && b[|b| - 1] == last && Interleaving(init, a, b[..|b| - 1]))
  }

  lemma InterleavingSnoc(merged: seq<Frame>, a: seq<Frame>, b: seq<Frame>, f: Frame)
    requires Interleaving(merged, a, b)
    ensures Interleaving(merged + [f], a + [f], b) && Interleaving(merged + [f], a, b + [f])
  {
    assert (merged + [f])[..|merged|] == merged;
    assert (a + [f])[..|a|] == a && (b + [f])[..|b|] == b;
  }

  lemma HasInPrefix(frames: seq<Frame>, n: nat, side: Side)
    requires n <= |frames|
    ensures Has(frames[..n], side) ==> Has(frames, side)
  {
    if Has(frames[..n], side) {
      var i :| 0 <= i < n && Ends(side, frames[..n][i]);
      assert Ends(side, frames[i]);
    }
  }

  lemma HasSnoc(frames: seq<Frame>, f: Frame, side: Side)
    requires !Has(frames, side)
    ensures Has(frames + [f], side) <==> Ends(side, f)
  {
    var longer := frames + [f];
    assert longer[|frames|] == f;
    assert forall i :: 0 <= i < |frames| ==> longer[i] == frames[i];
  }

  lemma ThroughAppend(frames: seq<Frame>, f: Frame, side: Side)
    requires !Has(frames, side) && Through(frames, side) == frames
    ensures Through(frames + [f], side) == frames + [f]
  {
    assert (frames + [f])[..|frames|] == frames;
  }

  lemma ThroughSnoc(frames: seq<Frame>, f: Frame, side: Side)
    requires !Has(frames, side)
    ensures Through(frames, side) == frames
    ensures Through(frames + [f], side) == frames + [f]
    ensures Has(frames + [f], side) <==> Ends(side, f)
  {
    ThroughNone(frames, side);
    ThroughAppend(frames, f, side);
    HasSnoc(frames, f, side);
  }

  lemma {:induction false} ThroughNone(frames: seq<Frame>, side: Side)
    requires !Has(frames, side)
    ensures Through(frames, side) == frames
  {
    if frames != [] {
      HasInPrefix(frames, |frames| - 1, side);
      ThroughNone(frames[..|frames| - 1], side);
    }
  }

  // ---------------------------------------------------------------- invariant

  function HandFrames(up: Uplink): seq<Frame> {
    match up
    case UpForward(f) => [f]
    case UpFailed(frames, _) => frames
    case _ => []
  }

  function HandPongs(up: Uplink): seq<Frame> {
    match up
    case UpPong(f) => [f]
    case UpWriting(f, _) => [f]
    case UpFailed(_, pongs) => pongs
    case _ => []
  }

  function HandDown(down: Downlink): seq<Frame> {
    match down
    case DownWaiting(f) => [f]
    case DownWriting(f, _) => [f]
    case DownFailed(lost) => lost
    case _ => []
  }

  /** The uplink has taken nothing after a DETACH; what it took is what it passed on, plus what
      it still holds or lost. */
  ghost predicate UpOk(u: UpSide) {
    && u.taken <= |u.input|
    && var seen := u.input[..u.taken];
      && Through(seen, FromClient) == seen
      && u.toDaemon + HandFrames(u.up) == WithoutPings(seen)
      && u.pongs + HandPongs(u.up) == PongsFor(seen)
      && (u.up == UpReading || u.up.UpPong? || u.up.UpWriting? ==> !Has(seen, FromClient))
      && (u.up.UpForward? ==> (Has(seen, FromClient) <==> IsDetach(u.up.f)))
      && (u.up == UpClosed ==> Has(seen, FromClient) || u.taken == |u.input|)
  }

  ghost predicate DownOk(d: DownSide) {
    && d.taken <= |d.input|
    && var seen := d.input[..d.taken];
      && Through(seen, FromDaemon) == seen
      && d.toClient + HandDown(d.down) == seen
      && (d.down == DownReading ==> !Has(seen, FromDaemon))
      && (d.down.DownWaiting? || d.down.DownWriting? ==> (Has(seen, FromDaemon) <==> IsClosing(d.down.f)))
      && (d.down == DownClosed ==> Has(seen, FromDaemon) || d.taken == |d.input|)
  }

  predicate Piece(f: Frame, done: nat) {
    Fits(f) && done < |Encode(f)|
  }

  /** At most one thread is inside a frame, and nobody is once the pipe has failed. */
  ghost predicate LockOk(p: Proxy) {
    && (p.u.up.UpPong? ==> Fits(p.u.up.f))
    && (p.d.down.DownWaiting? ==> Fits(p.d.down.f))
    && (p.u.up.UpWriting? ==> Piece(p.u.up.f, p.u.up.done) && !p.d.down.DownWriting?)
    && (p.d.down.DownWriting? ==> Piece(p.d.down.f, p.d.down.done))
    && (p.c.torn.Some? ==>
          && Piece(p.c.torn.value.0, p.c.torn.value.1)
          && (p.u.up.UpWriting? ==> p.u.up.done == 0) && (p.d.down.DownWriting? ==> p.d.down.done == 0))
    && AllFit(p.d.input) && AllFit(p.c.relayed)
  }

  /** The unfinished frame at the end of the client stream. */
  function Unfinished(p: Proxy): Option<(Frame, nat)> {
    if p.c.torn.Some? then p.c.torn
    else if p.u.up.UpWriting? then Some((p.u.up.f, p.u.up.done))
    else if p.d.down.DownWriting? then Some((p.d.down.f, p.d.down.done))
    else None
  }

  function Stub(p: Proxy): seq<byte>
    requires LockOk(p)
  {
    if Unfinished(p).Some? then Encode(Unfinished(p).value.0)[..Unfinished(p).value.1] else []
  }

  ghost predicate StreamOk(p: Proxy, attached: Frame)
    requires Fits(attached) && LockOk(p)
  {
    && p.c.bytes == Encode(attached) + EncodeAll(p.c.relayed) + Stub(p)
    && Interleaving(p.c.relayed, p.d.toClient, p.u.pongs)
  }

  lemma FilterSnoc(seen: seq<Frame>, f: Frame)
    ensures WithoutPings(seen + [f]) == WithoutPings(seen) + (if IsPing(f) then [] else [f])
    ensures PongsFor(seen + [f])
         == PongsFor(seen) + (if IsPing(f) && PongFor(f).Some? then [PongFor(f).value] else [])
  {
    assert (seen + [f])[..|seen|] == seen;
  }

  lemma UpReadsKept(u: UpSide, keepalive: bool)
    requires UpOk(u) && UpEnabled(u, UpReads)
    ensures UpOk(ApplyUp(u, keepalive, UpReads))
  {
    var seen, f := u.input[..u.taken], u.input[u.taken];
    assert u.input[..u.taken + 1] == seen + [f];
    ThroughSnoc(seen, f, FromClient);
    FilterSnoc(seen, f);
    assert u.toDaemon + [] == u.toDaemon && u.pongs + [] == u.pongs;
  }

  lemma UpKept(u: UpSide, keepalive: bool, step: Step)
    requires UpOk(u) && UpEnabled(u, step)
    ensures UpOk(ApplyUp(u, keepalive, step))
  {
    match step {
      case UpReads => UpReadsKept(u, keepalive);
      case UpForwards(_) =>
      case UpWrites(_) =>
      case UpWriteFails =>
      case UpLocks =>
      case UpEnds(_) =>
    }
  }

  lemma DownReadsKept(d: DownSide)
    requires DownOk(d) && DownEnabled(d, DownReads)
    ensures DownOk(ApplyDown(d, DownReads))
  {
    var seen, f := d.input[..d.taken], d.input[d.taken];
    assert d.input[..d.taken + 1] == seen + [f];
    ThroughSnoc(seen, f, FromDaemon);
    assert d.toClient + [] == d.toClient;
  }

  lemma DownWritesKept(d: DownSide, n: nat)
    requires DownOk(d) && DownEnabled(d, DownWrites(n))
    ensures DownOk(ApplyDown(d, DownWrites(n)))
  {
    var f := d.down.f;
    assert d.toClient + [f] + [] == d.toClient + [f];
  }

  lemma DownKept(d: DownSide, step: Step)
    requires DownOk(d) && DownEnabled(d, step)
    ensures DownOk(ApplyDown(d, step))
  {
    match step {
      case DownReads => DownReadsKept(d);
      case DownWrites(n) => DownWritesKept(d, n);
      case DownWriteFails =>
      case DownLocks =>
      case DownEnds(_) =>
    }
  }

  lemma LockKept(p: Proxy, step: Step)
    requires LockOk(p) && Enabled(p, step)
    ensures LockOk(Apply(p, step))
  {
    match step {
      case UpReads =>
      case UpWrites(_) =>
      case UpWriteFails =>
      case DownReads =>
      case DownWrites(_) =>
      case DownWriteFails =>
      case _ =>
    }
  }

  lemma EncodeSnoc(frames: seq<Frame>, f: Frame)
    requires AllFit(frames) && Fits(f)
    ensures AllFit(frames + [f]) && EncodeAll(frames + [f]) == EncodeAll(frames) + Encode(f)
  {
    EncodeAllConcat(frames, [f]);
    assert EncodeAll([f]) == Encode(f) + EncodeAll([]);
  }

  /** Writing `n` more bytes of a frame extends the stub, and the last ones complete the frame. */
  lemma StubGrows(whole: seq<byte>, front: seq<byte>, done: nat, n: nat)
    requires done + n <= |whole|
    ensures front + whole[..done] + whole[done..done + n] == front + whole[..done + n]
    ensures done + n == |whole| ==> whole[..done + n] == whole
  {
    assert whole[..done + n] == whole[..done] + whole[done..done + n];
  }

  /** One more piece of `f` is on the stream; when it was the last, `f` joins `relayed`. */
  lemma PieceWritten(front: seq<byte>, relayed: seq<Frame>, attached: Frame, f: Frame, done: nat, n: nat)
    requires Fits(attached) && AllFit(relayed) && Fits(f) && done + n <= |Encode(f)|
    requires front == Encode(attached) + EncodeAll(relayed)
    ensures front + Encode(f)[..done] + Encode(f)[done..done + n] == front + Encode(f)[..done + n]
    ensures done + n == |Encode(f)| ==>
      AllFit(relayed + [f]) && front + Encode(f)[..done + n] == Encode(attached) + EncodeAll(relayed + [f]) + []
  {
    StubGrows(Encode(f), front, done, n);
    EncodeSnoc(relayed, f);
    assert front + Encode(f) == Encode(attached) + (EncodeAll(relayed) + Encode(f));
  }

  lemma UpWritesKeepsStream(p: Proxy, n: nat, attached: Frame)
    requires Fits(attached) && LockOk(p) && StreamOk(p, attached) && Enabled(p, UpWrites(n))
    requires LockOk(Apply(p, UpWrites(n)))
    ensures StreamOk(Apply(p, UpWrites(n)), attached)
  {
    var front := Encode(attached) + EncodeAll(p.c.relayed);
    PieceWritten(front, p.c.relayed, attached, p.u.up.f, p.u.up.done, n);
    InterleavingSnoc(p.c.relayed, p.d.toClient, p.u.pongs, p.u.up.f);
  }

  lemma DownWritesKeepsStream(p: Proxy, n: nat, attached: Frame)
    requires Fits(attached) && LockOk(p) && StreamOk(p, attached) && Enabled(p, DownWrites(n))
    requires LockOk(Apply(p, DownWrites(n)))
    ensures StreamOk(Apply(p, DownWrites(n)), attached)
  {
    var front := Encode(attached) + EncodeAll(p.c.relayed);
    PieceWritten(front, p.c.relayed, attached, p.d.down.f, p.d.down.done, n);
    InterleavingSnoc(p.c.relayed, p.d.toClient, p.u.pongs, p.d.down.f);
  }

  lemma StreamKept(p: Proxy, step: Step, attached: Frame)
    requires Fits(attached) && LockOk(p) && StreamOk(p, attached) && Enabled(p, step)
    requires LockOk(Apply(p, step))
    ensures StreamOk(Apply(p, step), attached)
  {
    match step {
      case UpWrites(n) => UpWritesKeepsStream(p, n, attached);
      case DownWrites(n) => DownWritesKeepsStream(p, n, attached);
      case _ =>
        assert Stub(Apply(p, step)) == Stub(p);
        assert Apply(p, step).c.bytes == p.c.bytes && Apply(p, step).c.relayed == p.c.relayed;
    }
  }

  ghost predicate Inv(p: Proxy, attached: Frame)
    requires Fits(attached)
  {
    UpOk(p.u) && DownOk(p.d) && LockOk(p) && StreamOk(p, attached)
  }

  lemma StepKeepsSides(p: Proxy, step: Step)
    requires UpOk(p.u) && DownOk(p.d) && Enabled(p, step)
    ensures UpOk(Apply(p, step).u) && DownOk(Apply(p, step).d)
    ensures Apply(p, step).u.input == p.u.input && Apply(p, step).d.input == p.d.input
  {
    if UpEnabled(p.u, step) {
      UpKept(p.u, p.keepalive, step);
      assert Apply(p, step).u == ApplyUp(p.u, p.keepalive, step) && Apply(p, step).d == p.d;
    } else {
      DownKept(p.d, step);
      assert Apply(p, step).d == ApplyDown(p.d, step) && Apply(p, step).u == p.u;
    }
  }

  lemma {:induction false} ExecKeepsInv(p: Proxy, steps: seq<Step>, attached: Frame)
    requires Fits(attached) && Inv(p, attached) && Exec(p, steps).Some?
    ensures Inv(Exec(p, steps).value, attached)
    ensures Exec(p, steps).value.u.input == p.u.input && Exec(p, steps).value.d.input == p.d.input
    decreases |steps|
  {
    if steps != [] {
      StepKeepsSides(p, steps[0]);
      LockKept(p, steps[0]);
      StreamKept(p, steps[0], attached);
      ExecKeepsInv(Apply(p, steps[0]), steps[1..], attached);
    }
  }

  // ---------------------------------------------------------------- faithfulness

  lemma {:induction false} FiltersArePrefixClosed(frames: seq<Frame>, n: nat)
    requires n <= |frames|
    ensures WithoutPings(frames[..n]) <= WithoutPings(frames)
    ensures PongsFor(frames[..n]) <= PongsFor(frames)
    decreases |frames|
  {
    if n < |frames| {
      var init := frames[..|frames| - 1];
      assert init[..n] == frames[..n];
      FiltersArePrefixClosed(init, n);
    } else {
      assert frames[..n] == frames;
    }
  }

  /** A prefix that stops at the first match is a prefix of the stopped whole, and all of it
      once the match has been seen or everything has. */
  lemma {:induction false} ThroughOfPrefix(frames: seq<Frame>, n: nat, side: Side)
    requires n <= |frames| && Through(frames[..n], side) == frames[..n]
    ensures n <= |Through(frames, side)| && Through(frames, side)[..n] == frames[..n]
    ensures Has(frames[..n], side) || n == |frames| ==> Through(frames, side) == frames[..n]
    decreases |frames|
  {
    if n < |frames| {
      var init := frames[..|frames| - 1];
      assert init[..n] == frames[..n];
      ThroughOfPrefix(init, n, side);
      if Has(frames[..n], side) {
        var i :| 0 <= i < n && Ends(side, frames[..n][i]);
        assert Ends(side, init[i]);
      }
    } else {
      assert frames[..n] == frames;
    }
  }

  lemma UpIsFaithful(u: UpSide)
    requires UpOk(u)
    ensures u.toDaemon <= WithoutPings(Through(u.input, FromClient))
    ensures u.pongs <= PongsFor(Through(u.input, FromClient))
    ensures u.up == UpClosed ==> (
      && u.toDaemon == WithoutPings(Through(u.input, FromClient))
      && u.pongs == PongsFor(Through(u.input, FromClient)))
  {
    ThroughOfPrefix(u.input, u.taken, FromClient);
    FiltersArePrefixClosed(Through(u.input, FromClient), u.taken);
  }

  lemma DownIsFaithful(d: DownSide)
    requires DownOk(d)
    ensures d.toClient <= Through(d.input, FromDaemon)
    ensures d.down == DownClosed ==> d.toClient == Through(d.input, FromDaemon)
  {
    ThroughOfPrefix(d.input, d.taken, FromDaemon);
  }

  lemma StartOk(attached: Frame, fromClient: seq<Frame>, fromDaemon: seq<Frame>, keepalive: bool)
    requires Fits(attached) && AllFit(fromDaemon)
    ensures Inv(Start(attached, fromClient, fromDaemon, keepalive), attached)
  {
    var p := Start(attached, fromClient, fromDaemon, keepalive);
    assert fromClient[..0] == [] && fromDaemon[..0] == [];
    assert p.c.bytes == Encode(attached) + [] + [];
  }

  lemma RunKeepsInv(
    attached: Frame, fromClient: seq<Frame>, fromDaemon: seq<Frame>, keepalive: bool, steps: seq<Step>, p: Proxy)
    requires Fits(attached) && AllFit(fromDaemon)
    requires Exec(Start(attached, fromClient, fromDaemon, keepalive), steps) == Some(p)
    ensures Inv(p, attached) && p.u.input == fromClient && p.d.input == fromDaemon
  {
    StartOk(attached, fromClient, fromDaemon, keepalive);
    ExecKeepsInv(Start(attached, fromClient, fromDaemon, keepalive), steps, attached);
  }

  /** Proxy faithfulness, in every interleaving of the two threads and at every moment.
      The daemon has received the client's frames in order, pings removed, up to and including
      the first DETACH; the client has received ATTACHED_SESSION and then a shuffle of the
      daemon's frames, in order up to the first closing one, with the pongs to its own pings in
      order; and both are complete once their thread has ended normally. */
  lemma ProxyIsFaithful(
    attached: Frame, fromClient: seq<Frame>, fromDaemon: seq<Frame>, keepalive: bool, steps: seq<Step>, p: Proxy)
    requires Fits(attached) && AllFit(fromDaemon)
    requires Exec(Start(attached, fromClient, fromDaemon, keepalive), steps) == Some(p)
    ensures p.u.toDaemon <= WithoutPings(Through(fromClient, FromClient))
    ensures p.d.toClient <= Through(fromDaemon, FromDaemon)
    ensures p.u.pongs <= PongsFor(Through(fromClient, FromClient))
    ensures Interleaving(p.c.relayed, p.d.toClient, p.u.pongs)
    ensures p.u.up == UpClosed ==> (
      && p.u.toDaemon == WithoutPings(Through(fromClient, FromClient))
      && p.u.pongs == PongsFor(Through(fromClient, FromClient)))
    ensures p.d.down == DownClosed ==> p.d.toClient == Through(fromDaemon, FromDaemon)
  {
    RunKeepsInv(attached, fromClient, fromDaemon, keepalive, steps, p);
    UpIsFaithful(p.u);
    DownIsFaithful(p.d);
  }

  /** Frames are never torn apart by the other thread: whenever the client stream is cut, what
      parses on the client's side is ATTACHED_SESSION and exactly the relayed frames. */
  lemma ClientReadsWholeFrames(
    attached: Frame, fromClient: seq<Frame>, fromDaemon: seq<Frame>, keepalive: bool, steps: seq<Step>, p: Proxy,
    ending: Ending)
    requires Fits(attached) && AllFit(fromDaemon)
    requires Exec(Start(attached, fromClient, fromDaemon, keepalive), steps) == Some(p)
    ensures ReadAll(p.c.bytes, ending).frames == [attached] + p.c.relayed
    ensures CutOutcome(ReadAll(p.c.bytes, ending).last)
  {
    RunKeepsInv(attached, fromClient, fromDaemon, keepalive, steps, p);
    var frames, stub := [attached] + p.c.relayed, Stub(p);
    assert frames[1..] == p.c.relayed;
    assert p.c.bytes == EncodeAll(frames) + stub;
    ReadAllUndoesEncodeAll(frames, stub, ending);
    if Unfinished(p).Some? {
      PieceIsTruncated(Unfinished(p).value.0, Unfinished(p).value.1, ending);
    }
    assert frames + [] == frames;
  }
}
