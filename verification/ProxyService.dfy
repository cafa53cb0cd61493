/** What the broker's proxy does for the frames it is given: which pings it answers and with what,
    what makes it give up, and that it gets everything through (src/server.rs:404-481). */
module ProxyService {
  import opened Basics
  import opened Wire
  import opened Cbor
  import opened BrokerProxy

  // ---------------------------------------------------------------- where a direction ends

  /** DETACH ends the client's direction; CLIENT_SHOULD_EXIT, SESSION_BUSY, EXIT_STATUS and ERROR
      end the daemon's. */
  predicate Final(side: Side, msgType: int) {
    if side == FromClient then msgType == 9 else msgType == 10 || msgType == 11 || msgType == 14 || msgType == 15
  }

  /** What is let through is everything up to and including the first final frame. */
  lemma {:induction false} ThroughTheFirstFinal(frames: seq<Frame>, side: Side, n: nat)
    requires n <= |frames| && forall i :: 0 <= i < n ==> !Final(side, frames[i].msgType)
    requires n < |frames| ==> Final(side, frames[n].msgType)
    ensures Through(frames, side) == frames[..Min(n + 1, |frames|)]
    decreases |frames|
  {
    if n == |frames| {
      ThroughNone(frames, side);
      assert frames[..n] == frames;
    } else if n + 1 < |frames| {
      var init := frames[..|frames| - 1];
      ThroughTheFirstFinal(init, side, n);
      assert Ends(side, init[n]);
      assert init[..n + 1] == frames[..n + 1];
    } else {
      ThroughNone(frames[..n], side);
      assert frames[..n + 1] == frames && frames == frames[..n] + [frames[n]];
    }
  }

  // ---------------------------------------------------------------- nonces

  /** The nonces of the well-formed PINGs among `frames`. */
  function PingNonces(frames: seq<Frame>): seq<nat> {
    if frames == [] then []
    else
      var last := frames[|frames| - 1];
      var nonce := ParseKeepalive(last.payload);
      PingNonces(frames[..|frames| - 1]) + if last.msgType == 18 && nonce.Some? then [nonce.value] else []
  }

  /** `pongs` are PONG frames that carry exactly these nonces. */
  ghost predicate Carry(pongs: seq<Frame>, nonces: seq<nat>) {
    && |pongs| == |nonces|
    && forall i :: 0 <= i < |pongs| ==> pongs[i].msgType == 19 && ParseKeepalive(pongs[i].payload) == Some(nonces[i])
  }

  lemma {:induction false} PongsCarryNonces(frames: seq<Frame>)
    ensures Carry(PongsFor(frames), PingNonces(frames))
  {
    if frames != [] {
      PongsCarryNonces(frames[..|frames| - 1]);
    }
  }

  lemma CarryPrefix(pongs: seq<Frame>, all: seq<Frame>, nonces: seq<nat>)
    requires pongs <= all && Carry(all, nonces)
    ensures |pongs| <= |nonces| && Carry(pongs, nonces[..|pongs|])
  {
  }

  /** Each PONG answers a PING: in every run, the nonces on the PONGs written so far are a prefix
      of the nonces of the client's PINGs up to its DETACH, in order; and all of them once the
      uplink has ended normally. */
  lemma PongsEchoNonces(
    attached: Frame, fromClient: seq<Frame>, fromDaemon: seq<Frame>, keepalive: bool, steps: seq<Step>, p: Proxy)
    requires Fits(attached) && AllFit(fromDaemon)
    requires Exec(Start(attached, fromClient, fromDaemon, keepalive), steps) == Some(p)
    ensures var nonces := PingNonces(Through(fromClient, FromClient));
      && |p.u.pongs| <= |nonces| && Carry(p.u.pongs, nonces[..|p.u.pongs|])
      && (p.u.up == UpClosed ==> Carry(p.u.pongs, nonces))
  {
    ProxyIsFaithful(attached, fromClient, fromDaemon, keepalive, steps, p);
    var served := Through(fromClient, FromClient);
    PongsCarryNonces(served);
    CarryPrefix(p.u.pongs, PongsFor(served), PingNonces(served));
  }

  // ---------------------------------------------------------------- pings that end the uplink

  /** A PING that keepalive was not negotiated for, or that does not decode. */
  predicate Offends(f: Frame, keepalive: bool) {
    f.msgType == 18 && (!keepalive || ParseKeepalive(f.payload).None?)
  }

  predicate Inoffensive(frames: seq<Frame>, keepalive: bool) {
    forall i :: 0 <= i < |frames| ==> !Offends(frames[i], keepalive)
  }

  /** What a frame taken from the client leads to. */
  lemma ReadsAsListed(u: UpSide, keepalive: bool)
    requires UpEnabled(u, UpReads)
    ensures var f, u' := u.input[u.taken], ApplyUp(u, keepalive, UpReads);
      && (Offends(f, keepalive) <==> u'.up.UpFailed?)
      && (f.msgType != 18 ==> u'.up == UpForward(f))
      && (u'.up.UpFailed? && PongFor(f).Some? ==> u'.up.lostPongs == [PongFor(f).value])
  {
  }

  /** The frame the uplink took last. */
  function LastTaken(u: UpSide): Option<Frame> {
    if 0 < u.taken <= |u.input| then Some(u.input[u.taken - 1]) else None
  }

  /** An offending ping stops the uplink at once. */
  ghost predicate Prompted(u: UpSide, keepalive: bool) {
    && u.taken <= |u.input|
    && (!u.up.UpFailed? ==> Inoffensive(u.input[..u.taken], keepalive))
    && (u.up.UpFailed? && u.taken > 0 ==>
          var last := u.input[u.taken - 1];
          && Inoffensive(u.input[..u.taken - 1], keepalive)
          && (Offends(last, keepalive) && PongFor(last).Some? ==> u.up.lostPongs == [PongFor(last).value]))
  }

  lemma InoffensiveSnoc(frames: seq<Frame>, n: nat, keepalive: bool)
    requires n < |frames|
    ensures Inoffensive(frames[..n + 1], keepalive)
       <==> Inoffensive(frames[..n], keepalive) && !Offends(frames[n], keepalive)
  {
    assert frames[..n + 1] == frames[..n] + [frames[n]];
    assert frames[..n + 1][n] == frames[n];
    assert forall i :: 0 <= i < n ==> frames[..n + 1][i] == frames[..n][i];
  }

  lemma StepPrompted(u: UpSide, keepalive: bool, step: Step)
    requires Prompted(u, keepalive) && UpEnabled(u, step)
    ensures Prompted(ApplyUp(u, keepalive, step), keepalive)
  {
    if step == UpReads {
      ReadsAsListed(u, keepalive);
      InoffensiveSnoc(u.input, u.taken, keepalive);
    } else if u.taken > 0 {
      InoffensiveSnoc(u.input, u.taken - 1, keepalive);
    }
  }

  lemma {:induction false} ExecPrompted(p: Proxy, steps: seq<Step>)
    requires Prompted(p.u, p.keepalive) && Exec(p, steps).Some?
    ensures Exec(p, steps).value.keepalive == p.keepalive
    ensures Prompted(Exec(p, steps).value.u, p.keepalive)
    decreases |steps|
  {
    if steps != [] {
      if UpEnabled(p.u, steps[0]) {
        StepPrompted(p.u, p.keepalive, steps[0]);
      }
      ExecPrompted(Apply(p, steps[0]), steps[1..]);
    }
  }

  /** Nothing behind an offending ping is served: in every run, whatever was forwarded or answered
      stands before the first PING that does not decode or was not negotiated. */
  lemma NothingBehindAnOffence(
    attached: Frame, fromClient: seq<Frame>, fromDaemon: seq<Frame>, keepalive: bool, steps: seq<Step>, p: Proxy)
    returns (n: nat)
    requires Fits(attached) && AllFit(fromDaemon)
    requires Exec(Start(attached, fromClient, fromDaemon, keepalive), steps) == Some(p)
    ensures n <= |fromClient| && Inoffensive(fromClient[..n], keepalive)
    ensures p.u.toDaemon <= WithoutPings(fromClient[..n]) && p.u.pongs <= PongsFor(fromClient[..n])
    ensures !keepalive ==> p.u.pongs == []
  {
    var start := Start(attached, fromClient, fromDaemon, keepalive);
    assert fromClient[..0] == [];
    RunKeepsInv(attached, fromClient, fromDaemon, keepalive, steps, p);
    ExecPrompted(start, steps);
    n := ServedPrefix(p.u, keepalive);
    if !keepalive {
      NoPongs(fromClient[..n]);
    }
  }

  lemma OffenderIsUnserved(u: UpSide, seen: seq<Frame>, last: Frame, keepalive: bool)
    requires u.up.UpFailed? && Offends(last, keepalive)
    requires u.toDaemon + u.up.lostFrames == WithoutPings(seen + [last])
    requires u.pongs + u.up.lostPongs == PongsFor(seen + [last])
    requires PongFor(last).Some? ==> u.up.lostPongs == [PongFor(last).value]
    ensures u.toDaemon <= WithoutPings(seen) && u.pongs <= PongsFor(seen)
  {
    FilterSnoc(seen, last);
    var pongs := PongsFor(seen);
    if PongFor(last).Some? {
      assert u.pongs == (u.pongs + [PongFor(last).value])[..|u.pongs|];
      assert pongs == (pongs + [PongFor(last).value])[..|pongs|];
    }
  }

  /** What `UpOk` says of frames and pongs. */
  lemma UpAccounts(u: UpSide)
    requires UpOk(u)
    ensures u.taken <= |u.input|
    ensures u.toDaemon + HandFrames(u.up) == WithoutPings(u.input[..u.taken])
    ensures u.pongs + HandPongs(u.up) == PongsFor(u.input[..u.taken])
  {
  }

  lemma PrefixOfSum<T>(a: seq<T>, b: seq<T>, c: seq<T>)
    requires a + b == c
    ensures a <= c
  {
  }

  lemma OffendedPrefix(u: UpSide, keepalive: bool)
    requires u.up.UpFailed? && 0 < u.taken <= |u.input| && Offends(u.input[u.taken - 1], keepalive)
    requires u.toDaemon + u.up.lostFrames == WithoutPings(u.input[..u.taken])
    requires u.pongs + u.up.lostPongs == PongsFor(u.input[..u.taken])
    requires Prompted(u, keepalive)
    ensures Inoffensive(u.input[..u.taken - 1], keepalive)
    ensures u.toDaemon <= WithoutPings(u.input[..u.taken - 1]) && u.pongs <= PongsFor(u.input[..u.taken - 1])
  {
    var n := u.taken - 1;
    assert u.input[..n + 1] == u.input[..n] + [u.input[n]];
    OffenderIsUnserved(u, u.input[..n], u.input[n], keepalive);
  }

  lemma UnoffendedPrefix(u: UpSide, keepalive: bool)
    requires Prompted(u, keepalive)
    requires u.up.UpFailed? && u.taken > 0 ==> !Offends(u.input[u.taken - 1], keepalive)
    ensures Inoffensive(u.input[..u.taken], keepalive)
  {
    if u.taken > 0 {
      InoffensiveSnoc(u.input, u.taken - 1, keepalive);
    }
  }

  lemma ServedPrefix(u: UpSide, keepalive: bool) returns (n: nat)
    requires UpOk(u) && Prompted(u, keepalive)
    ensures n <= |u.input| && Inoffensive(u.input[..n], keepalive)
    ensures u.toDaemon <= WithoutPings(u.input[..n]) && u.pongs <= PongsFor(u.input[..n])
  {
    UpAccounts(u);
    n := u.taken;
    if u.up.UpFailed? && n > 0 && Offends(u.input[n - 1], keepalive) {
      OffendedPrefix(u, keepalive);
      n := n - 1;
    } else {
      UnoffendedPrefix(u, keepalive);
      PrefixOfSum(u.toDaemon, HandFrames(u.up), WithoutPings(u.input[..n]));
      PrefixOfSum(u.pongs, HandPongs(u.up), PongsFor(u.input[..n]));
    }
  }

  lemma {:induction false} NoPongs(frames: seq<Frame>)
    requires Inoffensive(frames, false)
    ensures PongsFor(frames) == []
  {
    if frames != [] {
      NoPongs(frames[..|frames| - 1]);
    }
  }

  // ---------------------------------------------------------------- everything gets through

  /** The steps in which a peer or a pipe fails. */
  predicate Fault(step: Step) {
    step == UpEnds(false) || step == UpForwards(false) || step == UpWriteFails || step == DownEnds(false)
    || step == DownWriteFails
  }

  predicate Faultless(steps: seq<Step>) {
    forall i :: 0 <= i < |steps| ==> !Fault(steps[i])
  }

  /** Nothing has gone wrong, unless the client sent an offending ping. */
  ghost predicate Sound(p: Proxy) {
    && p.c.torn.None? && !p.d.down.DownFailed?
    && (p.u.up.UpFailed? ==> LastTaken(p.u).Some? && Offends(LastTaken(p.u).value, p.keepalive))
  }

  lemma StepSound(p: Proxy, step: Step)
    requires Sound(p) && Enabled(p, step) && !Fault(step)
    ensures Sound(Apply(p, step)) && Apply(p, step).keepalive == p.keepalive
  {
    if step == UpReads {
      ReadsAsListed(p.u, p.keepalive);
    }
  }

  lemma {:induction false} ExecSound(p: Proxy, steps: seq<Step>)
    requires Sound(p) && Faultless(steps) && Exec(p, steps).Some?
    ensures Sound(Exec(p, steps).value)
    decreases |steps|
  {
    if steps != [] {
      assert !Fault(steps[0]);
      StepSound(p, steps[0]);
      ExecSound(Apply(p, steps[0]), steps[1..]);
    }
  }

  function Bytes(frames: seq<Frame>): nat {
    if frames == [] then 0 else 10 + |frames[0].payload| + Bytes(frames[1..])
  }

  function UpWork(u: UpSide): nat
    requires u.taken <= |u.input|
  {
    30 * (|u.input| - u.taken) +
    match u.up
    case UpReading => 1
    case UpForward(_) => 2
    case UpPong(f) => 3 + HEADER_LEN + |f.payload|
    case UpWriting(f, done) => 2 + if done < HEADER_LEN + |f.payload| then HEADER_LEN + |f.payload| - done else 0
    case _ => 0
  }

  function DownWork(d: DownSide): nat
    requires d.taken <= |d.input|
  {
    Bytes(d.input[d.taken..]) +
    match d.down
    case DownReading => 1
    case DownWaiting(f) => 3 + HEADER_LEN + |f.payload|
    case DownWriting(f, done) => 2 + if done < HEADER_LEN + |f.payload| then HEADER_LEN + |f.payload| - done else 0
    case _ => 0
  }

  lemma UpWorks(u: UpSide, keepalive: bool, step: Step)
    requires u.taken <= |u.input| && UpEnabled(u, step)
    ensures ApplyUp(u, keepalive, step).taken <= |ApplyUp(u, keepalive, step).input|
    ensures UpWork(ApplyUp(u, keepalive, step)) < UpWork(u)
  {
  }

  lemma DownWorks(d: DownSide, step: Step)
    requires d.taken <= |d.input| && DownEnabled(d, step)
    ensures ApplyDown(d, step).taken <= |ApplyDown(d, step).input|
    ensures DownWork(ApplyDown(d, step)) < DownWork(d)
  {
    if step == DownReads {
      assert d.input[d.taken..][1..] == d.input[d.taken + 1..];
    }
  }

  /** The proxy cannot go on for ever: every step of either thread uses up some of the work that
      the given frames make. */
  lemma {:induction false} WorkIsBounded(p: Proxy, steps: seq<Step>)
    requires p.u.taken <= |p.u.input| && p.d.taken <= |p.d.input| && Exec(p, steps).Some?
    ensures |steps| <= UpWork(p.u) + DownWork(p.d)
    decreases |steps|
  {
    if steps != [] {
      if UpEnabled(p.u, steps[0]) {
        UpWorks(p.u, p.keepalive, steps[0]);
      } else {
        DownWorks(p.d, steps[0]);
      }
      WorkIsBounded(Apply(p, steps[0]), steps[1..]);
    }
  }

  predicate Over(p: Proxy) {
    (p.u.up == UpClosed || p.u.up.UpFailed?) && (p.d.down == DownClosed || p.d.down.DownFailed?)
  }

  /** And it does not get stuck: until both threads are over, one of them has a step to take in
      which nothing fails. */
  lemma SomeoneCanMove(p: Proxy) returns (step: Step)
    requires LockOk(p) && p.u.taken <= |p.u.input| && p.d.taken <= |p.d.input| && p.c.torn.None? && !Over(p)
    ensures Enabled(p, step) && !Fault(step)
  {
    if p.u.up.UpWriting? {
      step := UpWrites(|Encode(p.u.up.f)| - p.u.up.done);
    } else if p.d.down.DownWriting? {
      step := DownWrites(|Encode(p.d.down.f)| - p.d.down.done);
    } else if p.u.up == UpClosed || p.u.up.UpFailed? {
      step := match p.d.down
        case DownReading => if p.d.taken < |p.d.input| then DownReads else DownEnds(true)
        case _ => DownLocks;
    } else {
      step := match p.u.up
        case UpReading => if p.u.taken < |p.u.input| then UpReads else UpEnds(true)
        case UpForward(_) => UpForwards(true)
        case _ => UpLocks;
    }
  }

  lemma RunsToTheEnd(
    attached: Frame, fromClient: seq<Frame>, fromDaemon: seq<Frame>, keepalive: bool, steps: seq<Step>, p: Proxy)
    returns (step: Step)
    requires Fits(attached) && AllFit(fromDaemon) && Faultless(steps) && !Over(p)
    requires Exec(Start(attached, fromClient, fromDaemon, keepalive), steps) == Some(p)
    ensures Enabled(p, step) && !Fault(step)
  {
    RunKeepsInv(attached, fromClient, fromDaemon, keepalive, steps, p);
    ExecSound(Start(attached, fromClient, fromDaemon, keepalive), steps);
    step := SomeoneCanMove(p);
  }

  /** Everything gets through: a run in which no peer and no pipe fails, and that has come to its
      end, has brought the daemon all of the client's frames up to its DETACH without the PINGs,
      and the client all of the daemon's up to the first closing one and an answer to every
      PING; unless the client sent an offending PING, which stops its own direction only. */
  lemma EverythingGetsThrough(
    attached: Frame, fromClient: seq<Frame>, fromDaemon: seq<Frame>, keepalive: bool, steps: seq<Step>, p: Proxy)
    requires Fits(attached) && AllFit(fromDaemon) && Faultless(steps) && Over(p)
    requires Exec(Start(attached, fromClient, fromDaemon, keepalive), steps) == Some(p)
    ensures p.d.toClient == Through(fromDaemon, FromDaemon)
    ensures Inoffensive(fromClient, keepalive) ==> (
      && p.u.toDaemon == WithoutPings(Through(fromClient, FromClient))
      && Carry(p.u.pongs, PingNonces(Through(fromClient, FromClient))))
    ensures Interleaving(p.c.relayed, p.d.toClient, p.u.pongs)
  {
    var start := Start(attached, fromClient, fromDaemon, keepalive);
    ProxyIsFaithful(attached, fromClient, fromDaemon, keepalive, steps, p);
    PongsEchoNonces(attached, fromClient, fromDaemon, keepalive, steps, p);
    RunKeepsInv(attached, fromClient, fromDaemon, keepalive, steps, p);
    ExecSound(start, steps);
    KeepaliveStays(start, steps);
  }

  lemma {:induction false} KeepaliveStays(p: Proxy, steps: seq<Step>)
    requires Exec(p, steps).Some?
    ensures Exec(p, steps).value.keepalive == p.keepalive
    decreases |steps|
  {
    if steps != [] {
      KeepaliveStays(Apply(p, steps[0]), steps[1..]);
    }
  }
}
