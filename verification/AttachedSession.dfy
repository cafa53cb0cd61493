/** The errors a client run can end with and how it classifies them
    (src/client.rs:1548-1572, 1643-1681). */
module ClientErrors {
  import opened Wire

  datatype ClientError =
    | SpawnSsh
    | MissingChildStdin
    | MissingChildStdout
    | UnexpectedBootstrapEof
    | ReadBootstrap
    | WriteBootstrap
    | Prompt
    | InstallDeclined
    | RemoteBootstrap
    | UnexpectedBrokerEof
    | KeepaliveTimeout
    | UnexpectedBrokerMessage(msgType: int)
    | BrokerError
    | SessionBusy(sessionId: string)
    | SessionMismatch(expected: string, actual: string)
    | NoSharedCapabilities
    | ConnectionLostBeforeSessionKnown(cause: ClientError)
    | ReconnectFailed(sessionId: string, cause: ClientError)
    | ReconnectDetachFailed
    | Protocol(error: ProtocolError)
    | InvalidSession
    | InvalidSessionSelection
    | NoSessionsForDetachConnect
    | MissingSessionForDetach
    | WaitSsh
    | CopyStdin
    | CopyStdout
    | Terminal
    | WindowSize
    | MissingExitStatus

  /** The connection went away without saying why. */
  predicate IsAmbiguous(e: ClientError) {
    match e
    case UnexpectedBrokerEof => true
    case KeepaliveTimeout => true
    case Protocol(Io) => true
    case Protocol(TruncatedHeader) => true
    case Protocol(TruncatedPayload(_, _)) => true
    case _ => false
  }

  predicate IsRetryable(e: ClientError) {
    IsAmbiguous(e) ||
    match e
    case SpawnSsh => true
    case MissingChildStdin => true
    case MissingChildStdout => true
    case UnexpectedBootstrapEof => true
    case ReadBootstrap => true
    case WriteBootstrap => true
    case WaitSsh => true
    case ReconnectDetachFailed => true
    case _ => false
  }
}

/** The client's keepalive bookkeeping, in milliseconds (src/client.rs:27-38, 1082-1117, 1223-1235). */
module Pinger {
  import opened Basics

  const KEEPALIVE_INTERVAL: nat := 15_000
  const KEEPALIVE_TIMEOUT: nat := 45_000

  datatype Ping = Ping(nonce: nat, deadline: nat)
  datatype Keep = Keep(next: nat, pending: Option<Ping>, nonce: nat)

  function Start(now: nat): Keep {
    Keep(now + KEEPALIVE_INTERVAL, None, 0)
  }

  predicate Expired(k: Keep, now: nat) {
    k.pending.Some? && now >= k.pending.value.deadline
  }

  predicate Due(k: Keep, enabled: bool, now: nat) {
    enabled && k.pending.None? && now >= k.next
  }

  function NextNonce(nonce: nat): nat {
    if nonce == U64_MAX then 0 else nonce + 1
  }

  function Pinged(k: Keep, now: nat): Keep {
    k.(nonce := NextNonce(k.nonce), pending := Some(Ping(NextNonce(k.nonce), now + KEEPALIVE_TIMEOUT)))
  }

  predicate Answers(k: Keep, nonce: nat) {
    k.pending.Some? && k.pending.value.nonce == nonce
  }

  function Ponged(k: Keep, nonce: nat, now: nat): Keep {
    if Answers(k, nonce) then k.(pending := None, next := now + KEEPALIVE_INTERVAL) else k
  }
}

/** One attached session as the client sees it: the event loop of `run_attached_session` and
    the reader thread that feeds it (src/client.rs:1063-1316, 1521-1534). */
module AttachedSession {
  import opened Basics
  import opened Wire
  import opened ClientErrors
  import opened Pinger

  /** A broker frame after its type was looked at and its body decoded. */
  datatype Message =
    | Attached(sessionId: string)
    | PtyData(bytes: seq<byte>)
    | Pong(pong: nat)
    | ClientShouldExit
    | ExitStatus(code: Option<int>, signal: Option<int>)
    | Busy(sessionId: string)
    | BrokerErrorText
    | Malformed                    // known type, body does not decode
    | Unsolicited(msgType: int)    // known type that has no business here
    | UnknownType                  // a type from a newer peer: ignored

  datatype Delivery = Received(message: Message) | BrokerEof | BrokerFailed(error: ProtocolError)

  datatype Event =
    | Stdin(bytes: seq<byte>)
    | StdinEof
    | StdinError
    | BrokerFrame(attempt: nat, delivery: Delivery)

  datatype Arrival = Nothing | Hangup | Arrived(event: Event)
  datatype Resize = Unchanged | Resized | ResizeError

  /** One pass of the loop: when it started, whether the broker still accepts writes, what
      the window did, which event came, whether the terminal accepted output, and when the
      event was handled. */
  datatype Turn = Turn(now: nat, writable: bool, resize: Resize, arrival: Arrival, shownOk: bool, handled: nat)

  datatype Sent = SentPing(nonce: nat) | SentWindowSize | SentInput(bytes: seq<byte>)

  datatype Config = Config(expected: Option<string>, attempt: nat, keepalive: bool)

  datatype Loop = Loop(confirmed: Option<string>, stdinOpen: bool, keep: Keep, sent: seq<Sent>, shown: seq<byte>)

  datatype Ending = Success(code: nat) | Failure(confirmed: Option<string>, error: ClientError)
  datatype Verdict = Continue(loop: Loop) | Done(ending: Ending, loop: Loop)

  function Opening(now: nat): Loop {
    Loop(None, true, Start(now), [], [])
  }

  function Fail(loop: Loop, e: ClientError): Verdict {
    Done(Failure(loop.confirmed, e), loop)
  }

  /** `exit_code_from_status`. */
  function ExitCode(code: Option<int>, signal: Option<int>): Option<nat> {
    if code.Some? then Some(if 0 <= code.value < 256 then code.value else 1)
    else if signal.Some? then Some(1)
    else None
  }

  function OnMessage(c: Config, loop: Loop, m: Message, turn: Turn): Verdict {
    match m
    case Attached(id) =>
      if c.expected.Some? && c.expected.value != id then Fail(loop, SessionMismatch(c.expected.value, id))
      else Continue(loop.(confirmed := Some(id)))
    case PtyData(bytes) =>
      if turn.shownOk then Continue(loop.(shown := loop.shown + bytes)) else Fail(loop, CopyStdout)
    case Pong(nonce) => Continue(loop.(keep := Ponged(loop.keep, nonce, turn.handled)))
    case ClientShouldExit => Done(Success(0), loop)
    case ExitStatus(code, signal) =>
      (match ExitCode(code, signal)
       case Some(exit) => Done(Success(exit), loop)
       case None => Fail(loop, MissingExitStatus))
    case Busy(id) => Fail(loop, SessionBusy(id))
    case BrokerErrorText => Fail(loop, BrokerError)
    case Malformed => Fail(loop, Protocol(InvalidMessage))
    case Unsolicited(t) => Fail(loop, UnexpectedBrokerMessage(t))
    case UnknownType => Continue(loop)
  }

  function OnDelivery(c: Config, loop: Loop, d: Delivery, turn: Turn): Verdict {
    match d
    case Received(m) => OnMessage(c, loop, m, turn)
    case BrokerEof => Fail(loop, UnexpectedBrokerEof)
    case BrokerFailed(e) => Fail(loop, Protocol(e))
  }

  function OnArrival(c: Config, loop: Loop, turn: Turn): Verdict {
    match turn.arrival
    case Nothing => Continue(loop)
    case Hangup => Fail(loop, UnexpectedBrokerEof)
    case Arrived(Stdin(bytes)) =>
      if !loop.stdinOpen then Continue(loop)
      else if turn.writable then Continue(loop.(sent := loop.sent + [SentInput(bytes)]))
      else Fail(loop, Protocol(Io))
    case Arrived(StdinEof) => Continue(loop.(stdinOpen := false))
    case Arrived(StdinError) => Fail(loop, CopyStdin)
    case Arrived(BrokerFrame(attempt, d)) =>
      if attempt == c.attempt then OnDelivery(c, loop, d, turn) else Continue(loop)
  }

  /** Keepalive deadline, ping, window size: what happens before an event is taken. */
  function Prepare(c: Config, loop: Loop, turn: Turn): Verdict {
    if Expired(loop.keep, turn.now) then Fail(loop, KeepaliveTimeout)
    else if Due(loop.keep, c.keepalive, turn.now) then
      if !turn.writable then Fail(loop, Protocol(Io))
      else
        var keep := Pinged(loop.keep, turn.now);
        PrepareWindow(loop.(keep := keep, sent := loop.sent + [SentPing(keep.nonce)]), turn)
    else PrepareWindow(loop, turn)
  }

  function PrepareWindow(loop: Loop, turn: Turn): Verdict {
    match turn.resize
    case Unchanged => Continue(loop)
    case ResizeError => Fail(loop, WindowSize)
    case Resized =>
      if turn.writable then Continue(loop.(sent := loop.sent + [SentWindowSize])) else Fail(loop, Protocol(Io))
  }

  function TakeTurn(c: Config, loop: Loop, turn: Turn): Verdict {
    match Prepare(c, loop, turn)
    case Done(ending, l) => Done(ending, l)
    case Continue(l) => OnArrival(c, l, turn)
  }

  function Session(c: Config, loop: Loop, turns: seq<Turn>): Verdict
    decreases |turns|
  {
    if turns == [] then Continue(loop)
    else
      match TakeTurn(c, loop, turns[0])
      case Done(ending, l) => Done(ending, l)
      case Continue(l) => Session(c, l, turns[1..])
  }

  // ---------------------------------------------------------------- the loop as written

  /** One broker frame of the running attempt, handled on the loop's variables. */
  method HandleMessage(c: Config, loop: Loop, m: Message, turn: Turn) returns (v: Verdict)
    ensures v == OnMessage(c, loop, m, turn)
  {
    var confirmed, next, pending, shown := loop.confirmed, loop.keep.next, loop.keep.pending, loop.shown;
    match m {
      case Attached(id) =>
        if c.expected.Some? && c.expected.value != id {
          return Fail(loop, SessionMismatch(c.expected.value, id));
        }
        confirmed := Some(id);
      case PtyData(bytes) =>
        if !turn.shownOk {
          return Fail(loop, CopyStdout);
        }
        shown := shown + bytes;
      case Pong(nonce) =>
        if pending.Some? && pending.value.nonce == nonce {
          pending := None;
          next := turn.handled + KEEPALIVE_INTERVAL;
        }
      case ClientShouldExit => return Done(Success(0), loop);
      case ExitStatus(code, signal) =>
        if code.Some? {
          return Done(Success(if 0 <= code.value < 256 then code.value else 1), loop);
        }
        if signal.Some? {
          return Done(Success(1), loop);
        }
        return Fail(loop, MissingExitStatus);
      case Busy(id) => return Fail(loop, SessionBusy(id));
      case BrokerErrorText => return Fail(loop, BrokerError);
      case Malformed => return Fail(loop, Protocol(InvalidMessage));
      case Unsolicited(t) => return Fail(loop, UnexpectedBrokerMessage(t));
      case UnknownType =>
    }
    v := Continue(loop.(confirmed := confirmed, keep := Keep(next, pending, loop.keep.nonce), shown := shown));
  }

  /** `run_attached_session` after its first window-size report, over the passes it makes. */
  method RunAttachedSession(c: Config, started: nat, turns: seq<Turn>) returns (v: Verdict)
    ensures v == Session(c, Opening(started), turns)
  {
    var confirmed: Option<string> := None;
    var stdinOpen := true;
    var next: nat := started + KEEPALIVE_INTERVAL;
    var nonce: nat := 0;
    var pending: Option<Ping> := None;
    var sent: seq<Sent> := [];
    var shown: seq<byte> := [];

    for i := 0 to |turns|
      invariant Session(c, Opening(started), turns)
             == Session(c, Loop(confirmed, stdinOpen, Keep(next, pending, nonce), sent, shown), turns[i..])
    {
      var turn := turns[i];
      var before := Loop(confirmed, stdinOpen, Keep(next, pending, nonce), sent, shown);
      assert turns[i..][0] == turn && turns[i..][1..] == turns[i + 1..];

      if pending.Some? && turn.now >= pending.value.deadline {
        return Fail(before, KeepaliveTimeout);
      }
      if c.keepalive && pending.None? && turn.now >= next {
        if !turn.writable {
          return Fail(before, Protocol(Io));
        }
        nonce := if nonce == U64_MAX then 0 else nonce + 1;
        sent := sent + [SentPing(nonce)];
        pending := Some(Ping(nonce, turn.now + KEEPALIVE_TIMEOUT));
      }
      if turn.resize != Unchanged {
        var resizing := Loop(confirmed, stdinOpen, Keep(next, pending, nonce), sent, shown);
        if turn.resize == ResizeError {
          return Fail(resizing, WindowSize);
        }
        if !turn.writable {
          return Fail(resizing, Protocol(Io));
        }
        sent := sent + [SentWindowSize];
      }
      ghost var prepared := Loop(confirmed, stdinOpen, Keep(next, pending, nonce), sent, shown);
      assert Prepare(c, before, turn) == Continue(prepared);

      var loop := Loop(confirmed, stdinOpen, Keep(next, pending, nonce), sent, shown);
      match turn.arrival {
        case Nothing =>
        case Hangup => return Fail(loop, UnexpectedBrokerEof);
        case Arrived(Stdin(bytes)) =>
          if stdinOpen {
            if !turn.writable {
              return Fail(loop, Protocol(Io));
            }
            sent := sent + [SentInput(bytes)];
          }
        case Arrived(StdinEof) => stdinOpen := false;
        case Arrived(StdinError) => return Fail(loop, CopyStdin);
        case Arrived(BrokerFrame(attempt, delivery)) =>
          if attempt == c.attempt {
            if delivery.BrokerEof? {
              return Fail(loop, UnexpectedBrokerEof);
            }
            if delivery.BrokerFailed? {
              return Fail(loop, Protocol(delivery.error));
            }
            var handled := HandleMessage(c, loop, delivery.message, turn);
            if handled.Done? {
              return handled;
            }
            confirmed, shown := handled.loop.confirmed, handled.loop.shown;
            next, pending := handled.loop.keep.next, handled.loop.keep.pending;
            MessageLeaves(c, loop, delivery.message, turn);
          }
      }
      assert OnArrival(c, prepared, turn)
          == Continue(Loop(confirmed, stdinOpen, Keep(next, pending, nonce), sent, shown));
    }
    assert turns[|turns|..] == [];
    v := Continue(Loop(confirmed, stdinOpen, Keep(next, pending, nonce), sent, shown));
  }

  /** A broker frame touches neither what was sent nor stdin nor the nonce counter. */
  lemma MessageLeaves(c: Config, loop: Loop, m: Message, turn: Turn)
    ensures var l := OnMessage(c, loop, m, turn).loop;
      l.sent == loop.sent && l.stdinOpen == loop.stdinOpen && l.keep.nonce == loop.keep.nonce
  {
  }

  // ---------------------------------------------------------------- which session was confirmed

  ghost predicate Trusted(c: Config, confirmed: Option<string>) {
    c.expected.Some? ==> confirmed == None || confirmed == c.expected
  }

  /** A client that asked for a session by id never ends up with another one: whatever the
      broker sends, the confirmed id is absent or the requested one. */
  lemma {:induction false} ConfirmedIsRequested(c: Config, loop: Loop, turns: seq<Turn>)
    requires Trusted(c, loop.confirmed)
    ensures var v := Session(c, loop, turns);
      && Trusted(c, v.loop.confirmed)
      && (v.Done? && v.ending.Failure? ==> v.ending.confirmed == v.loop.confirmed)
    decreases |turns|
  {
    if turns != [] {
      var v := TakeTurn(c, loop, turns[0]);
      if v.Continue? {
        ConfirmedIsRequested(c, v.loop, turns[1..]);
      }
    }
  }

  /** The errors a session itself can end with. */
  predicate FromSession(e: ClientError) {
    match e
    case KeepaliveTimeout => true
    case UnexpectedBrokerEof => true
    case UnexpectedBrokerMessage(_) => true
    case BrokerError => true
    case SessionBusy(_) => true
    case SessionMismatch(_, _) => true
    case Protocol(_) => true
    case CopyStdin => true
    case CopyStdout => true
    case WindowSize => true
    case MissingExitStatus => true
    case _ => false
  }

  predicate FailsAsSession(v: Verdict) {
    v.Done? && v.ending.Failure? ==> FromSession(v.ending.error)
  }

  lemma MessageErrors(c: Config, loop: Loop, m: Message, turn: Turn)
    ensures FailsAsSession(OnMessage(c, loop, m, turn))
  {
  }

  lemma TurnErrors(c: Config, loop: Loop, turn: Turn)
    ensures FailsAsSession(TakeTurn(c, loop, turn))
  {
    var p := Prepare(c, loop, turn);
    if p.Continue? && turn.arrival.Arrived? && turn.arrival.event.BrokerFrame? {
      var d := turn.arrival.event.delivery;
      if d.Received? {
        MessageErrors(c, p.loop, d.message, turn);
      }
      assert FailsAsSession(OnDelivery(c, p.loop, d, turn));
    }
  }

  lemma {:induction false} SessionErrors(c: Config, loop: Loop, turns: seq<Turn>)
    ensures FailsAsSession(Session(c, loop, turns))
    decreases |turns|
  {
    if turns != [] {
      TurnErrors(c, loop, turns[0]);
      var v := TakeTurn(c, loop, turns[0]);
      if v.Continue? {
        SessionErrors(c, v.loop, turns[1..]);
      }
    }
  }

  // ---------------------------------------------------------------- attempt isolation

  /** What older attempts' readers still push into the shared channel, replaced by silence. */
  function Silenced(attempt: nat, turn: Turn): Turn {
    match turn.arrival
    case Arrived(BrokerFrame(a, _)) => if a != attempt then turn.(arrival := Nothing) else turn
    case _ => turn
  }

  function SilencedAll(attempt: nat, turns: seq<Turn>): seq<Turn> {
    if turns == [] then [] else [Silenced(attempt, turns[0])] + SilencedAll(attempt, turns[1..])
  }

  /** Frames of other attempts change nothing: not the screen, not what is sent, not the
      keepalive, not the confirmed session, not the outcome. */
  lemma {:induction false} OldReadersAreInvisible(c: Config, loop: Loop, turns: seq<Turn>)
    ensures Session(c, loop, turns) == Session(c, loop, SilencedAll(c.attempt, turns))
    decreases |turns|
  {
    if turns != [] {
      var quiet := SilencedAll(c.attempt, turns);
      assert quiet[1..] == SilencedAll(c.attempt, turns[1..]);
      assert TakeTurn(c, loop, quiet[0]) == TakeTurn(c, loop, turns[0]);
      var v := TakeTurn(c, loop, turns[0]);
      if v.Continue? {
        OldReadersAreInvisible(c, v.loop, turns[1..]);
      }
    }
  }

  // ---------------------------------------------------------------- a cut is never a verdict

  function Output(deliveries: seq<Delivery>): seq<byte> {
    if deliveries == [] then []
    else
      (if deliveries[0].Received? && deliveries[0].message.PtyData? then deliveries[0].message.bytes else [])
      + Output(deliveries[1..])
  }

  /** While a session goes on, the screen has gained exactly the output its own reader
      delivered, in order. */
  lemma {:induction false} ScreenShowsOwnOutput(c: Config, loop: Loop, turns: seq<Turn>)
    requires Session(c, loop, turns).Continue?
    ensures Session(c, loop, turns).loop.shown == loop.shown + Output(OwnDeliveries(c.attempt, turns))
    decreases |turns|
  {
    if turns != [] {
      var l := TakeTurn(c, loop, turns[0]).loop;
      ScreenShowsOwnOutput(c, l, turns[1..]);
      TurnShowsOwnOutput(c, loop, turns[0]);
      OutputConcat(OwnDelivery(c.attempt, turns[0]), OwnDeliveries(c.attempt, turns[1..]));
    }
  }

  lemma TurnShowsOwnOutput(c: Config, loop: Loop, turn: Turn)
    requires TakeTurn(c, loop, turn).Continue?
    ensures TakeTurn(c, loop, turn).loop.shown == loop.shown + Output(OwnDelivery(c.attempt, turn))
  {
    var own := OwnDelivery(c.attempt, turn);
    assert own != [] ==> own[1..] == [];
    assert Prepare(c, loop, turn).loop.shown == loop.shown;
  }

  lemma OutputConcat(own: seq<Delivery>, more: seq<Delivery>)
    requires |own| <= 1
    ensures Output(own + more) == Output(own) + Output(more)
  {
    if own == [] {
      assert own + more == more;
    } else {
      assert (own + more)[1..] == more && own[1..] == [];
    }
  }

  /** Everything this attempt's reader got into the loop, in order. */
  function OwnDeliveries(attempt: nat, turns: seq<Turn>): seq<Delivery> {
    if turns == [] then [] else OwnDelivery(attempt, turns[0]) + OwnDeliveries(attempt, turns[1..])
  }

  function OwnDelivery(attempt: nat, turn: Turn): seq<Delivery> {
    match turn.arrival
    case Arrived(BrokerFrame(a, d)) => if a == attempt then [d] else []
    case _ => []
  }

  /** A frame that neither ends the session nor breaks the protocol. */
  predicate Harmless(c: Config, m: Message) {
    match m
    case Attached(id) => c.expected.None? || c.expected.value == id
    case PtyData(_) => true
    case Pong(_) => true
    case UnknownType => true
    case _ => false
  }

  predicate HarmlessOrCut(c: Config, d: Delivery) {
    match d
    case Received(m) => Harmless(c, m)
    case BrokerEof => true
    case BrokerFailed(e) => e == Io || e == TruncatedHeader || e.TruncatedPayload?
  }

  /** Nothing on this machine fails: stdin, stdout and the window size stay readable. */
  predicate LocalOk(turns: seq<Turn>) {
    forall i :: 0 <= i < |turns| ==>
      turns[i].shownOk && turns[i].resize != ResizeError && turns[i].arrival != Arrived(StdinError)
  }

  predicate Inconclusive(v: Verdict) {
    v.Done? ==> v.ending.Failure? && IsAmbiguous(v.ending.error)
  }

  lemma {:induction false} HarmlessIsInconclusive(c: Config, loop: Loop, turns: seq<Turn>)
    requires LocalOk(turns)
    requires forall d :: d in OwnDeliveries(c.attempt, turns) ==> HarmlessOrCut(c, d)
    ensures Inconclusive(Session(c, loop, turns))
    decreases |turns|
  {
    if turns != [] {
      var own := OwnDelivery(c.attempt, turns[0]);
      assert forall d :: d in own ==> d in OwnDeliveries(c.attempt, turns);
      assert own != [] ==> own[0] in own;
      var v := TakeTurn(c, loop, turns[0]);
      assert Inconclusive(v);
      if v.Continue? {
        HarmlessIsInconclusive(c, v.loop, turns[1..]);
      }
    }
  }

  /** `spawn_broker_reader`: every frame read, then the one thing that was not a frame. */
  function Deliveries(t: Transcript, decode: Frame -> Message): seq<Delivery>
    requires !t.last.Got?
  {
    Mapped(t.frames, decode) + [if t.last == CleanEof then BrokerEof else BrokerFailed(t.last.error)]
  }

  function Mapped(frames: seq<Frame>, decode: Frame -> Message): (m: seq<Delivery>)
    ensures |m| == |frames| && forall i :: 0 <= i < |m| ==> m[i] == Received(decode(frames[i]))
  {
    if frames == [] then [] else [Received(decode(frames[0]))] + Mapped(frames[1..], decode)
  }

  /** Any cut is ambiguous, never a verdict. Take any valid frames at all, cut their stream at
      any byte in either way, also inside a closing frame, and let the client run any number of
      passes over what its reader delivers. If none of the `k` frames that got through whole
      closes the session, it never reports success and never a definitive error, only an
      outcome the reconnect logic retries. */
  lemma CutIsNeverAVerdict(
    c: Config, loop: Loop, frames: seq<Frame>, p: nat, ending: Wire.Ending, decode: Frame -> Message, turns: seq<Turn>,
    k: nat)
    requires AllFit(frames) && p <= |EncodeAll(frames)| && LocalOk(turns)
    requires DeliveredWhole(frames, p, k) && forall i :: 0 <= i < k ==> Harmless(c, decode(frames[i]))
    requires OwnDeliveries(c.attempt, turns) <= Deliveries(ReadAll(EncodeAll(frames)[..p], ending), decode)
    ensures Inconclusive(Session(c, loop, turns))
  {
    var k' := CutYieldsWholeFrames(frames, p, ending);
    DeliveredWholeUnique(frames, p, k, k');
    var t := ReadAll(EncodeAll(frames)[..p], ending);
    var all := Deliveries(t, decode);
    forall d | d in OwnDeliveries(c.attempt, turns) ensures HarmlessOrCut(c, d) {
      var i :| 0 <= i < |OwnDeliveries(c.attempt, turns)| && OwnDeliveries(c.attempt, turns)[i] == d;
      assert all[i] == d;
      if i < |t.frames| {
        assert d == Received(decode(frames[i]));
      }
    }
    HarmlessIsInconclusive(c, loop, turns);
  }

  /** And it does not hang: once the reader's last word has been taken, the session is over. */
  lemma {:induction false} LastWordEndsSession(c: Config, loop: Loop, turns: seq<Turn>)
    requires exists d :: d in OwnDeliveries(c.attempt, turns) && !d.Received?
    ensures Session(c, loop, turns).Done?
    decreases |turns|
  {
    if turns != [] {
      var v := TakeTurn(c, loop, turns[0]);
      if v.Continue? {
        var d :| d in OwnDeliveries(c.attempt, turns) && !d.Received?;
        assert d in OwnDeliveries(c.attempt, turns[1..]);
        LastWordEndsSession(c, v.loop, turns[1..]);
      }
    }
  }

  // ---------------------------------------------------------------- a silent broker is noticed

  /** A turn that does not bring the pong for `nonce` from this attempt's reader. */
  predicate NotAnswered(c: Config, turn: Turn, nonce: nat) {
    forall d :: d in OwnDelivery(c.attempt, turn) ==> d != Received(Pong(nonce))
  }

  /** With a ping outstanding and its pong missing, the session cannot outlive the deadline: it
      is over by the first pass that starts at or after it. */
  lemma {:induction false} SilentBrokerIsNoticed(c: Config, loop: Loop, turns: seq<Turn>, ping: Ping, i: nat)
    requires loop.keep.pending == Some(ping) && i < |turns| && turns[i].now >= ping.deadline
    requires forall k :: 0 <= k < |turns| ==> NotAnswered(c, turns[k], ping.nonce)
    ensures Session(c, loop, turns).Done?
    decreases |turns|
  {
    var v := TakeTurn(c, loop, turns[0]);
    if i > 0 && v.Continue? {
      PendingStays(c, loop, turns[0], ping);
      SilentBrokerIsNoticed(c, v.loop, turns[1..], ping, i - 1);
    }
  }

  lemma PendingStays(c: Config, loop: Loop, turn: Turn, ping: Ping)
    requires loop.keep.pending == Some(ping) && NotAnswered(c, turn, ping.nonce)
    requires TakeTurn(c, loop, turn).Continue?
    ensures TakeTurn(c, loop, turn).loop.keep.pending == Some(ping)
  {
    var own := OwnDelivery(c.attempt, turn);
    assert own != [] ==> own[0] in own;
    assert Prepare(c, loop, turn).loop.keep == loop.keep;
  }
}
