/** What an attached session makes of what happens to it, as the source lists it: when it ends
    and how, what it sends and which session it takes for confirmed (src/client.rs:1082-1294,
    1521-1534). Nothing here is stated through the steps of the loop's specification. */
module SessionVerdicts {
  import opened Basics
  import opened Wire
  import opened ClientErrors
  import opened Pinger
  import opened AttachedSession

  // ---------------------------------------------------------------- where a session ends

  /** The pass at which a session that is over ended. */
  lemma {:induction false} EndingPass(c: Config, loop: Loop, turns: seq<Turn>) returns (i: nat, l: Loop)
    requires Session(c, loop, turns).Done?
    ensures i < |turns| && Session(c, loop, turns[..i]) == Continue(l)
    ensures TakeTurn(c, l, turns[i]) == Session(c, loop, turns)
    decreases |turns|
  {
    var v := TakeTurn(c, loop, turns[0]);
    if v.Done? {
      i, l := 0, loop;
      assert turns[..0] == [];
    } else {
      var k;
      k, l := EndingPass(c, v.loop, turns[1..]);
      i := k + 1;
      assert turns[..i][0] == turns[0] && turns[..i][1..] == turns[1..][..k];
    }
  }

  lemma {:induction false} EndsThere(c: Config, loop: Loop, turns: seq<Turn>, i: nat, l: Loop)
    requires i < |turns| && Session(c, loop, turns[..i]) == Continue(l) && TakeTurn(c, l, turns[i]).Done?
    ensures Session(c, loop, turns) == TakeTurn(c, l, turns[i])
    decreases |turns|
  {
    if i > 0 {
      assert turns[..i][0] == turns[0] && turns[..i][1..] == turns[1..][..i - 1];
      EndsThere(c, TakeTurn(c, loop, turns[0]).loop, turns[1..], i - 1, l);
    } else {
      assert turns[..0] == [];
    }
  }

  // ---------------------------------------------------------------- the verdicts, listed

  predicate PongOverdue(l: Loop, turn: Turn) {
    l.keep.pending.Some? && l.keep.pending.value.deadline <= turn.now
  }

  predicate PingDue(c: Config, l: Loop, turn: Turn) {
    c.keepalive && l.keep.pending.None? && l.keep.next <= turn.now
  }

  /** The pass gets as far as its event. */
  predicate ReachesEvent(c: Config, l: Loop, turn: Turn) {
    && !PongOverdue(l, turn)
    && (PingDue(c, l, turn) || turn.resize == Resized ==> turn.writable)
    && turn.resize != ResizeError
  }

  /** A closing frame that ends the session well, and the exit code it stands for. */
  predicate EndsWell(m: Message, code: nat) {
    || (m == ClientShouldExit && code == 0)
    || (m.ExitStatus? && m.code.Some? && 0 <= m.code.value <= 255 && code == m.code.value)
    || (m.ExitStatus? && m.code.Some? && !(0 <= m.code.value <= 255) && code == 1)
    || (m.ExitStatus? && m.code.None? && m.signal.Some? && code == 1)
  }

  /** What the running attempt's reader delivers that ends the session in an error. */
  predicate EndsBadly(c: Config, d: Delivery, shownOk: bool, e: ClientError) {
    || (d == BrokerEof && e == UnexpectedBrokerEof)
    || (d.BrokerFailed? && e == Protocol(d.error))
    || (d.Received? && (
          var m := d.message;
          || (m.Attached? && c.expected.Some? && c.expected.value != m.sessionId
              && e == SessionMismatch(c.expected.value, m.sessionId))
          || (m.PtyData? && !shownOk && e == CopyStdout)
          || (m == ExitStatus(None, None) && e == MissingExitStatus)
          || (m.Busy? && e == SessionBusy(m.sessionId))
          || (m == BrokerErrorText && e == BrokerError)
          || (m == Malformed && e == Protocol(InvalidMessage))
          || (m.Unsolicited? && e == UnexpectedBrokerMessage(m.msgType))))
  }

  /** Everything else that can end a session, in the order it is looked at. */
  predicate Breaks(c: Config, l: Loop, turn: Turn, e: ClientError) {
    if PongOverdue(l, turn) then e == KeepaliveTimeout
    else if PingDue(c, l, turn) && !turn.writable then e == Protocol(Io)
    else if turn.resize == ResizeError then e == WindowSize
    else if turn.resize == Resized && !turn.writable then e == Protocol(Io)
    else
      || (turn.arrival == Hangup && e == UnexpectedBrokerEof)
      || (turn.arrival == Arrived(StdinError) && e == CopyStdin)
      || (turn.arrival.Arrived? && turn.arrival.event.Stdin? && l.stdinOpen && !turn.writable && e == Protocol(Io))
  }

  ghost predicate SucceedsAt(c: Config, loop: Loop, turns: seq<Turn>, i: nat, code: nat)
    requires i < |turns|
  {
    var before := Session(c, loop, turns[..i]);
    && before.Continue? && ReachesEvent(c, before.loop, turns[i])
    && var own := OwnDelivery(c.attempt, turns[i]);
      own != [] && own[0].Received? && EndsWell(own[0].message, code)
  }

  ghost predicate FailsAt(c: Config, loop: Loop, turns: seq<Turn>, i: nat, confirmed: Option<string>, e: ClientError)
    requires i < |turns|
  {
    var before := Session(c, loop, turns[..i]);
    && before.Continue? && before.loop.confirmed == confirmed
    && FailsWith(c, before.loop, turns[i], e)
  }

  lemma FrameVerdict(c: Config, l: Loop, m: Message, turn: Turn, code: nat, e: ClientError)
    ensures OnMessage(c, l, m, turn).Done? && OnMessage(c, l, m, turn).ending == Success(code) <==> EndsWell(m, code)
    ensures (OnMessage(c, l, m, turn).Done? && OnMessage(c, l, m, turn).ending == Failure(l.confirmed, e))
       <==> EndsBadly(c, Received(m), turn.shownOk, e)
  {
  }

  lemma EventReached(c: Config, l: Loop, turn: Turn)
    ensures Prepare(c, l, turn).Continue? <==> ReachesEvent(c, l, turn)
    ensures Prepare(c, l, turn).loop.confirmed == l.confirmed && Prepare(c, l, turn).loop.stdinOpen == l.stdinOpen
  {
  }

  lemma TurnSucceeds(c: Config, l: Loop, turn: Turn, code: nat)
    ensures TakeTurn(c, l, turn).Done? && TakeTurn(c, l, turn).ending == Success(code)
       <==> (ReachesEvent(c, l, turn)
             && var own := OwnDelivery(c.attempt, turn);
               own != [] && own[0].Received? && EndsWell(own[0].message, code))
  {
    EventReached(c, l, turn);
    var own := OwnDelivery(c.attempt, turn);
    if own != [] && own[0].Received? {
      FrameVerdict(c, Prepare(c, l, turn).loop, own[0].message, turn, code, Prompt);
    }
  }

  predicate FailsWith(c: Config, l: Loop, turn: Turn, e: ClientError) {
    || Breaks(c, l, turn, e)
    || (ReachesEvent(c, l, turn)
        && var own := OwnDelivery(c.attempt, turn);
          own != [] && EndsBadly(c, own[0], turn.shownOk, e))
  }

  lemma FailsEarly(c: Config, l: Loop, turn: Turn, e: ClientError)
    requires !ReachesEvent(c, l, turn)
    ensures TakeTurn(c, l, turn).Done?
    ensures TakeTurn(c, l, turn).ending == Failure(l.confirmed, e) <==> Breaks(c, l, turn, e)
  {
    EventReached(c, l, turn);
  }

  lemma FrameFails(c: Config, l: Loop, turn: Turn, e: ClientError)
    requires OwnDelivery(c.attempt, turn) != []
    ensures (OnArrival(c, l, turn).Done? && OnArrival(c, l, turn).ending == Failure(l.confirmed, e))
       <==> EndsBadly(c, OwnDelivery(c.attempt, turn)[0], turn.shownOk, e)
  {
    var d := OwnDelivery(c.attempt, turn)[0];
    if d.Received? {
      FrameVerdict(c, l, d.message, turn, 0, e);
    }
  }

  lemma TurnFails(c: Config, l: Loop, turn: Turn, e: ClientError)
    ensures (TakeTurn(c, l, turn).Done? && TakeTurn(c, l, turn).ending == Failure(l.confirmed, e))
       <==> FailsWith(c, l, turn, e)
  {
    EventReached(c, l, turn);
    if !ReachesEvent(c, l, turn) {
      FailsEarly(c, l, turn, e);
    } else if OwnDelivery(c.attempt, turn) != [] {
      FrameFails(c, Prepare(c, l, turn).loop, turn, e);
    }
  }

  lemma FailureNamesConfirmed(c: Config, l: Loop, turn: Turn)
    requires TakeTurn(c, l, turn).Done? && TakeTurn(c, l, turn).ending.Failure?
    ensures TakeTurn(c, l, turn).ending.confirmed == l.confirmed
  {
    EventReached(c, l, turn);
  }

  /** A session ends with exit code `code` if and only if its first decisive event is the running
      attempt's own closing frame for that code. */
  lemma SuccessIff(c: Config, loop: Loop, turns: seq<Turn>, code: nat)
    ensures (Session(c, loop, turns).Done? && Session(c, loop, turns).ending == Success(code))
       <==> exists i :: 0 <= i < |turns| && SucceedsAt(c, loop, turns, i, code)
  {
    if Session(c, loop, turns).Done? && Session(c, loop, turns).ending == Success(code) {
      var i, l := EndingPass(c, loop, turns);
      TurnSucceeds(c, l, turns[i], code);
      assert SucceedsAt(c, loop, turns, i, code);
    }
    forall i | 0 <= i < |turns| && SucceedsAt(c, loop, turns, i, code)
      ensures Session(c, loop, turns).Done? && Session(c, loop, turns).ending == Success(code)
    {
      var l := Session(c, loop, turns[..i]).loop;
      TurnSucceeds(c, l, turns[i], code);
      EndsThere(c, loop, turns, i, l);
    }
  }

  /** A session ends in error `e` if and only if its first decisive event is one that the list
      gives that error; the confirmed id it reports is the one it had until then. */
  lemma FailureIff(c: Config, loop: Loop, turns: seq<Turn>, confirmed: Option<string>, e: ClientError)
    ensures (Session(c, loop, turns).Done? && Session(c, loop, turns).ending == Failure(confirmed, e))
       <==> exists i :: 0 <= i < |turns| && FailsAt(c, loop, turns, i, confirmed, e)
  {
    if Session(c, loop, turns).Done? && Session(c, loop, turns).ending == Failure(confirmed, e) {
      var i, l := EndingPass(c, loop, turns);
      FailureNamesConfirmed(c, l, turns[i]);
      TurnFails(c, l, turns[i], e);
      assert FailsAt(c, loop, turns, i, confirmed, e);
    }
    forall i | 0 <= i < |turns| && FailsAt(c, loop, turns, i, confirmed, e)
      ensures Session(c, loop, turns).Done? && Session(c, loop, turns).ending == Failure(confirmed, e)
    {
      var l := Session(c, loop, turns[..i]).loop;
      TurnFails(c, l, turns[i], e);
      EndsThere(c, loop, turns, i, l);
    }
  }

  // ---------------------------------------------------------------- which id is confirmed

  /** The id in the last ATTACHED_SESSION among some deliveries. */
  function LastAttached(own: seq<Delivery>, before: Option<string>): Option<string> {
    if own == [] then before
    else
      LastAttached(own[1..],
                   if own[0].Received? && own[0].message.Attached? then Some(own[0].message.sessionId) else before)
  }

  lemma TurnConfirms(c: Config, loop: Loop, turn: Turn)
    requires TakeTurn(c, loop, turn).Continue?
    ensures TakeTurn(c, loop, turn).loop.confirmed == LastAttached(OwnDelivery(c.attempt, turn), loop.confirmed)
  {
    EventReached(c, loop, turn);
    var own := OwnDelivery(c.attempt, turn);
    assert own != [] ==> own[1..] == [];
  }

  /** While a session goes on, the confirmed id is the one its own reader delivered last. */
  lemma {:induction false} ConfirmedIsLastAttached(c: Config, loop: Loop, turns: seq<Turn>)
    requires Session(c, loop, turns).Continue?
    ensures Session(c, loop, turns).loop.confirmed == LastAttached(OwnDeliveries(c.attempt, turns), loop.confirmed)
    decreases |turns|
  {
    if turns != [] {
      var own, l := OwnDelivery(c.attempt, turns[0]), TakeTurn(c, loop, turns[0]).loop;
      TurnConfirms(c, loop, turns[0]);
      ConfirmedIsLastAttached(c, l, turns[1..]);
      var more := OwnDeliveries(c.attempt, turns[1..]);
      if own == [] {
        assert own + more == more;
      } else {
        assert (own + more)[1..] == more && own[1..] == [];
      }
    }
  }

  // ---------------------------------------------------------------- what is sent

  /** The keystrokes that arrive with one pass, and before stdin ends. */
  function TypedWith(open: bool, turn: Turn): seq<byte> {
    match turn.arrival
    case Arrived(Stdin(bytes)) => if open then bytes else []
    case _ => []
  }

  predicate StaysOpen(open: bool, turn: Turn) {
    open && turn.arrival != Arrived(StdinEof)
  }

  function Typed(open: bool, turns: seq<Turn>): seq<byte>
    decreases |turns|
  {
    if turns == [] then [] else TypedWith(open, turns[0]) + Typed(StaysOpen(open, turns[0]), turns[1..])
  }

  function InputBytes(sent: seq<Sent>): seq<byte> {
    if sent == [] then []
    else
      var last := sent[|sent| - 1];
      InputBytes(sent[..|sent| - 1]) + if last.SentInput? then last.bytes else []
  }

  function PingNonces(sent: seq<Sent>): seq<nat> {
    if sent == [] then []
    else
      var last := sent[|sent| - 1];
      PingNonces(sent[..|sent| - 1]) + if last.SentPing? then [last.nonce] else []
  }

  function Resizes(sent: seq<Sent>): nat {
    if sent == [] then 0
    else Resizes(sent[..|sent| - 1]) + if sent[|sent| - 1] == SentWindowSize then 1 else 0
  }

  lemma SentSnoc(sent: seq<Sent>, x: Sent)
    ensures InputBytes(sent + [x]) == InputBytes(sent) + if x.SentInput? then x.bytes else []
    ensures PingNonces(sent + [x]) == PingNonces(sent) + if x.SentPing? then [x.nonce] else []
    ensures Resizes(sent + [x]) == Resizes(sent) + if x == SentWindowSize then 1 else 0
  {
    assert (sent + [x])[..|sent|] == sent;
  }

  lemma PrepareSends(c: Config, l: Loop, turn: Turn)
    requires ReachesEvent(c, l, turn)
    ensures var s := Prepare(c, l, turn).loop.sent;
      && InputBytes(s) == InputBytes(l.sent)
      && Resizes(s) == Resizes(l.sent) + (if turn.resize == Resized then 1 else 0)
      && PingNonces(s) == PingNonces(l.sent) + (if PingDue(c, l, turn) then [NextNonce(l.keep.nonce)] else [])
    ensures Prepare(c, l, turn).loop.keep.nonce == if PingDue(c, l, turn) then NextNonce(l.keep.nonce) else l.keep.nonce
  {
    var pinged := l.sent + [SentPing(NextNonce(l.keep.nonce))];
    SentSnoc(l.sent, SentPing(NextNonce(l.keep.nonce)));
    SentSnoc(pinged, SentWindowSize);
    SentSnoc(l.sent, SentWindowSize);
    EventReached(c, l, turn);
  }

  lemma ArrivalSends(c: Config, l: Loop, turn: Turn)
    requires OnArrival(c, l, turn).Continue?
    ensures var l' := OnArrival(c, l, turn).loop;
      && InputBytes(l'.sent) == InputBytes(l.sent) + TypedWith(l.stdinOpen, turn)
      && PingNonces(l'.sent) == PingNonces(l.sent) && Resizes(l'.sent) == Resizes(l.sent)
      && l'.stdinOpen == StaysOpen(l.stdinOpen, turn) && l'.keep.nonce == l.keep.nonce
  {
    if turn.arrival.Arrived? && turn.arrival.event.Stdin? {
      SentSnoc(l.sent, SentInput(turn.arrival.event.bytes));
    } else if OwnDelivery(c.attempt, turn) != [] {
      var d := turn.arrival.event.delivery;
      if d.Received? {
        MessageLeaves(c, l, d.message, turn);
      }
    }
  }

  /** What one pass adds to what was sent. */
  ghost predicate Sends(c: Config, l: Loop, turn: Turn, l': Loop) {
    && InputBytes(l'.sent) == InputBytes(l.sent) + TypedWith(l.stdinOpen, turn)
    && l'.stdinOpen == StaysOpen(l.stdinOpen, turn)
    && Resizes(l'.sent) == Resizes(l.sent) + (if turn.resize == Resized then 1 else 0)
    && PingNonces(l'.sent) == PingNonces(l.sent) + (if PingDue(c, l, turn) then [NextNonce(l.keep.nonce)] else [])
    && l'.keep.nonce == if PingDue(c, l, turn) then NextNonce(l.keep.nonce) else l.keep.nonce
  }

  lemma TurnSends(c: Config, l: Loop, turn: Turn)
    requires TakeTurn(c, l, turn).Continue?
    ensures Sends(c, l, turn, TakeTurn(c, l, turn).loop)
  {
    EventReached(c, l, turn);
    PrepareSends(c, l, turn);
    ArrivalSends(c, Prepare(c, l, turn).loop, turn);
  }

  function ResizeCount(turns: seq<Turn>): nat {
    if turns == [] then 0 else (if turns[0].resize == Resized then 1 else 0) + ResizeCount(turns[1..])
  }

  /** While a session goes on, exactly the keystrokes typed before stdin ended have been sent,
      in order, and one report for each change of the window. */
  lemma {:induction false} InputIsForwarded(c: Config, loop: Loop, turns: seq<Turn>)
    requires Session(c, loop, turns).Continue?
    ensures var l := Session(c, loop, turns).loop;
      && InputBytes(l.sent) == InputBytes(loop.sent) + Typed(loop.stdinOpen, turns)
      && Resizes(l.sent) == Resizes(loop.sent) + ResizeCount(turns)
    decreases |turns|
  {
    if turns != [] {
      var l := TakeTurn(c, loop, turns[0]).loop;
      TurnSends(c, loop, turns[0]);
      InputIsForwarded(c, l, turns[1..]);
      var typed := TypedWith(loop.stdinOpen, turns[0]);
      ConcatAssociative(InputBytes(loop.sent), typed, Typed(l.stdinOpen, turns[1..]));
    }
  }

  // ---------------------------------------------------------------- pings

  /** The n-th ping's nonce: counting from one, in 64 bits. */
  function NonceAt(n: nat): nat {
    if n == 0 then 0 else if NonceAt(n - 1) == 0xFFFF_FFFF_FFFF_FFFF then 0 else NonceAt(n - 1) + 1
  }

  ghost predicate Numbered(l: Loop) {
    var nonces := PingNonces(l.sent);
    l.keep.nonce == NonceAt(|nonces|) && forall k :: 0 <= k < |nonces| ==> nonces[k] == NonceAt(k + 1)
  }

  lemma NumberedGrows(l: Loop, l': Loop)
    requires Numbered(l) && PingNonces(l'.sent) == PingNonces(l.sent) + [l'.keep.nonce]
    requires l'.keep.nonce == NextNonce(l.keep.nonce)
    ensures Numbered(l')
  {
  }

  lemma TurnKeepsNumbers(c: Config, l: Loop, turn: Turn)
    requires Numbered(l) && TakeTurn(c, l, turn).Continue?
    ensures Numbered(TakeTurn(c, l, turn).loop)
  {
    TurnSends(c, l, turn);
    if PingDue(c, l, turn) {
      NumberedGrows(l, TakeTurn(c, l, turn).loop);
    } else {
      assert PingNonces(l.sent) + [] == PingNonces(l.sent);
    }
  }

  /** Pings are numbered one, two, three, ... so no two of a session's first 2^64 are confused. */
  lemma {:induction false} PingsAreNumbered(c: Config, loop: Loop, turns: seq<Turn>)
    requires Numbered(loop) && Session(c, loop, turns).Continue?
    ensures Numbered(Session(c, loop, turns).loop)
    decreases |turns|
  {
    if turns != [] {
      TurnKeepsNumbers(c, loop, turns[0]);
      PingsAreNumbered(c, TakeTurn(c, loop, turns[0]).loop, turns[1..]);
    }
  }

  /** A ping goes out at the first pass at which one is due, and its deadline is 45 s away. */
  lemma PingGoesOut(c: Config, l: Loop, turn: Turn)
    requires PingDue(c, l, turn) && ReachesEvent(c, l, turn)
    ensures var p := Prepare(c, l, turn).loop;
      && PingNonces(p.sent) == PingNonces(l.sent) + [p.keep.nonce]
      && p.keep.pending == Some(Ping(p.keep.nonce, turn.now + 45_000))
  {
    PrepareSends(c, l, turn);
  }

  predicate NoPong(c: Config, turns: seq<Turn>) {
    forall i :: 0 <= i < |turns| ==> (
      forall d :: d in OwnDelivery(c.attempt, turns[i]) ==> !(d.Received? && d.message.Pong?))
  }

  predicate InOrder(turns: seq<Turn>) {
    forall i, j :: 0 <= i < j < |turns| ==> turns[i].now <= turns[j].now
  }

  /** The session pings, or has pinged, by pass `j`. */
  ghost predicate PingsBy(l: Loop, time: nat) {
    if l.keep.pending.Some? then l.keep.pending.value.deadline <= time + 45_000 else l.keep.next <= time
  }

  lemma QuietTurn(c: Config, l: Loop, turn: Turn, time: nat)
    requires TakeTurn(c, l, turn).Continue? && NoPong(c, [turn]) && c.keepalive && turn.now <= time && PingsBy(l, time)
    ensures PingsBy(TakeTurn(c, l, turn).loop, time)
    ensures l.keep.next <= turn.now || l.keep.pending.Some? ==> TakeTurn(c, l, turn).loop.keep.pending.Some?
  {
    EventReached(c, l, turn);
    assert [turn][0] == turn;
    var own := OwnDelivery(c.attempt, turn);
    assert own != [] ==> own[0] in own;
    var p := Prepare(c, l, turn).loop;
    assert TakeTurn(c, l, turn).loop.keep == p.keep;
  }

  /** A broker that never answers is given up, whatever else it sends: a session with keepalive
      is over by the first pass 45 s after a pass at which it should have pinged. */
  lemma {:induction false} DeadBrokerIsNoticed(c: Config, l: Loop, turns: seq<Turn>, j: nat, i: nat)
    requires c.keepalive && NoPong(c, turns) && InOrder(turns) && j < i < |turns|
    requires PingsBy(l, turns[j].now) && turns[j].now + 45_000 <= turns[i].now
    ensures Session(c, l, turns).Done?
    decreases |turns|
  {
    var v := TakeTurn(c, l, turns[0]);
    if v.Continue? {
      QuietTurn(c, l, turns[0], turns[j].now);
      if j > 0 {
        DeadBrokerIsNoticed(c, v.loop, turns[1..], j - 1, i - 1);
      } else {
        var ping := v.loop.keep.pending.value;
        forall k | 0 <= k < |turns[1..]| ensures NotAnswered(c, turns[1..][k], ping.nonce) {
          assert turns[1..][k] == turns[k + 1];
        }
        SilentBrokerIsNoticed(c, v.loop, turns[1..], ping, i - 1);
      }
    }
  }
}
