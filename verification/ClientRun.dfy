/** The client's outer loop: dialling, recovering and backing off (src/client.rs:46-194,
    310-348, 564-594). */
module ClientRun {
  import opened Basics
  import opened ClientErrors
  import opened AttachedSession

  datatype Action = Attach | New | List | Detach | DetachConnect | Version

  datatype Args = Args(action: Action, session: Option<string>, sshArgs: seq<string>, destination: string)

  /** How the ssh child ended: not at all that could be seen, by an exit code, or by a signal. */
  datatype SshStatus = WaitFailed | SshExited(code: int) | SshSignalled

  /** How one attach connection went: it failed before or outside the session, or a session
      ran, with the id the user picked when the arguments named none. */
  datatype Dial =
    | DialFailed(error: ClientError)
    | SessionRan(pick: Option<string>, keepalive: bool, started: nat, turns: seq<Turn>, ssh: SshStatus)

  /** What the outside world does in one pass of the loop; `staleDetach` is used only when a
      stale client has to be detached. */
  datatype Exchange = Exchange(dial: Dial, staleDetach: Option<ClientError>)

  datatype CallKind = Dialled | StaleDetach

  /** One start of ssh, with what the client knew at that moment. */
  datatype Call = Call(args: Args, kind: CallKind, attempt: nat, recovering: bool, known: Option<string>)

  /** One sleep; `restarted` when an established session had reset the backoff. */
  datatype Pause = Pause(seconds: nat, restarted: bool)

  datatype Result = Exited(code: nat) | Failed(error: ClientError) | Running

  // ---------------------------------------------------------------- backoff

  const RECONNECT_MAX_DELAY: nat := 120
  const U32_MAX: nat := 0xFFFF_FFFF

  function Pow2(n: nat): (p: nat)
    ensures 1 <= p
  {
    if n == 0 then 1 else 2 * Pow2(n - 1)
  }

  /** `reconnect_delay_for_attempt`: the shift is checked, the product saturates. */
  function DelayFor(attempt: nat): nat {
    var shift := if attempt == 0 then 0 else attempt - 1;
    var multiplier := if shift < 32 then Pow2(shift) else U32_MAX;
    Min(multiplier, RECONNECT_MAX_DELAY)
  }

  function Counted(attempts: nat): nat {
    if attempts >= U32_MAX then U32_MAX else attempts + 1
  }

  lemma Pow2Grows(n: nat)
    requires 7 <= n
    ensures Pow2(n) >= 128
  {
    if n > 7 {
      Pow2Grows(n - 1);
    } else {
      assert Pow2(3) == 8 && Pow2(5) == 32;
    }
  }

  /** The wait doubles until it reaches two minutes and stays there, for every attempt count
      a 32-bit counter can hold. */
  lemma DelayDoubles(attempts: nat)
    requires 1 <= attempts <= U32_MAX
    ensures DelayFor(1) == 1
    ensures DelayFor(Counted(attempts)) == Min(2 * DelayFor(attempts), 120)
  {
    if 8 <= attempts < 33 {
      Pow2Grows(attempts - 1);
    }
  }

  // ---------------------------------------------------------------- one attempt

  /** `reconnect_detach_args` and the reconnect arguments: everything but action and session
      is the user's. */
  function AttachTo(args: Args, id: string): Args {
    args.(action := Attach, session := Some(id))
  }

  function DetachFrom(args: Args, id: string): Args {
    args.(action := Detach, session := Some(id))
  }

  /** The session an attach connection insists on. */
  function Requested(args: Args, pick: Option<string>): Option<string> {
    match args.action
    case Attach => if args.session.Some? then args.session else pick
    case _ => None
  }

  datatype Attempt = AttemptFailed(error: ClientError) | Ended(ending: Ending) | Unfinished

  function RunAttempt(args: Args, attempt: nat, dial: Dial): Attempt {
    match dial
    case DialFailed(e) => AttemptFailed(e)
    case SessionRan(pick, keepalive, started, turns, ssh) =>
      match Session(Config(Requested(args, pick), attempt, keepalive), Opening(started), turns)
      case Continue(_) => Unfinished
      case Done(ending, _) =>
        if ssh == WaitFailed then AttemptFailed(WaitSsh)
        else match ending
          case Success(code) => Ended(Success(ExitCodeWith(code, ssh)))
          case Failure(_, _) => Ended(ending)
  }

  /** `exit_code_with_ssh_status`: a failed ssh overrides the session's own exit code. */
  function ExitCodeWith(code: nat, ssh: SshStatus): (exit: nat)
    ensures exit == 0 <==> code == 0 && ssh == SshExited(0)
    ensures ssh == SshExited(0) ==> exit == code
    ensures ssh.SshExited? && 1 <= ssh.code <= 255 ==> exit == ssh.code
    ensures ssh.SshSignalled? || (ssh.SshExited? && !(0 <= ssh.code <= 255)) ==> exit == 1
  {
    if ssh == SshExited(0) then code
    else if ssh.SshExited? && 0 <= ssh.code < 256 then ssh.code
    else 1
  }

  /** An attempt that names a session confirms that session or none. */
  lemma AttemptConfirmsRequested(args: Args, attempt: nat, dial: Dial)
    requires args.action == Attach && args.session.Some?
    ensures var r := RunAttempt(args, attempt, dial);
      r.Ended? && r.ending.Failure? ==> r.ending.confirmed == None || r.ending.confirmed == args.session
  {
    if dial.SessionRan? {
      ConfirmedIsRequested(Config(args.session, attempt, dial.keepalive), Opening(dial.started), dial.turns);
    }
  }

  /** `reconnect_busy_session`. */
  function BusySession(e: ClientError, known: Option<string>, reconnecting: bool): Option<string> {
    if e.SessionBusy? && reconnecting && known == Some(e.sessionId) then Some(e.sessionId) else None
  }

  // ---------------------------------------------------------------- one pass of the loop

  /** The loop's variables. */
  datatype Memory = Memory(next: Args, known: Option<string>, recovering: bool, attempts: nat, attempt: nat)

  /** After a pass: stop, or sleep and go round again. Either way a stale client may have been
      asked to detach first. */
  datatype Move = Stop(result: Result, detaches: seq<Call>) | Again(memory: Memory, detaches: seq<Call>, pause: Pause)

  function NextAttempt(attempt: nat): nat {
    if attempt >= U64_MAX then U64_MAX else attempt + 1
  }

  function DialCall(m: Memory): Call {
    Call(m.next, Dialled, m.attempt, m.recovering, m.known)
  }

  function BackOff(m: Memory, detaches: seq<Call>, restarted: bool): Move {
    var attempts := Counted(if restarted then 0 else m.attempts);
    Again(m.(attempts := attempts, attempt := NextAttempt(m.attempt)), detaches, Pause(DelayFor(attempts), restarted))
  }

  function Pass(args: Args, m: Memory, x: Exchange): Move {
    match RunAttempt(m.next, m.attempt, x.dial)
    case Unfinished => Stop(Running, [])
    case AttemptFailed(e) => if m.recovering && IsRetryable(e) then BackOff(m, [], false) else Stop(Failed(e), [])
    case Ended(Success(code)) => Stop(Exited(code), [])
    case Ended(Failure(confirmed, e)) =>
      var busy := BusySession(e, m.known, m.recovering);
      if busy.Some? then
        var detach := Call(DetachFrom(args, busy.value), StaleDetach, 0, m.recovering, m.known);
        if x.staleDetach.Some? && !IsRetryable(x.staleDetach.value)
        then Stop(Failed(ReconnectFailed(busy.value, x.staleDetach.value)), [detach])
        else BackOff(m.(next := AttachTo(args, busy.value)), [detach], false)
      else if IsAmbiguous(e) then
        var target := if confirmed.Some? then confirmed else m.known;
        if target.None? then Stop(Failed(ConnectionLostBeforeSessionKnown(e)), [])
        else BackOff(m.(recovering := true, known := target, next := AttachTo(args, target.value)), [], confirmed.Some?)
      else Stop(Failed(e), [])
  }

  datatype Story = Story(result: Result, calls: seq<Call>, pauses: seq<Pause>)

  function Told(calls: seq<Call>, pauses: seq<Pause>, rest: Story): Story {
    Story(rest.result, calls + rest.calls, pauses + rest.pauses)
  }

  function Client(args: Args, m: Memory, world: seq<Exchange>): Story
    decreases |world|
  {
    if world == [] then Story(Running, [], [])
    else
      match Pass(args, m, world[0])
      case Stop(result, detaches) => Story(result, [DialCall(m)] + detaches, [])
      case Again(m', detaches, pause) => Told([DialCall(m)] + detaches, [pause], Client(args, m', world[1..]))
  }

  // ---------------------------------------------------------------- recovery never changes target

  ghost predicate MemoryOk(args: Args, m: Memory) {
    m.recovering ==> m.known.Some? && m.next == AttachTo(args, m.known.value)
  }

  ghost predicate CallOk(args: Args, call: Call) {
    && (call.kind == StaleDetach ==> call.recovering)
    && (call.recovering ==>
          && call.known.Some? && call.args.session == call.known
          && call.args.action == (if call.kind == StaleDetach then Detach else Attach)
          && call.args.destination == args.destination && call.args.sshArgs == args.sshArgs)
  }

  /** One pass keeps what recovery has fixed: once recovering, always recovering, and the known
      session never changes again. */
  lemma PassKeepsTarget(args: Args, m: Memory, x: Exchange)
    requires MemoryOk(args, m)
    ensures CallOk(args, DialCall(m))
    ensures forall d :: d in Pass(args, m, x).detaches ==> (
      CallOk(args, d) && d.recovering == m.recovering && d.known == m.known)
    ensures Pass(args, m, x).Again? ==>
      && MemoryOk(args, Pass(args, m, x).memory)
      && (m.recovering ==> Pass(args, m, x).memory.recovering && Pass(args, m, x).memory.known == m.known)
  {
    if m.recovering {
      AttemptConfirmsRequested(m.next, m.attempt, x.dial);
    }
  }

  lemma {:induction false} RecoveringCallsNameTarget(args: Args, m: Memory, world: seq<Exchange>)
    requires MemoryOk(args, m)
    ensures forall call :: call in Client(args, m, world).calls ==>
      && CallOk(args, call)
      && (m.recovering ==> call.recovering && call.known == m.known)
    decreases |world|
  {
    if world != [] {
      PassKeepsTarget(args, m, world[0]);
      var move := Pass(args, m, world[0]);
      if move.Again? {
        RecoveringCallsNameTarget(args, move.memory, world[1..]);
      }
    }
  }

  /** Recovery never changes target: from the first recovering call on, every ssh started is
      an attach to, or a stale-client detach of, one and the same session at the user's own
      destination with the user's own options; and only a recovering client detaches another. */
  ghost predicate TargetPinned(args: Args, calls: seq<Call>) {
    && (forall i :: 0 <= i < |calls| ==> CallOk(args, calls[i]))
    && (forall i, j :: 0 <= i < j < |calls| && calls[i].recovering ==>
          calls[j].recovering && calls[j].known == calls[i].known)
  }

  lemma PinnedConcat(args: Args, first: seq<Call>, rest: seq<Call>, recovering: bool, known: Option<string>)
    requires TargetPinned(args, rest)
    requires forall c :: c in first ==> CallOk(args, c) && c.recovering == recovering && c.known == known
    requires recovering ==> forall c :: c in rest ==> c.recovering && c.known == known
    ensures TargetPinned(args, first + rest)
  {
    var all := first + rest;
    forall i, j | 0 <= i < j < |all| && all[i].recovering
      ensures all[j].recovering && all[j].known == all[i].known
    {
      if i < |first| {
        assert all[i] in first && (all[j] in first || all[j] in rest);
      } else {
        assert all[i] == rest[i - |first|] && all[j] == rest[j - |first|];
      }
    }
  }

  lemma {:induction false} RecoveryPinsTarget(args: Args, m: Memory, world: seq<Exchange>)
    requires MemoryOk(args, m)
    ensures TargetPinned(args, Client(args, m, world).calls)
    decreases |world|
  {
    if world != [] {
      PassKeepsTarget(args, m, world[0]);
      var move := Pass(args, m, world[0]);
      var first := [DialCall(m)] + move.detaches;
      if move.Again? {
        RecoveryPinsTarget(args, move.memory, world[1..]);
        RecoveringCallsNameTarget(args, move.memory, world[1..]);
        PinnedConcat(args, first, Client(args, move.memory, world[1..]).calls, m.recovering, m.known);
      } else {
        PinnedConcat(args, first, [], m.recovering, m.known);
        assert first + [] == first;
      }
    }
  }

  /** For every command line that attaches, whatever the network, the brokers and the user do.
      A detach-connect starts out recovering the session `id` it has just detached. */
  lemma EveryRunPinsTarget(args: Args, id: string, world: seq<Exchange>)
    ensures var initial := if args.action == DetachConnect then AttachTo(args, id) else args;
      TargetPinned(args, Client(args, FirstMemory(args, initial), world).calls)
  {
    var initial := if args.action == DetachConnect then AttachTo(args, id) else args;
    RecoveryPinsTarget(args, FirstMemory(args, initial), world);
  }

  // ---------------------------------------------------------------- backoff over a whole run

  ghost predicate BackoffAt(pauses: seq<Pause>, i: nat)
    requires i < |pauses|
  {
    if i == 0 || pauses[i].restarted then pauses[i].seconds == 1
    else pauses[i].seconds == Min(2 * pauses[i - 1].seconds, 120)
  }

  /** The loop's variables before pass `i`, while the run lasts that long. */
  function MemoryAt(args: Args, m: Memory, world: seq<Exchange>, i: nat): Option<Memory>
    decreases i
  {
    if i == 0 then Some(m)
    else if world == [] || Pass(args, m, world[0]).Stop? then None
    else MemoryAt(args, Pass(args, m, world[0]).memory, world[1..], i - 1)
  }

  /** The pass ended a session that had been established, by losing the connection. */
  predicate LostEstablished(m: Memory, x: Exchange) {
    var r := RunAttempt(m.next, m.attempt, x.dial);
    r.Ended? && r.ending.Failure? && r.ending.confirmed.Some? && IsAmbiguous(r.ending.error)
  }

  /** Pause `i` belongs to pass `i`, and is marked exactly when that pass lost an established
      session. */
  ghost predicate MarkedAt(args: Args, m: Memory, world: seq<Exchange>, pauses: seq<Pause>, i: nat)
    requires i < |pauses|
  {
    && i < |world| && MemoryAt(args, m, world, i).Some?
    && (pauses[i].restarted <==> LostEstablished(MemoryAt(args, m, world, i).value, world[i]))
  }

  lemma {:induction false} PausesAreMarked(args: Args, m: Memory, world: seq<Exchange>, i: nat)
    requires i < |Client(args, m, world).pauses|
    ensures MarkedAt(args, m, world, Client(args, m, world).pauses, i)
    decreases i
  {
    var move := Pass(args, m, world[0]);
    if i > 0 {
      PausesAreMarked(args, move.memory, world[1..], i - 1);
    }
  }

  ghost predicate FirstPauseOk(pauses: seq<Pause>, attempts: nat) {
    pauses != [] ==> pauses[0].seconds == if pauses[0].restarted then 1 else DelayFor(Counted(attempts))
  }

  lemma PassPause(args: Args, m: Memory, x: Exchange)
    requires m.attempts <= U32_MAX && Pass(args, m, x).Again?
    ensures var move := Pass(args, m, x);
      && FirstPauseOk([move.pause], m.attempts)
      && 1 <= move.memory.attempts <= U32_MAX
      && move.pause.seconds == DelayFor(move.memory.attempts)
  {
    DelayDoubles(1);
  }

  /** Waits go 1, 2, 4, ... seconds, capped at two minutes, and start over exactly after a pass
      whose session had confirmed its id and then lost the connection. */
  lemma {:induction false} BackoffOverRun(args: Args, m: Memory, world: seq<Exchange>)
    requires m.attempts <= U32_MAX
    ensures var pauses := Client(args, m, world).pauses;
      && FirstPauseOk(pauses, m.attempts)
      && (forall i :: 0 < i < |pauses| ==> BackoffAt(pauses, i))
      && (forall i :: 0 <= i < |pauses| ==> MarkedAt(args, m, world, pauses, i))
    decreases |world|
  {
    forall i | 0 <= i < |Client(args, m, world).pauses|
      ensures MarkedAt(args, m, world, Client(args, m, world).pauses, i)
    {
      PausesAreMarked(args, m, world, i);
    }
    if world != [] && Pass(args, m, world[0]).Again? {
      var move := Pass(args, m, world[0]);
      PassPause(args, m, world[0]);
      BackoffOverRun(args, move.memory, world[1..]);
      PausesConcat(move.pause, Client(args, move.memory, world[1..]).pauses, move.memory.attempts);
    }
  }

  lemma PausesConcat(first: Pause, rest: seq<Pause>, attempts: nat)
    requires 1 <= attempts <= U32_MAX && first.seconds == DelayFor(attempts)
    requires FirstPauseOk(rest, attempts) && forall i :: 0 < i < |rest| ==> BackoffAt(rest, i)
    ensures forall i :: 0 < i < |rest| + 1 ==> BackoffAt([first] + rest, i)
  {
    DelayDoubles(attempts);
    forall i | 0 < i < |rest| + 1 ensures BackoffAt([first] + rest, i) {
      if i > 1 {
        assert BackoffAt(rest, i - 1);
      }
    }
  }

  /** The two errors that only the outer loop or a session can raise. */
  predicate FromDialling(e: ClientError) {
    !e.SessionBusy? && !e.ReconnectFailed?
  }

  /** While recovering the client gives up only on a definitive error: never on a retryable
      one, never because its own session is busy, and on a refused stale detach only when that
      refusal was definitive. */
  predicate GivesUpFor(e: ClientError, target: string) {
    !IsRetryable(e) && e != SessionBusy(target) && (e.ReconnectFailed? ==> !IsRetryable(e.cause))
  }

  lemma PassPerseveres(args: Args, m: Memory, x: Exchange)
    requires MemoryOk(args, m) && m.recovering
    requires x.dial.DialFailed? ==> FromDialling(x.dial.error)
    ensures var move := Pass(args, m, x);
      move.Stop? && move.result.Failed? ==> GivesUpFor(move.result.error, m.known.value)
  {
    if x.dial.SessionRan? {
      var c := Config(Requested(m.next, x.dial.pick), m.attempt, x.dial.keepalive);
      SessionErrors(c, Opening(x.dial.started), x.dial.turns);
    }
  }

  lemma {:induction false} RecoveryPerseveres(args: Args, m: Memory, world: seq<Exchange>)
    requires MemoryOk(args, m) && m.recovering
    requires forall i :: 0 <= i < |world| && world[i].dial.DialFailed? ==> FromDialling(world[i].dial.error)
    ensures var result := Client(args, m, world).result;
      result.Failed? ==> GivesUpFor(result.error, m.known.value)
    decreases |world|
  {
    if world != [] {
      PassPerseveres(args, m, world[0]);
      var move := Pass(args, m, world[0]);
      if move.Again? {
        PassKeepsTarget(args, m, world[0]);
        RecoveryPerseveres(args, move.memory, world[1..]);
      }
    }
  }

  // ---------------------------------------------------------------- the loop as written

  function FirstMemory(args: Args, initial: Args): Memory {
    Memory(initial, initial.session, args.action == DetachConnect, 0, 1)
  }

  lemma ToldTwice(c1: seq<Call>, p1: seq<Pause>, c2: seq<Call>, p2: seq<Pause>, rest: Story)
    ensures Told(c1, p1, Told(c2, p2, rest)) == Told(c1 + c2, p1 + p2, rest)
  {
  }

  /** The account so far, `calls` and `pauses`, completed by what memory `m` and the remaining
      world lead to, is the account of the whole run. */
  ghost predicate Accounted(
    args: Args, whole: Story, m: Memory, rest: seq<Exchange>, calls: seq<Call>, pauses: seq<Pause>)
  {
    whole == Told(calls, pauses, Client(args, m, rest))
  }

  lemma AccountStops(
    args: Args, whole: Story, m: Memory, rest: seq<Exchange>, calls: seq<Call>, pauses: seq<Pause>,
    result: Result, detaches: seq<Call>)
    requires Accounted(args, whole, m, rest, calls, pauses) && rest != []
    requires Pass(args, m, rest[0]) == Stop(result, detaches)
    ensures whole == Story(result, calls + [DialCall(m)] + detaches, pauses)
  {
    ToldTwice(calls, pauses, [DialCall(m)] + detaches, [], Story(result, [], []));
  }

  lemma AccountGoesOn(
    args: Args, whole: Story, m: Memory, rest: seq<Exchange>, calls: seq<Call>, pauses: seq<Pause>,
    m': Memory, detaches: seq<Call>, pause: Pause)
    requires Accounted(args, whole, m, rest, calls, pauses) && rest != []
    requires Pass(args, m, rest[0]) == Again(m', detaches, pause)
    ensures Accounted(args, whole, m', rest[1..], calls + [DialCall(m)] + detaches, pauses + [pause])
  {
    ToldTwice(calls, pauses, [DialCall(m)] + detaches, [pause], Client(args, m', rest[1..]));
    assert calls + ([DialCall(m)] + detaches) == calls + [DialCall(m)] + detaches;
  }

  /** What one pass leaves in the loop's variables. */
  datatype PassEnd = Returns(result: Result) | Repeats(pause: Pause)

  /** The body of the loop, on its variables. */
  method OnePass(args: Args, m: Memory, x: Exchange)
    returns (end: PassEnd, next: Args, known: Option<string>, recovering: bool, attempts: nat, detaches: seq<Call>)
    ensures Pass(args, m, x) == match end
      case Returns(result) => Stop(result, detaches)
      case Repeats(pause) =>
        Again(Memory(next, known, recovering, attempts, NextAttempt(m.attempt)), detaches, pause)
  {
    next, known, recovering, attempts, detaches := m.next, m.known, m.recovering, m.attempts, [];
    var outcome := RunAttempt(next, m.attempt, x.dial);
    if outcome.Unfinished? {
      return Returns(Running), next, known, recovering, attempts, detaches;
    }
    if outcome.AttemptFailed? {
      if !(recovering && IsRetryable(outcome.error)) {
        return Returns(Failed(outcome.error)), next, known, recovering, attempts, detaches;
      }
      attempts := Counted(attempts);
      return Repeats(Pause(DelayFor(attempts), false)), next, known, recovering, attempts, detaches;
    }
    if outcome.ending.Success? {
      return Returns(Exited(outcome.ending.code)), next, known, recovering, attempts, detaches;
    }
    var failure := outcome.ending;
    var busy := BusySession(failure.error, known, recovering);
    if busy.Some? {
      attempts := Counted(attempts);
      detaches := [Call(DetachFrom(args, busy.value), StaleDetach, 0, recovering, known)];
      if x.staleDetach.Some? && !IsRetryable(x.staleDetach.value) {
        end := Returns(Failed(ReconnectFailed(busy.value, x.staleDetach.value)));
        return;
      }
      next := AttachTo(args, busy.value);
      end := Repeats(Pause(DelayFor(attempts), false));
    } else if IsAmbiguous(failure.error) {
      var established := failure.confirmed.Some?;
      var session := if established then failure.confirmed else known;
      if session.None? {
        end := Returns(Failed(ConnectionLostBeforeSessionKnown(failure.error)));
        return;
      }
      if established {
        attempts := 0;
      }
      recovering := true;
      known := session;
      attempts := Counted(attempts);
      next := AttachTo(args, session.value);
      end := Repeats(Pause(DelayFor(attempts), established));
    } else {
      end := Returns(Failed(failure.error));
    }
  }

  /** `run_client` from its loop on, for as long as `world` lasts; `initial` are the arguments
      after a detach-connect has named its session. */
  method RunClient(args: Args, initial: Args, world: seq<Exchange>)
    returns (result: Result, calls: seq<Call>, pauses: seq<Pause>)
    ensures Story(result, calls, pauses) == Client(args, FirstMemory(args, initial), world)
  {
    var next, known, recovering, attempts, attempt := initial, initial.session, args.action == DetachConnect, 0, 0;
    calls, pauses := [], [];
    ghost var whole := Client(args, FirstMemory(args, initial), world);
    for i := 0 to |world|
      invariant Accounted(
        args, whole, Memory(next, known, recovering, attempts, NextAttempt(attempt)), world[i..], calls, pauses)
    {
      attempt := NextAttempt(attempt);
      var m := Memory(next, known, recovering, attempts, attempt);
      assert world[i..][0] == world[i] && world[i..][1..] == world[i + 1..];
      ghost var calls0 := calls;
      calls := calls + [Call(next, Dialled, attempt, recovering, known)];
      var end, detaches;
      end, next, known, recovering, attempts, detaches := OnePass(args, m, world[i]);
      calls := calls + detaches;
      if end.Returns? {
        AccountStops(args, whole, m, world[i..], calls0, pauses, end.result, detaches);
        return end.result, calls, pauses;
      }
      AccountGoesOn(args, whole, m, world[i..], calls0, pauses,
                    Memory(next, known, recovering, attempts, NextAttempt(attempt)), detaches, end.pause);
      pauses := pauses + [end.pause];
    }
    result := Running;
  }
}
