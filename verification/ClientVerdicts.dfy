/** When the client's outer loop goes on and when it stops, told from the outcome of each attempt
    (src/client.rs:85-180, 1536-1572), over whole runs. */
module ClientVerdicts {
  import opened Basics
  import W = Wire
  import opened ClientErrors
  import opened Pinger
  import opened AttachedSession
  import opened SessionVerdicts
  import opened ClientRun

  // ---------------------------------------------------------------- error classes, listed

  /** The connection was lost without a word. */
  predicate LostContact(e: ClientError) {
    || e == UnexpectedBrokerEof || e == KeepaliveTimeout || e == Protocol(W.Io) || e == Protocol(W.TruncatedHeader)
    || (e.Protocol? && e.error.TruncatedPayload?)
  }

  /** Worth another try while recovering. */
  predicate Transient(e: ClientError) {
    || LostContact(e) || e == SpawnSsh || e == MissingChildStdin || e == MissingChildStdout || e == WaitSsh
    || e == UnexpectedBootstrapEof || e == ReadBootstrap || e == WriteBootstrap || e == ReconnectDetachFailed
  }

  lemma ErrorClasses(e: ClientError)
    ensures IsAmbiguous(e) <==> LostContact(e)
    ensures IsRetryable(e) <==> Transient(e)
  {
  }

  // ---------------------------------------------------------------- one pass

  function Outcome(m: Memory, x: Exchange): Attempt {
    RunAttempt(m.next, m.attempt, x.dial)
  }

  predicate OwnSessionBusy(m: Memory, r: Attempt) {
    && r.Ended? && r.ending.Failure? && r.ending.error.SessionBusy?
    && m.recovering && m.known == Some(r.ending.error.sessionId)
  }

  /** The id of the session that the attempt lost, if one is known by now. */
  function LostSession(m: Memory, r: Attempt): Option<string> {
    if r.Ended? && r.ending.Failure? && LostContact(r.ending.error) then
      if r.ending.confirmed.Some? then r.ending.confirmed else m.known
    else None
  }

  /** The attempt's outcome is one after which the client tries again. */
  predicate GoesOn(m: Memory, x: Exchange) {
    var r := Outcome(m, x);
    || (r.AttemptFailed? && m.recovering && Transient(r.error))
    || (OwnSessionBusy(m, r) && (x.staleDetach.None? || Transient(x.staleDetach.value)))
    || LostSession(m, r).Some?
  }

  /** What the client ends with after an outcome it does not go on from. */
  predicate StopsWith(m: Memory, x: Exchange, result: Result) {
    match Outcome(m, x)
    case Unfinished => result == Running
    case AttemptFailed(e) => result == Failed(e)
    case Ended(Success(code)) => result == Exited(code)
    case Ended(Failure(_, e)) =>
      if OwnSessionBusy(m, Outcome(m, x)) then
        x.staleDetach.Some? && result == Failed(ReconnectFailed(e.sessionId, x.staleDetach.value))
      else result == if LostContact(e) then Failed(ConnectionLostBeforeSessionKnown(e)) else Failed(e)
  }

  /** An attach to session `id` with the user's own destination and options. */
  predicate Targets(args: Args, call: Args, id: string) {
    && call.action == Attach && call.session == Some(id)
    && call.destination == args.destination && call.sshArgs == args.sshArgs
  }

  lemma PassGoesOnIff(args: Args, m: Memory, x: Exchange)
    ensures Pass(args, m, x).Again? <==> GoesOn(m, x)
    ensures Pass(args, m, x).Stop? ==> StopsWith(m, x, Pass(args, m, x).result)
    ensures Pass(args, m, x).detaches != [] <==> OwnSessionBusy(m, Outcome(m, x))
    ensures |Pass(args, m, x).detaches| <= 1
  {
    var r := Outcome(m, x);
    if r.AttemptFailed? {
      ErrorClasses(r.error);
    } else if r.Ended? && r.ending.Failure? {
      ErrorClasses(r.ending.error);
    }
    if x.staleDetach.Some? {
      ErrorClasses(x.staleDetach.value);
    }
  }

  /** Losing a session whose id is known starts, or keeps up, its recovery. */
  lemma PassRecovers(args: Args, m: Memory, x: Exchange)
    requires LostSession(m, Outcome(m, x)).Some?
    ensures var id := LostSession(m, Outcome(m, x)).value;
      && Pass(args, m, x).Again?
      && Pass(args, m, x).memory.recovering && Pass(args, m, x).memory.known == Some(id)
      && Targets(args, Pass(args, m, x).memory.next, id)
  {
    ErrorClasses(Outcome(m, x).ending.error);
  }

  /** An attempt confirms the session that was named, or else picked, or none; an attempt at a
      new session takes whatever id it is given. */
  lemma AttemptInsists(m: Memory, x: Exchange)
    requires x.dial.SessionRan? && Outcome(m, x).Ended? && Outcome(m, x).ending.Failure?
    ensures m.next.action == Attach ==> (
      var wanted := if m.next.session.Some? then m.next.session else x.dial.pick;
      wanted.Some? ==> Outcome(m, x).ending.confirmed == None || Outcome(m, x).ending.confirmed == wanted)
    ensures m.next.action != Attach ==> !Outcome(m, x).ending.error.SessionMismatch?
  {
    var c := Config(Requested(m.next, x.dial.pick), m.attempt, x.dial.keepalive);
    var failure := Outcome(m, x).ending;
    ConfirmedIsRequested(c, Opening(x.dial.started), x.dial.turns);
    FailureIff(c, Opening(x.dial.started), x.dial.turns, failure.confirmed, failure.error);
  }

  // ---------------------------------------------------------------- whole runs

  /** The attach connections among the calls. */
  function Dials(calls: seq<Call>): seq<Call> {
    if calls == [] then []
    else (if calls[0].kind == Dialled then [calls[0]] else []) + Dials(calls[1..])
  }

  lemma {:induction false} DialsConcat(a: seq<Call>, b: seq<Call>)
    ensures Dials(a + b) == Dials(a) + Dials(b)
  {
    if a == [] {
      assert a + b == b;
    } else {
      DialsConcat(a[1..], b);
      assert (a + b)[1..] == a[1..] + b && (a + b)[0] == a[0];
      ConcatAssociative(if a[0].kind == Dialled then [a[0]] else [], Dials(a[1..]), Dials(b));
    }
  }

  lemma PassDials(args: Args, m: Memory, x: Exchange)
    ensures Dials([DialCall(m)] + Pass(args, m, x).detaches) == [DialCall(m)]
  {
    var detaches := Pass(args, m, x).detaches;
    PassGoesOnIff(args, m, x);
    assert ([DialCall(m)] + detaches)[1..] == detaches;
    assert Dials(detaches) == [] by {
      if detaches != [] {
        assert detaches[1..] == [];
      }
    }
  }

  lemma DialsHead(args: Args, m: Memory, world: seq<Exchange>)
    requires world != []
    ensures var move := Pass(args, m, world[0]);
      Dials(Client(args, m, world).calls)
      == [DialCall(m)] + if move.Again? then Dials(Client(args, move.memory, world[1..]).calls) else []
  {
    var move := Pass(args, m, world[0]);
    PassDials(args, m, world[0]);
    if move.Again? {
      DialsConcat([DialCall(m)] + move.detaches, Client(args, move.memory, world[1..]).calls);
    }
  }

  /** One attach connection for each pass that is reached, with what the client knows then. */
  lemma {:induction false} DialsFollowMemory(args: Args, m: Memory, world: seq<Exchange>, k: nat)
    ensures var dials := Dials(Client(args, m, world).calls);
      && (k < |dials| <==> k < |world| && MemoryAt(args, m, world, k).Some?)
      && (k < |dials| ==> dials[k] == DialCall(MemoryAt(args, m, world, k).value))
    decreases |world|
  {
    if world != [] {
      DialsHead(args, m, world);
      if Pass(args, m, world[0]).Again? && k > 0 {
        DialsFollowMemory(args, Pass(args, m, world[0]).memory, world[1..], k - 1);
      }
    }
  }

  lemma {:induction false} MemoryNext(args: Args, m: Memory, world: seq<Exchange>, i: nat)
    requires i < |world| && MemoryAt(args, m, world, i).Some?
    ensures var move := Pass(args, MemoryAt(args, m, world, i).value, world[i]);
      MemoryAt(args, m, world, i + 1) == if move.Again? then Some(move.memory) else None
    decreases i
  {
    if i > 0 {
      MemoryNext(args, Pass(args, m, world[0]).memory, world[1..], i - 1);
    } else if Pass(args, m, world[0]).Again? {
      assert MemoryAt(args, Pass(args, m, world[0]).memory, world[1..], 0) == Some(Pass(args, m, world[0]).memory);
    }
  }

  /** Every loss is recovered from: whenever a pass of a run loses a session whose id is known,
      confirmed by it just now or before, the very next call of the run is an attach to that id
      at the user's own destination. */
  lemma EveryLossIsRecovered(args: Args, m: Memory, world: seq<Exchange>, i: nat)
    requires i + 1 < |world| && MemoryAt(args, m, world, i).Some?
    requires LostSession(MemoryAt(args, m, world, i).value, Outcome(MemoryAt(args, m, world, i).value, world[i])).Some?
    ensures var mi := MemoryAt(args, m, world, i).value;
      var id, dials := LostSession(mi, Outcome(mi, world[i])).value, Dials(Client(args, m, world).calls);
      && i + 1 < |dials| && dials[i + 1].recovering && dials[i + 1].known == Some(id)
      && Targets(args, dials[i + 1].args, id)
  {
    PassRecovers(args, MemoryAt(args, m, world, i).value, world[i]);
    MemoryNext(args, m, world, i);
    DialsFollowMemory(args, m, world, i + 1);
  }

  lemma StopsAtOnce(args: Args, m: Memory, world: seq<Exchange>)
    requires world != [] && !GoesOn(m, world[0])
    ensures StopsWith(m, world[0], Client(args, m, world).result)
    ensures |Dials(Client(args, m, world).calls)| == 1
  {
    PassGoesOnIff(args, m, world[0]);
    DialsHead(args, m, world);
  }

  lemma StopsLater(args: Args, m: Memory, world: seq<Exchange>)
    requires world != [] && Pass(args, m, world[0]).Again?
    ensures var rest := Client(args, Pass(args, m, world[0]).memory, world[1..]);
      && Client(args, m, world).result == rest.result
      && |Dials(Client(args, m, world).calls)| == 1 + |Dials(rest.calls)|
  {
    DialsHead(args, m, world);
  }

  /** A run ends at the first pass whose outcome it does not go on from, and with what that
      outcome says. */
  lemma {:induction false} RunStopsThere(args: Args, m: Memory, world: seq<Exchange>, i: nat)
    requires i < |world| && MemoryAt(args, m, world, i).Some? && !GoesOn(MemoryAt(args, m, world, i).value, world[i])
    ensures StopsWith(MemoryAt(args, m, world, i).value, world[i], Client(args, m, world).result)
    ensures |Dials(Client(args, m, world).calls)| == i + 1
    decreases i
  {
    if i == 0 {
      StopsAtOnce(args, m, world);
    } else {
      var move, more := Pass(args, m, world[0]), world[1..];
      assert MemoryAt(args, m, world, i) == MemoryAt(args, move.memory, more, i - 1) && more[i - 1] == world[i];
      RunStopsThere(args, move.memory, more, i - 1);
      StopsLater(args, m, world);
    }
  }

  ghost predicate Reached(args: Args, m: Memory, world: seq<Exchange>, i: nat) {
    i < |world| && MemoryAt(args, m, world, i).Some?
  }

  /** And it does not end otherwise. */
  lemma {:induction false} RunGoesOn(args: Args, m: Memory, world: seq<Exchange>)
    requires forall i: nat :: Reached(args, m, world, i) ==> GoesOn(MemoryAt(args, m, world, i).value, world[i])
    ensures Client(args, m, world).result == Running && |Dials(Client(args, m, world).calls)| == |world|
    decreases |world|
  {
    if world != [] {
      assert Reached(args, m, world, 0);
      PassGoesOnIff(args, m, world[0]);
      DialsHead(args, m, world);
      var move := Pass(args, m, world[0]);
      forall i: nat | Reached(args, move.memory, world[1..], i)
        ensures GoesOn(MemoryAt(args, move.memory, world[1..], i).value, world[1..][i])
      {
        assert Reached(args, m, world, i + 1);
      }
      RunGoesOn(args, move.memory, world[1..]);
    }
  }

  /** Attempts are numbered one by one, up to the largest 64-bit number. */
  lemma {:induction false} AttemptsAreNumbered(args: Args, m: Memory, world: seq<Exchange>, i: nat)
    requires MemoryAt(args, m, world, i).Some? && m.attempt <= U64_MAX
    ensures MemoryAt(args, m, world, i).value.attempt == Min(m.attempt + i, 0xFFFF_FFFF_FFFF_FFFF)
    decreases i
  {
    if i > 0 {
      AttemptsAreNumbered(args, Pass(args, m, world[0]).memory, world[1..], i - 1);
    }
  }

  // ---------------------------------------------------------------- the exit code

  /** How session and ssh together are reported. */
  predicate ReportedAs(code: nat, ssh: SshStatus, n: nat) {
    || (ssh == SshExited(0) && n == code)
    || (ssh.SshExited? && 1 <= ssh.code <= 255 && n == ssh.code)
    || (ssh.SshExited? && !(0 <= ssh.code <= 255) && n == 1)
    || (ssh.SshSignalled? && n == 1)
  }

  /** The session of an attempt, as it was asked for. */
  function SessionOf(m: Memory, dial: Dial): Verdict
    requires dial.SessionRan?
  {
    Session(Config(Requested(m.next, dial.pick), m.attempt, dial.keepalive), Opening(dial.started), dial.turns)
  }

  ghost predicate ExitsAt(args: Args, m: Memory, world: seq<Exchange>, i: nat, n: nat)
    requires i < |world|
  {
    && MemoryAt(args, m, world, i).Some? && world[i].dial.SessionRan?
    && var v := SessionOf(MemoryAt(args, m, world, i).value, world[i].dial);
      v.Done? && v.ending.Success? && ReportedAs(v.ending.code, world[i].dial.ssh, n)
  }

  lemma OutcomeExits(m: Memory, x: Exchange, n: nat)
    ensures Outcome(m, x) == Ended(Success(n))
       <==> (x.dial.SessionRan?
             && var v := SessionOf(m, x.dial);
               v.Done? && v.ending.Success? && ReportedAs(v.ending.code, x.dial.ssh, n))
  {
  }

  lemma {:induction false} StoppingPass(args: Args, m: Memory, world: seq<Exchange>) returns (i: nat)
    requires Client(args, m, world).result != Running
    ensures i < |world| && MemoryAt(args, m, world, i).Some? && !GoesOn(MemoryAt(args, m, world, i).value, world[i])
    decreases |world|
  {
    var move := Pass(args, m, world[0]);
    if move.Stop? {
      PassGoesOnIff(args, m, world[0]);
      i := 0;
    } else {
      var k := StoppingPass(args, move.memory, world[1..]);
      i := k + 1;
      assert MemoryAt(args, m, world, i) == MemoryAt(args, move.memory, world[1..], k);
      assert world[i] == world[1..][k];
    }
  }

  /** The client exits with `n` if and only if some pass of its run had a session that ended
      well, and `n` is what that session's exit code and ssh's own status are reported as. */
  lemma ClientExitIff(args: Args, m: Memory, world: seq<Exchange>, n: nat)
    ensures Client(args, m, world).result == Exited(n)
       <==> exists i :: 0 <= i < |world| && ExitsAt(args, m, world, i, n)
  {
    if Client(args, m, world).result == Exited(n) {
      var i := StoppingPass(args, m, world);
      RunStopsThere(args, m, world, i);
      OutcomeExits(MemoryAt(args, m, world, i).value, world[i], n);
      assert ExitsAt(args, m, world, i, n);
    }
    forall i | 0 <= i < |world| && ExitsAt(args, m, world, i, n) ensures Client(args, m, world).result == Exited(n) {
      OutcomeExits(MemoryAt(args, m, world, i).value, world[i], n);
      RunStopsThere(args, m, world, i);
    }
  }

  /** With keepalive negotiated no attempt outlives a broker that has stopped answering. */
  lemma DeadBrokerEndsAttempt(m: Memory, x: Exchange, j: nat, i: nat)
    requires x.dial.SessionRan? && x.dial.keepalive && j < i < |x.dial.turns|
    requires forall c: Config :: c.attempt == m.attempt ==> NoPong(c, x.dial.turns)
    requires InOrder(x.dial.turns)
    requires x.dial.started + 15_000 <= x.dial.turns[j].now && x.dial.turns[j].now + 45_000 <= x.dial.turns[i].now
    ensures Outcome(m, x) != Unfinished
  {
    var c := Config(Requested(m.next, x.dial.pick), m.attempt, true);
    assert NoPong(c, x.dial.turns);
    DeadBrokerIsNoticed(c, Opening(x.dial.started), x.dial.turns, j, i);
  }
}
