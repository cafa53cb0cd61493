/** Who may touch the terminal: the stdin reader thread, the pause/resume handshake, and the
    reconnect loop around them (src/client.rs:85-180, 310-325, 800-958).

    Each critical section on the shared flags is one step, and so is each blocking call of the
    reader. A thread waiting on the condition variable may be woken at any time; `woken` says
    that a notification is pending for it. */
module ClientTerminal {
  import opened Basics

  const MAX_BATCH: nat := 64 * 1024

  datatype Reader =
    | NotStarted
    | Top                       // about to test for a pause request
    | Parked(woken: bool)       // waiting inside the pause handshake
    | Polling
    | Reading
    | Coalescing(batched: nat)  // collecting more pending input; bytes so far
    | Sending(last: bool)       // handing an event over; `last` when the thread then ends
    | Exiting
    | Finished

  /** The main thread. `detach` remembers that a stale client is to be detached next. */
  datatype Main =
    | LoopHead                  // about to start ssh for an attempt
    | Dialing                   // ssh runs, no session yet: it may be prompting the user
    | Resuming                  // raw mode is back, request not yet withdrawn
    | ResumeWait(woken: bool)
    | InSession
    | Pausing(detach: bool)
    | PauseWait(woken: bool, detach: bool)
    | Releasing(detach: bool)   // pause has its answer, raw mode not yet released
    | Detaching                 // ssh runs to detach a stale client
    | Sleeping
    | Exited

  /** The three flags under the mutex, and what `AttachedIo` holds. `interrupts` bounds the
      number of EINTR results still to come; any finite run has some such bound. */
  datatype State = State(
    main: Main,
    reader: Reader,
    requested: bool,
    acknowledged: bool,
    finished: bool,
    present: bool,        // AttachedIo exists
    inputPaused: bool,
    raw: bool,            // the raw-mode guard is held
    tty: bool,            // stdin is a terminal
    interrupts: nat)

  datatype PollResult = NotReady | Ready | PollFailed | PollInterrupted
  datatype ReadResult = Data(n: nat) | AtEof | ReadFailed | ReadInterrupted

  datatype Step =
    | StartSsh
    | DialFails(retry: bool)
    | EnsureIo(terminalOk: bool)
    | ResumeLock
    | ResumeWake
    | SessionEnds(retry: bool, detach: bool)
    | PauseLock
    | PauseWake
    | Release
    | DetachEnds(retry: bool)
    | SleepEnds
    | CheckPause
    | ParkedWake
    | PollReturns(poll: PollResult)
    | ReadReturns(first: ReadResult)
    | CoalesceReturns(poll: PollResult, more: ReadResult)
    | EventSent
    | ReaderExits

  function Start(interrupts: nat, tty: bool): State {
    State(LoopHead, NotStarted, false, false, false, false, false, false, tty, interrupts)
  }

  /** `notify_all`, seen from either side. */
  function NotifyMain(m: Main): Main {
    match m
    case PauseWait(_, d) => PauseWait(true, d)
    case ResumeWait(_) => ResumeWait(true)
    case _ => m
  }

  function NotifyReader(r: Reader): Reader {
    if r.Parked? then Parked(true) else r
  }

  predicate ReaderStep(step: Step) {
    step.CheckPause? || step.ParkedWake? || step.PollReturns? || step.ReadReturns? || step.CoalesceReturns?
    || step.EventSent? || step.ReaderExits?
  }

  predicate Enabled(s: State, step: Step) {
    match step
    case StartSsh => s.main == LoopHead
    case DialFails(_) => s.main == Dialing
    case EnsureIo(_) => s.main == Dialing
    case ResumeLock => s.main == Resuming
    case ResumeWake => s.main.ResumeWait?
    case SessionEnds(_, _) => s.main == InSession
    case PauseLock => s.main.Pausing?
    case PauseWake => s.main.PauseWait?
    case Release => s.main.Releasing?
    case DetachEnds(_) => s.main == Detaching
    case SleepEnds => s.main == Sleeping
    case CheckPause => s.reader == Top
    case ParkedWake => s.reader.Parked?
    case PollReturns(poll) => s.reader == Polling && (poll == PollInterrupted ==> s.interrupts > 0)
    case ReadReturns(first) => s.reader == Reading && (first.Data? ==> 0 < first.n <= 8192)
    case CoalesceReturns(poll, more) =>
      && s.reader.Coalescing?
      && (more.Data? ==> 0 < more.n <= 8192)
      && (poll == PollInterrupted || (poll == Ready && more == ReadInterrupted) ==> s.interrupts > 0)
    case EventSent => s.reader.Sending?
    case ReaderExits => s.reader == Exiting
  }

  // ---------------------------------------------------------------- main thread

  /** `ensure_attached_io`: create the reader, or resume it. */
  function ApplyEnsureIo(s: State, terminalOk: bool): State {
    if s.present && !s.inputPaused then s.(main := InSession)
    else if !terminalOk then s.(main := Exited)
    else if s.present then s.(raw := s.tty, main := Resuming)
    else s.(present := true, raw := s.tty, reader := Top, main := InSession)
  }

  function AfterResumeTest(s: State): State {
    if s.acknowledged && !s.finished then s.(main := ResumeWait(false))
    else s.(inputPaused := false, main := InSession)
  }

  function AfterPauseTest(s: State, detach: bool): State {
    if !s.acknowledged && !s.finished then s.(main := PauseWait(false, detach))
    else s.(main := Releasing(detach))
  }

  function AfterPause(detach: bool): Main {
    if detach then Detaching else Sleeping
  }

  /** `pause_attached_io`. */
  function ApplyPauseLock(s: State): State
    requires s.main.Pausing?
  {
    if !s.present || s.inputPaused then s.(main := AfterPause(s.main.detach))
    else AfterPauseTest(s.(requested := true, reader := NotifyReader(s.reader)), s.main.detach)
  }

  function ApplyMain(s: State, step: Step): State
    requires Enabled(s, step) && !ReaderStep(step)
  {
    match step
    case StartSsh => s.(main := Dialing)
    case DialFails(retry) => s.(main := if retry then Pausing(false) else Exited)
    case EnsureIo(terminalOk) => ApplyEnsureIo(s, terminalOk)
    case ResumeLock => AfterResumeTest(s.(requested := false, reader := NotifyReader(s.reader)))
    case ResumeWake => AfterResumeTest(s)
    case SessionEnds(retry, detach) => s.(main := if retry then Pausing(detach) else Exited)
    case PauseLock => ApplyPauseLock(s)
    case PauseWake => AfterPauseTest(s, s.main.detach)
    case Release => s.(raw := false, inputPaused := true, main := AfterPause(s.main.detach))
    case DetachEnds(retry) => s.(main := if retry then Sleeping else Exited)
    case SleepEnds => s.(main := LoopHead)
  }

  // ---------------------------------------------------------------- reader thread

  function ApplyCheckPause(s: State): State {
    if !s.requested then s.(reader := Polling)
    else s.(acknowledged := true, main := NotifyMain(s.main), reader := Parked(false))
  }

  function ApplyParkedWake(s: State): State {
    if s.requested then s.(reader := Parked(false))
    else s.(acknowledged := false, main := NotifyMain(s.main), reader := Polling)
  }

  function AfterCoalesce(s: State, batched: nat, poll: PollResult, more: ReadResult): Reader {
    if batched >= MAX_BATCH then Sending(false)
    else match poll
      case NotReady => Sending(false)
      case PollFailed => Sending(true)
      case PollInterrupted => Coalescing(batched)
      case Ready =>
        match more
        case Data(n) => Coalescing(batched + n)
        case AtEof => Sending(false)
        case ReadFailed => Sending(true)
        case ReadInterrupted => Coalescing(batched)
  }

  function Spent(s: State, interrupted: bool): State {
    if interrupted && s.interrupts > 0 then s.(interrupts := s.interrupts - 1) else s
  }

  function ApplyReader(s: State, step: Step): State
    requires Enabled(s, step) && ReaderStep(step)
  {
    match step
    case CheckPause => ApplyCheckPause(s)
    case ParkedWake => ApplyParkedWake(s)
    case PollReturns(poll) =>
      Spent(s.(reader := match poll
                         case NotReady => Top
                         case Ready => Reading
                         case PollFailed => Sending(true)
                         case PollInterrupted => Polling),
            poll == PollInterrupted)
    case ReadReturns(first) =>
      s.(reader := match first
                   case Data(n) => Coalescing(n)
                   case AtEof => Sending(true)
                   case ReadFailed => Sending(true)
                   case ReadInterrupted => Top)
    case CoalesceReturns(poll, more) =>
      Spent(s.(reader := AfterCoalesce(s, s.reader.batched, poll, more)),
            poll == PollInterrupted || (poll == Ready && more == ReadInterrupted))
    case EventSent => s.(reader := if s.reader.last then Exiting else Top)
    case ReaderExits => s.(finished := true, main := NotifyMain(s.main), reader := Finished)
  }

  function Apply(s: State, step: Step): State
    requires Enabled(s, step)
  {
    if ReaderStep(step) then ApplyReader(s, step) else ApplyMain(s, step)
  }

  function Exec(s: State, steps: seq<Step>): Option<State>
    decreases |steps|
  {
    if steps == [] then Some(s)
    else if Enabled(s, steps[0]) then Exec(Apply(s, steps[0]), steps[1..])
    else None
  }

  /** A run of the client: any interleaving of the two threads, any environment results. */
  predicate Run(interrupts: nat, tty: bool, steps: seq<Step>, s: State) {
    Exec(Start(interrupts, tty), steps) == Some(s)
  }

  // ---------------------------------------------------------------- invariant

  /** The reader is where it cannot touch stdin until the request is withdrawn. */
  predicate Quiet(s: State) {
    s.reader.Parked? || s.reader == Finished
  }

  predicate TouchesStdin(s: State) {
    s.reader == Polling || s.reader == Reading || s.reader.Coalescing?
  }

  ghost predicate FlagsOk(s: State) {
    && (s.acknowledged <==> s.reader.Parked?)
    && (s.finished <==> s.reader == Finished)
    && (s.present <==> s.reader != NotStarted)
    && (!s.present ==> !s.requested && !s.inputPaused && !s.raw)
  }

  /** The request flag follows the main thread's position. */
  ghost predicate RequestOk(s: State) {
    match s.main
    case Resuming => s.requested && s.inputPaused
    case ResumeWait(_) => !s.requested && s.inputPaused
    case PauseWait(_, _) => s.requested && !s.inputPaused && s.present
    case Releasing(_) => s.requested && !s.inputPaused && s.present
    case InSession => !s.requested && !s.inputPaused && s.present
    case Pausing(_) => s.requested == s.inputPaused
    case Exited => s.requested == s.inputPaused
    case _ => s.requested == s.inputPaused && (s.present ==> s.inputPaused)
  }

  /** A request that has been answered keeps the reader quiet, and an acknowledgement never
      outlives the pause it belongs to. */
  ghost predicate HandoverOk(s: State) {
    && (s.requested && !s.main.PauseWait? ==> Quiet(s))
    && (!s.requested && !s.main.ResumeWait? ==> !s.acknowledged)
    && (s.inputPaused && !s.main.Resuming? && !s.main.ResumeWait? ==> !s.raw)
    && (s.present && (!s.inputPaused || s.main.Resuming? || s.main.ResumeWait?) ==> s.raw == s.tty)
  }

  /** No lost wakeup: a waiter whose condition has come true has a notification pending. */
  ghost predicate WakeupsOk(s: State) {
    && (s.main.PauseWait? && (s.acknowledged || s.finished) ==> s.main.woken)
    && (s.main.ResumeWait? && (!s.acknowledged || s.finished) ==> s.main.woken)
    && (s.reader.Parked? && !s.requested ==> s.reader.woken)
  }

  ghost predicate Inv(s: State) {
    FlagsOk(s) && RequestOk(s) && HandoverOk(s) && WakeupsOk(s)
  }

  lemma MainKeepsInv(s: State, step: Step)
    requires Inv(s) && Enabled(s, step) && !ReaderStep(step)
    ensures Inv(ApplyMain(s, step))
  {
    match step {
      case EnsureIo(_) =>
      case ResumeLock =>
      case ResumeWake =>
      case PauseLock =>
      case PauseWake =>
      case Release =>
      case _ =>
    }
  }

  lemma ReaderKeepsInv(s: State, step: Step)
    requires Inv(s) && Enabled(s, step) && ReaderStep(step)
    ensures Inv(ApplyReader(s, step))
  {
    match step {
      case CheckPause =>
      case ParkedWake =>
      case ReaderExits =>
      case _ =>
    }
  }

  lemma {:induction false} ExecKeepsInv(s: State, steps: seq<Step>)
    requires Inv(s) && Exec(s, steps).Some?
    ensures Inv(Exec(s, steps).value)
    decreases |steps|
  {
    if steps != [] {
      if ReaderStep(steps[0]) {
        ReaderKeepsInv(s, steps[0]);
      } else {
        MainKeepsInv(s, steps[0]);
      }
      ExecKeepsInv(Apply(s, steps[0]), steps[1..]);
    }
  }

  lemma RunKeepsInv(interrupts: nat, tty: bool, steps: seq<Step>, s: State)
    requires Run(interrupts, tty, steps, s)
    ensures Inv(s)
  {
    ExecKeepsInv(Start(interrupts, tty), steps);
  }

  // ---------------------------------------------------------------- safety over every run

  /** From the return of `pause` until `resume` withdraws the request. */
  predicate PauseInForce(s: State) {
    s.requested && !s.main.PauseWait?
  }

  /** Mutual exclusion. While a pause is in force the reader is parked or finished, and none of
      the steps in which it polls or reads stdin can happen. */
  lemma StdinHandoverIsExclusive(interrupts: nat, tty: bool, steps: seq<Step>, s: State, step: Step)
    requires Run(interrupts, tty, steps, s) && PauseInForce(s)
    ensures Quiet(s) && !TouchesStdin(s)
    ensures step.PollReturns? || step.ReadReturns? || step.CoalesceReturns? ==> !Enabled(s, step)
    ensures Enabled(s, step) && ReaderStep(step) ==> Quiet(Apply(s, step))
  {
    RunKeepsInv(interrupts, tty, steps, s);
  }

  /** No stale answer: whenever `pause` is about to raise a request, the acknowledgement flag is
      down, so only an acknowledgement (or exit) that follows the request can satisfy it. */
  lemma PauseStartsUnacknowledged(interrupts: nat, tty: bool, steps: seq<Step>, s: State)
    requires Run(interrupts, tty, steps, s) && s.main.Pausing? && s.present && !s.inputPaused
    ensures !s.acknowledged && !s.requested
    ensures Apply(s, PauseLock).main
         == (if s.finished then Releasing(s.main.detach) else PauseWait(false, s.main.detach))
  {
    RunKeepsInv(interrupts, tty, steps, s);
  }

  /** The terminal is free whenever ssh starts or runs outside a session: nothing is attached
      yet, or input is paused, raw mode is released and the reader is out of the way. */
  predicate TerminalFree(s: State) {
    !s.present || (s.inputPaused && !s.raw && Quiet(s))
  }

  lemma TerminalIsFreeForSsh(interrupts: nat, tty: bool, steps: seq<Step>, s: State)
    requires Run(interrupts, tty, steps, s)
    requires s.main == LoopHead || s.main == Dialing || s.main == Detaching || s.main == Sleeping
    ensures TerminalFree(s)
  {
    RunKeepsInv(interrupts, tty, steps, s);
  }

  /** And in a session it is the client's: raw mode is held on a terminal, no pause is asked for,
      and the reader is up, not parked. */
  lemma SessionOwnsTheTerminal(interrupts: nat, tty: bool, steps: seq<Step>, s: State)
    requires Run(interrupts, tty, steps, s) && s.main == InSession
    ensures s.raw == tty && s.present && !s.requested && !s.inputPaused
    ensures s.reader != NotStarted && !s.reader.Parked?
  {
    RunKeepsInv(interrupts, tty, steps, s);
    TtyStays(Start(interrupts, tty), steps);
  }

  lemma StepKeepsTty(s: State, step: Step)
    requires Enabled(s, step)
    ensures Apply(s, step).tty == s.tty
  {
    if ReaderStep(step) {
      assert ApplyReader(s, step).tty == s.tty;
    } else {
      assert ApplyMain(s, step).tty == s.tty;
    }
  }

  lemma {:induction false} TtyStays(s: State, steps: seq<Step>)
    requires Exec(s, steps).Some?
    ensures Exec(s, steps).value.tty == s.tty
    decreases |steps|
  {
    if steps != [] {
      StepKeepsTty(s, steps[0]);
      TtyStays(Apply(s, steps[0]), steps[1..]);
    }
  }

  /** The reader's last word is due: after a failure, or at the end of the input. */
  predicate LastWord(s: State, step: Step) {
    match step
    case PollReturns(poll) => poll == PollFailed
    case ReadReturns(first) => first == AtEof || first == ReadFailed
    case CoalesceReturns(poll, more) =>
      && s.reader.Coalescing? && s.reader.batched < 65_536
      && (poll == PollFailed || (poll == Ready && more == ReadFailed))
    case _ => false
  }

  /** A batch is complete: full, or nothing more is pending. */
  predicate BatchIsOver(s: State, step: Step) {
    && step.CoalesceReturns? && s.reader.Coalescing?
    && (s.reader.batched >= 65_536 || step.poll == NotReady || (step.poll == Ready && step.more == AtEof))
  }

  /** When the reader hands something over. */
  lemma ReaderHandsOver(s: State, step: Step)
    requires Enabled(s, step) && ReaderStep(step) && !s.reader.Sending?
    ensures Apply(s, step).reader == Sending(true) <==> LastWord(s, step)
    ensures Apply(s, step).reader == Sending(false) <==> BatchIsOver(s, step)
  {
    assert Apply(s, step) == ApplyReader(s, step);
    match step
    case CheckPause =>
    case ParkedWake =>
    case PollReturns(_) =>
    case ReadReturns(_) =>
    case CoalesceReturns(_, _) =>
    case ReaderExits =>
  }

  predicate OnTheWayOut(m: Main) {
    m.Pausing? || m.PauseWait? || m.Releasing?
  }

  /** A session that ends to be retried is paused, and what comes after the pause is what its end
      called for: a stale client to be detached, or the wait before the next attempt. */
  lemma PauseRemembersWhy(s: State, step: Step)
    requires Enabled(s, step) && !ReaderStep(step)
    ensures s.main == InSession && step.SessionEnds? && step.retry ==> Apply(s, step).main == Pausing(step.detach)
    ensures s.main == Dialing && step == DialFails(true) ==> Apply(s, step).main == Pausing(false)
    ensures OnTheWayOut(s.main) ==> (
      var next := Apply(s, step).main;
      || (OnTheWayOut(next) && next.detach == s.main.detach)
      || next == (if s.main.detach then Detaching else Sleeping))
    ensures s.main == Detaching && step == DetachEnds(true) ==> Apply(s, step).main == Sleeping
    ensures s.main == Sleeping ==> Apply(s, step).main == LoopHead
  {
  }

  // ---------------------------------------------------------------- progress

  predicate PauseAnswered(s: State) {
    s.acknowledged || s.finished
  }

  predicate ResumeAnswered(s: State) {
    !s.acknowledged || s.finished
  }

  /** How many more steps of its own the reader can take before it answers a pause request. */
  function Distance(s: State): nat {
    s.interrupts +
    match s.reader
    case Top => 1
    case Exiting => 1
    case Sending(_) => 2
    case Coalescing(n) => 3 + (if n < MAX_BATCH then MAX_BATCH - n else 0)
    case Reading => 4 + MAX_BATCH
    case Polling => 5 + MAX_BATCH
    case _ => 0
  }

  /** While a pause waits, each reader step answers it or comes strictly closer; each main step
      (a spurious wakeup) changes nothing; and the reader always has a step to take. */
  lemma PauseComesCloser(s: State, step: Step)
    requires Inv(s) && s.main.PauseWait? && !PauseAnswered(s) && Enabled(s, step)
    ensures var s' := Apply(s, step);
      && s'.main.PauseWait?
      && (ReaderStep(step) ==> PauseAnswered(s') || Distance(s') < Distance(s))
      && (!ReaderStep(step) ==> !PauseAnswered(s') && Distance(s') == Distance(s))
  {
  }

  lemma ReaderCanMove(s: State)
    requires Inv(s) && s.main.PauseWait? && !PauseAnswered(s)
    ensures exists step :: ReaderStep(step) && Enabled(s, step)
  {
    var step := match s.reader
      case Top => CheckPause
      case Polling => PollReturns(NotReady)
      case Reading => ReadReturns(AtEof)
      case Coalescing(_) => CoalesceReturns(NotReady, AtEof)
      case Sending(_) => EventSent
      case _ => ReaderExits;
    assert ReaderStep(step) && Enabled(s, step);
  }

  function ReaderSteps(steps: seq<Step>): nat {
    if steps == [] then 0 else (if ReaderStep(steps[0]) then 1 else 0) + ReaderSteps(steps[1..])
  }

  /** `pause` completes. From any reachable waiting state, in every continuation in which the
      reader gets its bounded number of steps, some prefix reaches a state where the request is
      answered; there a notification is pending and waking up finishes the wait. */
  lemma {:induction false} PauseMakesProgress(s: State, steps: seq<Step>) returns (k: nat)
    requires Inv(s) && s.main.PauseWait?
    requires Exec(s, steps).Some? && ReaderSteps(steps) >= Distance(s)
    ensures k <= |steps| && Exec(s, steps[..k]).Some?
    ensures var t := Exec(s, steps[..k]).value;
      t.main.PauseWait? && PauseAnswered(t) && t.main.woken && Apply(t, PauseWake).main.Releasing?
    decreases |steps|
  {
    if PauseAnswered(s) {
      k := 0;
      assert steps[..0] == [];
    } else {
      assert Distance(s) > 0;
      var next := Apply(s, steps[0]);
      PauseComesCloser(s, steps[0]);
      if ReaderStep(steps[0]) {
        ReaderKeepsInv(s, steps[0]);
      } else {
        MainKeepsInv(s, steps[0]);
      }
      if PauseAnswered(next) {
        k := 1;
        assert steps[..1] == [steps[0]] && steps[..1][1..] == [];
      } else {
        var k' := PauseMakesProgress(next, steps[1..]);
        k := k' + 1;
        assert steps[..k][0] == steps[0] && steps[..k][1..] == steps[1..][..k'];
      }
    }
  }

  /** `resume` completes: the parked reader has been notified, and its very next step, whatever
      happens before it, withdraws the acknowledgement that `resume` waits on. */
  lemma {:induction false} ResumeMakesProgress(s: State, steps: seq<Step>) returns (k: nat)
    requires Inv(s) && s.main.ResumeWait?
    requires ResumeAnswered(s) || (Exec(s, steps).Some? && ReaderSteps(steps) >= 1)
    ensures s.reader.Parked? ==> s.reader.woken
    ensures k <= |steps| && Exec(s, steps[..k]).Some?
    ensures var t := Exec(s, steps[..k]).value;
      t.main.ResumeWait? && ResumeAnswered(t) && t.main.woken && Apply(t, ResumeWake).main == InSession
    decreases |steps|
  {
    if ResumeAnswered(s) {
      k := 0;
      assert steps[..0] == [];
    } else if ReaderStep(steps[0]) {
      ReaderKeepsInv(s, steps[0]);
      k := 1;
      assert steps[..1] == [steps[0]] && steps[..1][1..] == [];
    } else {
      MainKeepsInv(s, steps[0]);
      assert Apply(s, steps[0]).main.ResumeWait?;
      var k' := ResumeMakesProgress(Apply(s, steps[0]), steps[1..]);
      k := k' + 1;
      assert steps[..k][0] == steps[0] && steps[..k][1..] == steps[1..][..k'];
    }
  }
}
