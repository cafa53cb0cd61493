/** What the daemon owes its peers at single steps, in every run: who is admitted, who is
    removed, who is told (src/daemon.rs:263-286, 340-388, 400-477, 499-516, 680-689). */
module DaemonDuties {
  import opened Basics
  import opened Replay
  import opened Daemon
  import opened DaemonRuns
  import opened DaemonLimits

  // ---------------------------------------------------------------- admission and release

  /** An attach is admitted if and only if nobody is installed. It then is the installed broker,
      with the current ring as its snapshot; otherwise nothing changes but that the handler ends. */
  lemma AttachIsAdmittedIff(steps: seq<Step>, s: System, h: nat)
    requires Run(steps, s) && Enabled(s, Attach(h))
    ensures var s' := Apply(s, Attach(h));
      && h < |s'.links|
      && (s.guarded.broker.None? <==> s'.links[h].phase == Replaying)
      && (s.guarded.broker.None? ==>
            && Installed(s', h) && s'.events == s.events + [Granted(h)]
            && s'.links[h].grant.Some? && s'.links[h].grant.value.snapshot == LastN(s.history, 65_536)
            && s'.links[h].grant.value.at == |s.history|)
      && (s.guarded.broker.Some? ==>
            && s'.guarded == s.guarded && s'.events == s.events
            && s'.links[h].phase == Gone && s'.links[h].grant == s.links[h].grant)
  {
    RunKeepsInv(steps, s);
  }

  /** Whom a handler that leaves removes: whoever is installed, if the admissions since its own
      are a multiple of 2^64 in number, and else nobody. */
  predicate LeaveRemoves(s: System, h: nat)
    requires h < |s.links| && s.links[h].grant.Some?
  {
    s.guarded.broker.Some? && (s.grants - s.links[h].grant.value.index) % 0x1_0000_0000_0000_0000 == 0
  }

  lemma LeaveEffect(s: System, h: nat, now: nat)
    requires Enabled(s, Leave(h, now))
    ensures var s', owns := Apply(s, Leave(h, now)), Owns(s.guarded, s.links[h].grant.value.token);
      && (owns ==>
            && s'.guarded == s.guarded.(broker := None, lastDetach := Some(now))
            && s'.events == s.events + [Released(s.guarded.broker.value.writer)])
      && (!owns ==> s'.guarded == s.guarded && s'.events == s.events)
      && h < |s'.links| && s'.links[h].phase == Gone
  {
  }

  /** The exact effect of a handler's exit, in every run. */
  lemma LeaveRemovesIff(steps: seq<Step>, s: System, h: nat, now: nat)
    requires Run(steps, s) && Enabled(s, Leave(h, now))
    ensures var s' := Apply(s, Leave(h, now));
      && (LeaveRemoves(s, h) ==>
            && s'.guarded == s.guarded.(broker := None, lastDetach := Some(now))
            && s'.events == s.events + [Released(s.guarded.broker.value.writer)])
      && (!LeaveRemoves(s, h) ==> s'.guarded == s.guarded && s'.events == s.events)
      && (s.grants < 0x1_0000_0000_0000_0000 ==> (LeaveRemoves(s, h) <==> Installed(s, h)))
  {
    ExitRemovesWhom(steps, s, h);
    LeaveEffect(s, h, now);
  }

  lemma LeaveFrees(steps: seq<Step>, s: System, h: nat, now: nat, next: nat)
    requires Run(steps, s) && Enabled(s, Leave(h, now)) && Installed(s, h) && s.grants < U64_SIZE
    requires InPhase(s, next, Connecting) && next != h
    ensures var s' := Apply(s, Leave(h, now));
      Enabled(s', Attach(next)) && Installed(Apply(s', Attach(next)), next)
  {
    LeaveRemovesIff(steps, s, h, now);
    ExecSnoc(steps, s, Leave(h, now));
    assert Apply(s, Leave(h, now)).links[next] == s.links[next];
    AttachIsAdmittedIff(steps + [Leave(h, now)], Apply(s, Leave(h, now)), next);
  }

  /** After a clean end of its input, or a refused window size, a handler leaves, and the next
      client to attach is admitted. */
  lemma CleanEndFreesTheSession(steps: seq<Step>, s: System, h: nat, now: nat, next: nat)
    requires Run(steps, s) && Installed(s, h) && s.grants < U64_SIZE
    requires InPhase(s, h, Forwarding) || InPhase(s, h, Replaying)
    requires InPhase(s, next, Connecting) && next != h
    ensures var last := if s.links[h].phase == Forwarding then SessionEnds(h, true) else ResizeFails(h);
      && Enabled(s, last)
      && Enabled(Apply(s, last), Leave(h, now))
      && var left := Apply(Apply(s, last), Leave(h, now));
        Enabled(left, Attach(next)) && Installed(Apply(left, Attach(next)), next)
  {
    var last := if s.links[h].phase == Forwarding then SessionEnds(h, true) else ResizeFails(h);
    LinkInRun(steps, s, h);
    ExecSnoc(steps, s, last);
    LeaveFrees(steps + [last], Apply(s, last), h, now, next);
  }

  // ---------------------------------------------------------------- the shell's exit

  /** When the shell exits, the installed broker, and nobody else, is to be told; telling it
      puts the exit status on its connection. */
  lemma ExitTellsTheBroker(steps: seq<Step>, s: System, h: nat)
    requires Run(steps, s) && Enabled(s, ChildExit)
    ensures var s' := Apply(s, ChildExit);
      && s'.guarded == s.guarded.(shutdown := true)
      && (s'.waiter == Reporting(h) <==> Installed(s, h))
      && (Installed(s, h) ==>
            && Enabled(s', Report(true))
            && Apply(s', Report(true)).links[h].log == s.links[h].log + [ExitStatus])
  {
    RunKeepsInv(steps, s);
  }

  lemma WaiterSince(s: System, step: Step, h: nat)
    requires Enabled(s, step) && Apply(s, step).waiter == Reporting(h)
    ensures s.waiter == Reporting(h) || (step == ChildExit && Installed(s, h))
  {
    match step
    case ChildExit =>
    case WriteReplay(_, _) =>
    case ReadPty(_) =>
    case _ =>
  }

  lemma {:induction false} ReportingSince(steps: seq<Step>, s: System, h: nat) returns (e: nat, t: System)
    requires Run(steps, s) && s.waiter == Reporting(h)
    ensures e < |steps| && steps[e] == ChildExit && Run(steps[..e], t) && Installed(t, h)
    decreases |steps|
  {
    var init, last := steps[..|steps| - 1], steps[|steps| - 1];
    var before := Exec(init).value;
    WaiterSince(before, last, h);
    if before.waiter == Reporting(h) {
      e, t := ReportingSince(init, before, h);
      assert steps[..e] == init[..e];
    } else {
      e, t := |init|, before;
      assert steps[..e] == init;
    }
  }

  /** An exit status on a connection was sent because that connection was the installed broker
      when the shell exited. */
  lemma ExitStatusWasDue(steps: seq<Step>, s: System, h: nat) returns (e: nat, t: System)
    requires Run(steps, s) && h < |s.links| && ExitStatus in s.links[h].log
    ensures e < |steps| && steps[e] == ChildExit && Run(steps[..e], t) && Installed(t, h)
  {
    var r, u := ReportedAt(steps, s, h);
    e, t := ReportingSince(steps[..r], u, h);
    assert steps[..r][..e] == steps[..e];
  }

  // ---------------------------------------------------------------- farewells

  function Goodbyes(log: seq<Wire>): nat {
    if log == [] then 0
    else Goodbyes(log[..|log| - 1]) + if log[|log| - 1] == ClientShouldExit then 1 else 0
  }

  lemma GoodbyesSnoc(log: seq<Wire>, frame: Wire)
    ensures Goodbyes(log + [frame]) == Goodbyes(log) + if frame == ClientShouldExit then 1 else 0
  {
    assert (log + [frame])[..|log|] == log;
  }

  /** How often a schedule asks for the detach of `h` while it is installed, and how often a
      farewell to it cannot be written. */
  function Asked(steps: seq<Step>, h: nat): nat
    decreases |steps|
  {
    if steps == [] then 0
    else
      var init, last := steps[..|steps| - 1], steps[|steps| - 1];
      var before := Exec(init);
      Asked(init, h) + if last.ControlDetach? && before.Some? && Installed(before.value, h) then 1 else 0
  }

  function Unwritten(steps: seq<Step>, h: nat): nat
    decreases |steps|
  {
    if steps == [] then 0
    else Unwritten(steps[..|steps| - 1], h) + if steps[|steps| - 1] == Farewell(h, false) then 1 else 0
  }

  function GoodbyesTo(s: System, h: nat): nat {
    if h < |s.links| then Goodbyes(s.links[h].log) else 0
  }

  lemma LoggedGoodbyes(s: System, at: nat, frame: Wire, h: nat)
    requires at < |s.links|
    ensures GoodbyesTo(Logged(s, at, frame), h)
         == GoodbyesTo(s, h) + if at == h && frame == ClientShouldExit then 1 else 0
  {
    if at == h {
      GoodbyesSnoc(s.links[at].log, frame);
      assert Logged(s, at, frame).links[h].log == s.links[at].log + [frame];
    } else if h < |s.links| {
      assert Logged(s, at, frame).links[h] == s.links[h];
    }
  }

  lemma PhaseGoodbyes(s: System, at: nat, phase: Phase, h: nat)
    requires at < |s.links|
    ensures GoodbyesTo(SetPhase(s, at, phase), h) == GoodbyesTo(s, h)
  {
  }

  lemma WriteReplayGoodbyes(s: System, at: nat, ok: bool, h: nat)
    requires Enabled(s, WriteReplay(at, ok))
    ensures GoodbyesTo(ApplyWriteReplay(s, at, ok), h) == GoodbyesTo(s, h)
  {
    var frame := Data(Replayed, s.links[at].grant.value.snapshot);
    LoggedGoodbyes(s, at, frame, h);
    PhaseGoodbyes(Logged(s, at, frame), at, Forwarding, h);
    PhaseGoodbyes(s, at, Forwarding, h);
    PhaseGoodbyes(s, at, Gone, h);
  }

  lemma StepGoodbyes(s: System, step: Step, h: nat)
    requires Enabled(s, step)
    ensures GoodbyesTo(Apply(s, step), h) == GoodbyesTo(s, h) + if step == Farewell(h, true) then 1 else 0
  {
    match step
    case Connect =>
    case Attach(at) => PhaseGoodbyes(s, at, Gone, h);
    case ResizeFails(at) => PhaseGoodbyes(s, at, ResizeFailed, h);
    case WriteReplay(at, ok) => WriteReplayGoodbyes(s, at, ok, h);
    case SessionEnds(at, clean) => PhaseGoodbyes(s, at, if clean then Leaving else Gone, h);
    case Leave(at, _) => PhaseGoodbyes(s, at, Gone, h);
    case ReadPty(_) =>
    case Deliver(ok) => LoggedGoodbyes(s, s.reader.writer, Data(Live, s.reader.chunk), h);
    case Evict(_) =>
    case PtyEnds =>
    case ChildExit =>
    case Report(_) => LoggedGoodbyes(s, s.waiter.writer, ExitStatus, h);
    case ControlDetach(_) =>
    case Farewell(at, _) => LoggedGoodbyes(s, at, ClientShouldExit, h);
  }

  lemma StepFarewells(s: System, step: Step, h: nat)
    requires Enabled(s, step)
    ensures Apply(s, step).farewells[h] + (if step == Farewell(h, true) || step == Farewell(h, false) then 1 else 0)
         == s.farewells[h] + if step.ControlDetach? && Installed(s, h) then 1 else 0
  {
    match step
    case ControlDetach(_) =>
    case Farewell(_, _) =>
    case WriteReplay(_, _) =>
    case ReadPty(_) =>
    case _ =>
  }

  /** Farewells are conserved: in every run, the CLIENT_SHOULD_EXIT frames on a connection, those
      still owed to it and those that could not be written are together as many as the detach
      requests that found it installed. */
  lemma {:induction false} FarewellsAreConserved(steps: seq<Step>, s: System, h: nat)
    requires Run(steps, s)
    ensures GoodbyesTo(s, h) + s.farewells[h] + Unwritten(steps, h) == Asked(steps, h)
    decreases |steps|
  {
    if steps != [] {
      var init, last := steps[..|steps| - 1], steps[|steps| - 1];
      var before := Exec(init).value;
      FarewellsAreConserved(init, before, h);
      StepGoodbyes(before, last, h);
      StepFarewells(before, last, h);
    }
  }

  /** A detach request removes whoever is installed, whatever token it carries. */
  lemma DetachRequestRemoves(steps: seq<Step>, s: System, now: nat)
    requires Run(steps, s)
    ensures var s' := Apply(s, ControlDetach(now));
      && s'.guarded == s.guarded.(broker := None, lastDetach := Some(now))
      && (s.guarded.broker.Some? ==> s'.events == s.events + [Released(s.guarded.broker.value.writer)])
      && (s.guarded.broker.None? ==> s'.events == s.events)
  {
  }

  // ---------------------------------------------------------------- the detach time

  /** The time of a schedule's last removal or detach request. */
  function DetachTime(steps: seq<Step>): Option<nat>
    decreases |steps|
  {
    if steps == [] then None
    else
      var init, last := steps[..|steps| - 1], steps[|steps| - 1];
      match last
      case Evict(now) => Some(now)
      case ControlDetach(now) => Some(now)
      case Leave(h, now) =>
        var s := Exec(init);
        if s.Some? && h < |s.value.links| && s.value.links[h].grant.Some? && LeaveRemoves(s.value, h)
        then Some(now) else DetachTime(init)
      case _ => DetachTime(init)
  }

  lemma DetachTimeStays(s: System, step: Step)
    requires Enabled(s, step) && !step.Evict? && !step.ControlDetach? && !step.Leave?
    ensures Apply(s, step).guarded.lastDetach == s.guarded.lastDetach
  {
    match step
    case Attach(_) =>
    case WriteReplay(_, _) =>
    case ReadPty(_) =>
    case _ =>
  }

  /** The recorded detach time is that of the last removal or detach request. */
  lemma {:induction false} DetachTimeIsRecorded(steps: seq<Step>, s: System)
    requires Run(steps, s)
    ensures s.guarded.lastDetach == DetachTime(steps)
    decreases |steps|
  {
    if steps != [] {
      var init, last := steps[..|steps| - 1], steps[|steps| - 1];
      var before := Exec(init).value;
      DetachTimeIsRecorded(init, before);
      if last.Leave? {
        LeaveRemovesIff(init, before, last.h, last.now);
      } else if !last.Evict? && !last.ControlDetach? {
        DetachTimeStays(before, last);
      }
    }
  }
}
