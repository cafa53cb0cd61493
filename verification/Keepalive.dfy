/** Keepalive over time: the client's ping loop, the network, and the broker's monitor
    (src/client.rs:564-586, 1082-1117, 1223-1235; src/server.rs:164-176, 418-442, 489-534). The
    client moves with the same `Pinger` functions as the session loop; times are milliseconds. */
module Keepalive {
  import opened Basics
  import opened Pinger

  const BROKER_KEEPALIVE_TIMEOUT: nat := 45_000

  /** What is known about delays. `turnaround` bounds sending a ping to its pong being queued at
      the client; a frame takes between `forwardMin` and `forwardMax` to be handled by the broker,
      a ping's wait for the broker to finish attaching included; the client enters its loop,
      starts the next pass, and handles a queued event within `slack`; the monitor thread is
      scheduled within `latency` of having something to do. */
  datatype Delays = Delays(turnaround: nat, slack: nat, forwardMin: nat, forwardMax: nat, latency: nat)

  datatype Stage = Outbound | Inbound | Queued(at: nat)
  datatype Flight = Flight(nonce: nat, sent: nat, stage: Stage)

  datatype Client =
    | Entering                  // has written its attach request, not yet in the loop
    | Looping
    | TimedOut                  // has declared the broker dead
    | Dead                      // killed, suspended or cut off for good

  datatype Monitor =
    | NotStarted                // the broker is still attaching
    | Listening(since: nat)     // in `recv_timeout` since then
    | Fired                     // has shut the daemon link

  datatype Clocked = Clocked(
    now: nat,
    requested: nat,        // when the attach request was written
    client: Client,
    keep: Keep,
    lastPass: nat,         // when the client last started a loop pass
    flying: seq<Flight>,   // pings not yet answered, wherever they are
    monitor: Monitor,
    inbox: seq<nat>,       // arrival times of pings in the monitor's channel
    heard: nat)            // for the observer: when the last ping arrived, or the monitor started

  datatype Step =
    | Tick(d: nat)
    | EnterLoop
    | LoopPass
    | PingArrives(i: nat)
    | PongQueued(i: nat)
    | PongTaken(i: nat)
    | MonitorStarts
    | MonitorTakes
    | MonitorFires
    | ClientDies
    | Lost(i: nat)         // a ping, or its pong, never gets through

  predicate Alive(s: Clocked) {
    s.client == Entering || s.client == Looping
  }

  /** The latest moment by which something must have happened to a flight. A pong queued at a
      client that is gone waits for ever. */
  predicate InTime(f: Flight, b: Delays, alive: bool, time: nat) {
    match f.stage
    case Outbound => time <= f.sent + b.forwardMax
    case Inbound => time <= f.sent + b.turnaround
    case Queued(at) => alive ==> time <= at + b.slack
  }

  /** The monitor is scheduled in time: for a ping in its channel, or for its timeout. */
  predicate Scheduled(s: Clocked, b: Delays, time: nat) {
    s.monitor.Listening? ==>
      time <= b.latency + (if s.inbox != [] then s.inbox[0] else s.monitor.since + BROKER_KEEPALIVE_TIMEOUT)
  }

  /** Time may pass only as far as the delays allow. */
  predicate MayTick(s: Clocked, b: Delays, d: nat) {
    && (Alive(s) ==> s.now + d <= s.lastPass + b.slack)
    && (forall i :: 0 <= i < |s.flying| ==> InTime(s.flying[i], b, Alive(s), s.now + d))
    && Scheduled(s, b, s.now + d)
  }

  predicate Enabled(s: Clocked, b: Delays, step: Step) {
    match step
    case Tick(d) => MayTick(s, b, d)
    case EnterLoop => s.client == Entering
    case LoopPass => s.client == Looping
    case PingArrives(i) =>
      && i < |s.flying| && s.flying[i].stage == Outbound && s.flying[i].sent + b.forwardMin <= s.now
      && s.monitor != NotStarted
    case PongQueued(i) => i < |s.flying| && s.flying[i].stage == Inbound
    case PongTaken(i) => i < |s.flying| && s.flying[i].stage.Queued? && s.client == Looping
    case MonitorStarts => s.monitor == NotStarted && s.requested + b.forwardMin <= s.now
    case MonitorTakes => s.monitor.Listening? && s.inbox != []
    case MonitorFires =>
      s.monitor.Listening? && s.inbox == [] && s.monitor.since + BROKER_KEEPALIVE_TIMEOUT <= s.now
    case ClientDies => Alive(s)
    case Lost(i) => i < |s.flying|
  }

  function ApplyLoopPass(s: Clocked): Clocked {
    if Expired(s.keep, s.now) then s.(client := TimedOut, lastPass := s.now)
    else if Due(s.keep, true, s.now) then
      var keep := Pinged(s.keep, s.now);
      s.(keep := keep, lastPass := s.now, flying := s.flying + [Flight(keep.nonce, s.now, Outbound)])
    else s.(lastPass := s.now)
  }

  function Without(flying: seq<Flight>, i: nat): seq<Flight>
    requires i < |flying|
  {
    flying[..i] + flying[i + 1..]
  }

  function Staged(s: Clocked, i: nat, stage: Stage): Clocked
    requires i < |s.flying|
  {
    s.(flying := s.flying[i := s.flying[i].(stage := stage)])
  }

  function Apply(s: Clocked, b: Delays, step: Step): Clocked
    requires Enabled(s, b, step)
  {
    match step
    case Tick(d) => s.(now := s.now + d)
    case EnterLoop => s.(client := Looping, keep := Start(s.now), lastPass := s.now)
    case LoopPass => ApplyLoopPass(s)
    case PingArrives(i) =>
      Staged(s, i, Inbound).(heard := s.now, inbox := if s.monitor.Listening? then s.inbox + [s.now] else s.inbox)
    case PongQueued(i) => Staged(s, i, Queued(s.now))
    case PongTaken(i) => s.(keep := Ponged(s.keep, s.flying[i].nonce, s.now), flying := Without(s.flying, i))
    case MonitorStarts => s.(monitor := Listening(s.now), heard := s.now)
    case MonitorTakes => s.(monitor := Listening(s.now), inbox := s.inbox[1..])
    case MonitorFires => s.(monitor := Fired)
    case ClientDies => s.(client := Dead)
    case Lost(i) => s.(flying := Without(s.flying, i))
  }

  function Exec(s: Clocked, b: Delays, steps: seq<Step>): Option<Clocked>
    decreases |steps|
  {
    if steps == [] then Some(s)
    else if Enabled(s, b, steps[0]) then Exec(Apply(s, b, steps[0]), b, steps[1..])
    else None
  }

  /** The client writes its attach request, reads no reply and goes on to its loop; the monitor
      starts when the broker has received the request and finished attaching. */
  function Opening(requested: nat): Clocked {
    Clocked(requested, requested, Entering, Start(requested), requested, [], NotStarted, [], requested)
  }

  predicate Run(b: Delays, requested: nat, steps: seq<Step>, s: Clocked) {
    Exec(Opening(requested), b, steps) == Some(s)
  }

  /** Both peers and the network stay up. */
  predicate Healthy(steps: seq<Step>) {
    forall i :: 0 <= i < |steps| ==> !steps[i].ClientDies? && !steps[i].Lost?
  }

  predicate Coherent(b: Delays) {
    b.forwardMin <= b.forwardMax <= b.turnaround && 0 < b.slack
  }

  /** Turnaround, slack at both ends and the spread of the forward delay together at most 30 s.
      Turnaround plus slack is then under 45 s as well. */
  predicate Comfortable(b: Delays) {
    && Coherent(b)
    && b.turnaround + 2 * b.slack + (b.forwardMax - b.forwardMin) <= 30_000
  }

  // ---------------------------------------------------------------- healthy sessions stay up

  /** A ping sent by `time` would still be heard inside the monitor's window. */
  ghost predicate Covered(s: Clocked, b: Delays, time: nat) {
    s.monitor.Listening? ==> time + b.forwardMax <= s.heard + BROKER_KEEPALIVE_TIMEOUT
  }

  /** Nothing outstanding: the next ping is scheduled, and will be heard in time. */
  ghost predicate Resting(s: Clocked, b: Delays) {
    && s.flying == [] && s.keep.pending.None?
    && s.lastPass < s.keep.next <= s.now + KEEPALIVE_INTERVAL
    && Covered(s, b, s.keep.next + b.slack)
  }

  /** One ping outstanding, the one the client waits for, on its way and on time. */
  ghost predicate Waiting(s: Clocked, b: Delays) {
    && |s.flying| == 1
    && var f := s.flying[0];
      && s.keep.pending == Some(Ping(f.nonce, f.sent + KEEPALIVE_TIMEOUT))
      && s.requested <= f.sent <= s.now
      && match f.stage
         case Outbound => s.now <= f.sent + b.forwardMax && Covered(s, b, f.sent + 1)
         case Inbound =>
           s.now <= f.sent + b.turnaround && s.monitor.Listening? && f.sent + b.forwardMin <= s.heard
         case Queued(at) =>
           && at <= f.sent + b.turnaround && s.now <= at + b.slack
           && s.monitor.Listening? && f.sent + b.forwardMin <= s.heard
  }

  /** Still on the way into the loop. */
  ghost predicate Starting(s: Clocked, b: Delays) {
    && s.flying == [] && s.lastPass == s.requested
    && (s.monitor.Listening? ==> s.requested + b.forwardMin <= s.heard)
  }

  ghost predicate OnTime(s: Clocked, b: Delays) {
    && s.monitor != Fired
    && s.requested <= s.lastPass <= s.now <= s.lastPass + b.slack
    && (s.monitor.Listening? ==> s.heard <= s.now && (s.inbox == [] ==> s.heard <= s.monitor.since))
    && (if s.client == Entering then Starting(s, b) else s.client == Looping && (Resting(s, b) || Waiting(s, b)))
  }

  lemma PassKeepsTime(s: Clocked, b: Delays)
    requires Comfortable(b) && OnTime(s, b) && s.client == Looping
    ensures OnTime(ApplyLoopPass(s), b)
  {
  }

  lemma FlightKeepsTime(s: Clocked, b: Delays, step: Step)
    requires Comfortable(b) && OnTime(s, b) && Enabled(s, b, step)
    requires step.PingArrives? || step.PongQueued? || step.PongTaken?
    ensures OnTime(Apply(s, b, step), b)
  {
    assert Waiting(s, b);
    var s' := Apply(s, b, step);
    match step
    case PingArrives(_) => assert Waiting(s', b);
    case PongQueued(_) => assert Waiting(s', b);
    case PongTaken(_) =>
      assert s'.flying == [];
      assert Resting(s', b);
  }

  lemma TickKeepsTime(s: Clocked, b: Delays, d: nat)
    requires Comfortable(b) && OnTime(s, b) && MayTick(s, b, d)
    ensures OnTime(s.(now := s.now + d), b)
  {
    if s.client == Looping && Waiting(s, b) {
      assert InTime(s.flying[0], b, true, s.now + d);
    }
  }

  lemma EnterKeepsTime(s: Clocked, b: Delays)
    requires Comfortable(b) && OnTime(s, b) && s.client == Entering
    ensures OnTime(Apply(s, b, EnterLoop), b)
  {
    assert Resting(Apply(s, b, EnterLoop), b);
  }

  lemma MonitorKeepsTime(s: Clocked, b: Delays, step: Step)
    requires Comfortable(b) && OnTime(s, b) && Enabled(s, b, step)
    requires step.MonitorStarts? || step.MonitorTakes?
    ensures OnTime(Apply(s, b, step), b)
  {
  }

  /** The monitor's window is never used up. */
  lemma MonitorHasTime(s: Clocked, b: Delays)
    requires Comfortable(b) && OnTime(s, b) && s.monitor.Listening?
    ensures s.now < s.heard + BROKER_KEEPALIVE_TIMEOUT
  {
  }

  lemma StepKeepsTime(s: Clocked, b: Delays, step: Step)
    requires Comfortable(b) && OnTime(s, b) && Enabled(s, b, step) && !step.ClientDies? && !step.Lost?
    ensures OnTime(Apply(s, b, step), b)
  {
    if s.monitor.Listening? {
      MonitorHasTime(s, b);
    }
    match step
    case Tick(d) => TickKeepsTime(s, b, d);
    case EnterLoop => EnterKeepsTime(s, b);
    case LoopPass => PassKeepsTime(s, b);
    case MonitorStarts => MonitorKeepsTime(s, b, step);
    case MonitorTakes => MonitorKeepsTime(s, b, step);
    case MonitorFires =>
    case _ => FlightKeepsTime(s, b, step);
  }

  lemma {:induction false} ExecKeepsTime(s: Clocked, b: Delays, steps: seq<Step>)
    requires Comfortable(b) && OnTime(s, b) && Healthy(steps) && Exec(s, b, steps).Some?
    ensures OnTime(Exec(s, b, steps).value, b)
    decreases |steps|
  {
    if steps != [] {
      assert !steps[0].ClientDies? && !steps[0].Lost?;
      StepKeepsTime(s, b, steps[0]);
      ExecKeepsTime(Apply(s, b, steps[0]), b, steps[1..]);
    }
  }

  /** Keepalive soundness: with comfortable delays and nothing broken, in every timed run of a
      session from the attach request on, at most one ping is outstanding, the client never
      declares the broker dead, and the monitor never cuts the daemon link. */
  lemma KeepaliveNeverMisfires(b: Delays, requested: nat, steps: seq<Step>, s: Clocked)
    requires Comfortable(b) && Healthy(steps) && Run(b, requested, steps, s)
    ensures |s.flying| <= 1 && Alive(s) && s.monitor != Fired
  {
    ExecKeepsTime(Opening(requested), b, steps);
  }

  // ---------------------------------------------------------------- and beyond the delays

  /** A healthy run from `s` to `t`. */
  ghost predicate Leads(s: Clocked, b: Delays, steps: seq<Step>, t: Clocked) {
    Healthy(steps) && Exec(s, b, steps) == Some(t)
  }

  lemma {:induction false} ExecConcat(s: Clocked, b: Delays, first: seq<Step>, second: seq<Step>)
    requires Exec(s, b, first).Some?
    ensures Exec(s, b, first + second) == Exec(Exec(s, b, first).value, b, second)
    decreases |first|
  {
    if first == [] {
      assert first + second == second;
    } else {
      assert (first + second)[1..] == first[1..] + second;
      ExecConcat(Apply(s, b, first[0]), b, first[1..], second);
    }
  }

  lemma ExecOne(s: Clocked, b: Delays, step: Step)
    requires Enabled(s, b, step)
    ensures Exec(s, b, [step]) == Some(Apply(s, b, step))
  {
    assert [step][1..] == [];
    assert Exec(Apply(s, b, step), b, []) == Some(Apply(s, b, step));
  }

  lemma LeadsOn(s: Clocked, b: Delays, first: seq<Step>, t: Clocked, second: seq<Step>, u: Clocked)
    requires Leads(s, b, first, t) && Leads(t, b, second, u)
    ensures Leads(s, b, first + second, u)
  {
    ExecConcat(s, b, first, second);
  }

  lemma LeadsOneOn(s: Clocked, b: Delays, steps: seq<Step>, t: Clocked, step: Step)
    requires Leads(s, b, steps, t) && Enabled(t, b, step) && !step.ClientDies? && !step.Lost?
    ensures Leads(s, b, steps + [step], Apply(t, b, step))
  {
    ExecOne(t, b, step);
    LeadsOn(s, b, steps, t, [step], Apply(t, b, step));
  }

  /** Nothing stops the clock for the next `d`, and the client's passes have nothing to do. */
  ghost predicate Uneventful(s: Clocked, b: Delays, d: nat) {
    && s.client == Looping && Scheduled(s, b, s.now + d)
    && (forall i :: 0 <= i < |s.flying| ==> InTime(s.flying[i], b, true, s.now + d))
    && (if s.keep.pending.Some? then s.now + d < s.keep.pending.value.deadline else s.now + d < s.keep.next)
  }

  lemma {:induction false} Advance(s: Clocked, b: Delays, d: nat) returns (steps: seq<Step>)
    requires 0 < b.slack && Uneventful(s, b, d)
    ensures Leads(s, b, steps, s.(now := s.now + d, lastPass := s.now + d))
    decreases d
  {
    var s1 := s.(lastPass := s.now);
    assert Apply(s, b, LoopPass) == s1;
    ExecOne(s, b, LoopPass);
    steps := [LoopPass];
    if d > 0 {
      var s2 := s1.(now := s.now + 1);
      assert Apply(s1, b, Tick(1)) == s2;
      LeadsOneOn(s, b, steps, s1, Tick(1));
      var rest := Advance(s2, b, d - 1);
      LeadsOn(s, b, steps + [Tick(1)], s2, rest, s.(now := s.now + d, lastPass := s.now + d));
      steps := steps + [Tick(1)] + rest;
    }
  }

  lemma AdvanceOn(s0: Clocked, b: Delays, before: seq<Step>, s: Clocked, d: nat) returns (steps: seq<Step>)
    requires 0 < b.slack && Leads(s0, b, before, s) && Uneventful(s, b, d)
    ensures Leads(s0, b, steps, s.(now := s.now + d, lastPass := s.now + d))
  {
    var more := Advance(s, b, d);
    LeadsOn(s0, b, before, s, more, s.(now := s.now + d, lastPass := s.now + d));
    steps := before + more;
  }

  /** Just after a pass, with nothing outstanding. */
  ghost predicate Idle(s: Clocked) {
    s.client == Looping && s.flying == [] && s.keep.pending.None? && s.lastPass == s.now
  }

  /** The client after its next ping, sent by the latest pass possible. */
  function LatePinged(s: Clocked, b: Delays): Clocked {
    var at := s.keep.next + b.slack - 1;
    if at < 0 then s
    else
      var keep := Pinged(s.keep, at);
      s.(now := at, lastPass := at, keep := keep, flying := [Flight(keep.nonce, at, Outbound)])
  }

  lemma LatePing(s: Clocked, b: Delays) returns (steps: seq<Step>)
    requires 0 < b.slack && Idle(s) && s.now < s.keep.next && Scheduled(s, b, s.keep.next + b.slack - 1)
    ensures Leads(s, b, steps, LatePinged(s, b))
  {
    var s1 := s.(now := s.keep.next - 1, lastPass := s.keep.next - 1);
    steps := Advance(s, b, s.keep.next - 1 - s.now);
    LeadsOneOn(s, b, steps, s1, Tick(b.slack));
    var s2 := s1.(now := s1.now + b.slack);
    assert Apply(s1, b, Tick(b.slack)) == s2;
    LeadsOneOn(s, b, steps + [Tick(b.slack)], s2, LoopPass);
    assert ApplyLoopPass(s2) == LatePinged(s, b);
    steps := steps + [Tick(b.slack)] + [LoopPass];
  }

  /** From an idle client: if the slowest ping would miss the monitor's window, the window can
      run out on a live session. */
  lemma WindowRunsOut(s: Clocked, b: Delays) returns (steps: seq<Step>, t: Clocked)
    requires Coherent(b) && Idle(s) && s.keep.next == s.now + KEEPALIVE_INTERVAL
    requires s.monitor.Listening? && s.inbox == [] && s.monitor.since <= s.now
    requires s.monitor.since + BROKER_KEEPALIVE_TIMEOUT <= s.keep.next + b.slack - 1 + b.forwardMax
    ensures Leads(s, b, steps, t) && t.monitor == Fired && Alive(t)
  {
    var fire := s.monitor.since + BROKER_KEEPALIVE_TIMEOUT;
    var u := s;
    if fire <= s.now {
      steps := [];
      assert Leads(s, b, steps, s);
    } else if fire < s.keep.next {
      steps := Advance(s, b, fire - s.now);
      u := s.(now := fire, lastPass := fire);
    } else if fire < s.keep.next + b.slack {
      var idle := s.keep.next - 1 - s.now;
      steps := Advance(s, b, idle);
      var s1 := s.(now := s.now + idle, lastPass := s.now + idle);
      LeadsOneOn(s, b, steps, s1, Tick(fire - s1.now));
      steps := steps + [Tick(fire - s1.now)];
      u := s1.(now := fire);
    } else {
      var sent := LatePing(s, b);
      var s1 := LatePinged(s, b);
      steps := AdvanceOn(s, b, sent, s1, fire - s1.now);
      u := s1.(now := fire, lastPass := fire);
    }
    LeadsOneOn(s, b, steps, u, MonitorFires);
    t := u.(monitor := Fired);
    steps := steps + [MonitorFires];
  }

  /** The first ping of a session whose loop starts at once. */
  function FirstPing(b: Delays): Clocked {
    LatePinged(Opening(0).(client := Looping), b)
  }

  lemma ReachFirstPing(b: Delays) returns (steps: seq<Step>)
    requires 0 < b.slack
    ensures Leads(Opening(0), b, steps, FirstPing(b))
  {
    var s := Opening(0).(client := Looping);
    ExecOne(Opening(0), b, EnterLoop);
    var sent := LatePing(s, b);
    LeadsOn(Opening(0), b, [EnterLoop], s, sent, FirstPing(b));
    steps := [EnterLoop] + sent;
  }

  /** The first ping, after the fastest way to the broker, which has just finished attaching. */
  function FirstHeard(b: Delays): Clocked {
    var s := FirstPing(b);
    var at := s.now + b.forwardMin;
    s.(now := at, lastPass := at, flying := [Flight(s.keep.nonce, s.now, Inbound)],
       monitor := Listening(at), heard := at)
  }

  lemma ReachFirstHeard(b: Delays) returns (steps: seq<Step>)
    requires Coherent(b) && b.forwardMin < KEEPALIVE_TIMEOUT
    ensures Leads(Opening(0), b, steps, FirstHeard(b))
  {
    var s := FirstPing(b);
    steps := ReachFirstPing(b);
    var o := Opening(0);
    steps := AdvanceOn(o, b, steps, s, b.forwardMin);
    var at := s.now + b.forwardMin;
    var s1 := s.(now := at, lastPass := at);
    LeadsOneOn(o, b, steps, s1, MonitorStarts);
    var s2 := s1.(monitor := Listening(at), heard := at);
    LeadsOneOn(o, b, steps + [MonitorStarts], s2, PingArrives(0));
    var s3 := Apply(s2, b, PingArrives(0));
    LeadsOneOn(o, b, steps + [MonitorStarts] + [PingArrives(0)], s3, MonitorTakes);
    assert s3.inbox == [at] && s3.inbox[1..] == [];
    assert Apply(s3, b, MonitorTakes) == FirstHeard(b);
    steps := steps + [MonitorStarts] + [PingArrives(0)] + [MonitorTakes];
  }

  /** A client whose ping is about to expire when it makes its next pass. */
  lemma ExpiresNext(s: Clocked, b: Delays) returns (steps: seq<Step>, t: Clocked)
    requires s.client == Looping && s.keep.pending.Some? && s.lastPass == s.now < s.keep.pending.value.deadline
    requires MayTick(s, b, s.keep.pending.value.deadline - s.now)
    ensures Leads(s, b, steps, t) && t.client == TimedOut
  {
    var deadline := s.keep.pending.value.deadline;
    var s1 := s.(now := deadline);
    ExecOne(s, b, Tick(deadline - s.now));
    LeadsOneOn(s, b, [Tick(deadline - s.now)], s1, LoopPass);
    steps, t := [Tick(deadline - s.now)] + [LoopPass], ApplyLoopPass(s1);
  }

  /** The first exchange with its ping on the way or heard: up to `wait` after it was sent. */
  lemma FirstExchangeWaits(b: Delays, wait: nat) returns (steps: seq<Step>, s: Clocked)
    requires Coherent(b) && wait < KEEPALIVE_TIMEOUT && wait <= b.turnaround
    requires b.forwardMin <= wait || KEEPALIVE_TIMEOUT <= b.forwardMin
    ensures Leads(Opening(0), b, steps, s)
    ensures s.client == Looping && s.now == s.lastPass == FirstPing(b).now + wait && |s.flying| == 1
    ensures s.keep == FirstPing(b).keep
    ensures b.forwardMin <= wait ==> (
      && s.flying[0] == Flight(s.keep.nonce, FirstPing(b).now, Inbound)
      && s.monitor == Listening(FirstPing(b).now + b.forwardMin) && s.inbox == [])
    ensures b.forwardMin > wait ==> (
      s.flying[0] == Flight(s.keep.nonce, FirstPing(b).now, Outbound) && s.monitor == NotStarted)
  {
    var sent := FirstPing(b).now;
    if b.forwardMin > wait {
      steps := ReachFirstPing(b);
      s := FirstPing(b);
    } else {
      steps := ReachFirstHeard(b);
      s := FirstHeard(b);
    }
    steps := AdvanceOn(Opening(0), b, steps, s, sent + wait - s.now);
    s := s.(now := sent + wait, lastPass := sent + wait);
  }

  /** An answer that comes, or is handled, too late: the client gives up on a live broker. */
  lemma LateAnswerTimesOut(b: Delays) returns (steps: seq<Step>, t: Clocked)
    requires Coherent(b) && b.turnaround + b.slack >= KEEPALIVE_TIMEOUT
    ensures Leads(Opening(0), b, steps, t) && t.client == TimedOut
  {
    var s: Clocked;
    steps, s := FirstExchangeWaits(b, Min(b.turnaround, KEEPALIVE_TIMEOUT - 1));
    if b.turnaround < KEEPALIVE_TIMEOUT {
      LeadsOneOn(Opening(0), b, steps, s, PongQueued(0));
      steps, s := steps + [PongQueued(0)], Apply(s, b, PongQueued(0));
    }
    var last, u := ExpiresNext(s, b);
    LeadsOn(Opening(0), b, steps, s, last, u);
    steps, t := steps + last, u;
  }

  /** A pong on its way home, queued now and handled as late as possible. */
  lemma SlowAnswer(s: Clocked, b: Delays) returns (steps: seq<Step>, t: Clocked)
    requires s.client == Looping && s.lastPass == s.now && |s.flying| == 1 && s.flying[0].stage == Inbound
    requires Answers(s.keep, s.flying[0].nonce) && Scheduled(s, b, s.now + b.slack)
    ensures Leads(s, b, steps, t)
    ensures Idle(t) && t.now == s.now + b.slack && t.keep.next == t.now + KEEPALIVE_INTERVAL
    ensures t.monitor == s.monitor && t.inbox == s.inbox
  {
    ExecOne(s, b, PongQueued(0));
    steps, t := [PongQueued(0)], Apply(s, b, PongQueued(0));
    LeadsOneOn(s, b, steps, t, Tick(b.slack));
    steps, t := steps + [Tick(b.slack)], t.(now := t.now + b.slack);
    LeadsOneOn(s, b, steps, t, PongTaken(0));
    steps, t := steps + [PongTaken(0)], Apply(t, b, PongTaken(0));
    LeadsOneOn(s, b, steps, t, LoopPass);
    steps, t := steps + [LoopPass], ApplyLoopPass(t);
  }

  /** One complete exchange, as slow as it gets: idle again at `sent + turnaround + slack`. */
  lemma SlowExchange(b: Delays) returns (steps: seq<Step>, t: Clocked)
    requires Coherent(b) && b.turnaround + b.slack < KEEPALIVE_TIMEOUT
    ensures Leads(Opening(0), b, steps, t)
    ensures Idle(t) && t.now == FirstPing(b).now + b.turnaround + b.slack && t.keep.next == t.now + KEEPALIVE_INTERVAL
    ensures t.monitor == Listening(FirstPing(b).now + b.forwardMin) && t.inbox == []
  {
    var s: Clocked;
    steps, s := FirstExchangeWaits(b, b.turnaround);
    var last, u := SlowAnswer(s, b);
    LeadsOn(Opening(0), b, steps, s, last, u);
    steps, t := steps + last, u;
  }

  /** Beyond comfortable delays a session in which nothing is broken can be given up: by the
      client when an answer can take 45 s, and otherwise by the monitor, when the slowest
      exchange is followed by the slowest ping. */
  lemma SlowButAliveIsCut(b: Delays) returns (steps: seq<Step>, t: Clocked)
    requires Coherent(b) && !Comfortable(b)
    ensures Healthy(steps) && Run(b, 0, steps, t)
    ensures t.client == TimedOut || t.monitor == Fired
    ensures b.turnaround + b.slack < KEEPALIVE_TIMEOUT ==> t.monitor == Fired && Alive(t)
  {
    if b.turnaround + b.slack >= KEEPALIVE_TIMEOUT {
      steps, t := LateAnswerTimesOut(b);
    } else {
      var first, s := SlowExchange(b);
      var second, u := WindowRunsOut(s, b);
      LeadsOn(Opening(0), b, first, s, second, u);
      steps, t := first + second, u;
    }
  }

  ghost predicate NeverMisfires(b: Delays) {
    forall requested, steps, s :: Healthy(steps) && Run(b, requested, steps, s) ==> Alive(s) && s.monitor != Fired
  }

  /** The exact boundary, to the millisecond. */
  lemma NeverMisfiresIff(b: Delays)
    requires Coherent(b)
    ensures NeverMisfires(b) <==> Comfortable(b)
  {
    if Comfortable(b) {
      forall requested, steps, s | Healthy(steps) && Run(b, requested, steps, s)
        ensures Alive(s) && s.monitor != Fired
      {
        KeepaliveNeverMisfires(b, requested, steps, s);
      }
    } else {
      var steps, t := SlowButAliveIsCut(b);
    }
  }

  // ---------------------------------------------------------------- when a peer goes silent

  ghost predicate FlightsKept(flying: seq<Flight>, b: Delays, alive: bool, now: nat) {
    forall i :: 0 <= i < |flying| ==> flying[i].sent <= now && InTime(flying[i], b, alive, now)
  }

  ghost predicate ClientKept(s: Clocked, b: Delays) {
    && (Alive(s) ==> s.now <= s.lastPass + b.slack)
    && (s.client == Looping && s.keep.pending.Some? ==> s.lastPass < s.keep.pending.value.deadline)
  }

  ghost predicate Ascending(times: seq<nat>) {
    forall i, j :: 0 <= i < j < |times| ==> times[i] <= times[j]
  }

  /** The channel holds the latest arrivals in order; once it is empty the monitor has waited
      since at most `latency` after the last of them. */
  ghost predicate MonitorKept(s: Clocked, b: Delays) {
    && s.heard <= s.now
    && (s.monitor == NotStarted ==> s.inbox == [])
    && (s.monitor.Listening? ==>
          && Scheduled(s, b, s.now) && Ascending(s.inbox)
          && if s.inbox == [] then s.monitor.since <= s.heard + b.latency else s.inbox[|s.inbox| - 1] == s.heard)
  }

  /** Bookkeeping of every run, healthy or not. */
  ghost predicate Kept(s: Clocked, b: Delays) {
    FlightsKept(s.flying, b, Alive(s), s.now) && ClientKept(s, b) && MonitorKept(s, b)
  }

  lemma StepKeepsFlights(s: Clocked, b: Delays, step: Step)
    requires Coherent(b) && FlightsKept(s.flying, b, Alive(s), s.now) && Enabled(s, b, step)
    ensures FlightsKept(Apply(s, b, step).flying, b, Alive(Apply(s, b, step)), Apply(s, b, step).now)
  {
    match step
    case Tick(_) =>
    case LoopPass =>
    case PingArrives(_) =>
    case PongQueued(_) =>
    case PongTaken(_) =>
    case Lost(_) =>
    case _ =>
  }

  lemma StepKeepsMonitor(s: Clocked, b: Delays, step: Step)
    requires MonitorKept(s, b) && Enabled(s, b, step)
    ensures MonitorKept(Apply(s, b, step), b)
  {
    match step
    case Tick(_) =>
    case PingArrives(_) =>
    case MonitorStarts =>
    case MonitorTakes =>
    case _ =>
  }

  lemma {:induction false} ExecKeeps(s: Clocked, b: Delays, steps: seq<Step>)
    requires Coherent(b) && Kept(s, b) && Exec(s, b, steps).Some?
    ensures Kept(Exec(s, b, steps).value, b)
    decreases |steps|
  {
    if steps != [] {
      StepKeepsFlights(s, b, steps[0]);
      StepKeepsMonitor(s, b, steps[0]);
      ExecKeeps(Apply(s, b, steps[0]), b, steps[1..]);
    }
  }

  lemma RunKeeps(b: Delays, requested: nat, steps: seq<Step>, s: Clocked)
    requires Coherent(b) && Run(b, requested, steps, s)
    ensures Kept(s, b)
  {
    ExecKeeps(Opening(requested), b, steps);
  }

  predicate NoPingArrives(steps: seq<Step>) {
    forall i :: 0 <= i < |steps| ==> !steps[i].PingArrives?
  }

  /** Whatever is lost and whoever dies: a monitor that still listens heard its last ping at most
      45 s and two scheduling latencies ago. */
  lemma ListeningMeansHeard(b: Delays, requested: nat, steps: seq<Step>, s: Clocked)
    requires Coherent(b) && Run(b, requested, steps, s) && s.monitor.Listening?
    ensures s.now <= s.heard + 45_000 + 2 * b.latency
  {
    RunKeeps(b, requested, steps, s);
  }

  lemma {:induction false} SilenceKeepsHeard(s: Clocked, b: Delays, steps: seq<Step>)
    requires s.monitor != NotStarted && NoPingArrives(steps) && Exec(s, b, steps).Some?
    ensures Exec(s, b, steps).value.heard == s.heard && Exec(s, b, steps).value.monitor != NotStarted
    decreases |steps|
  {
    if steps != [] {
      assert !steps[0].PingArrives?;
      SilenceKeepsHeard(Apply(s, b, steps[0]), b, steps[1..]);
    }
  }

  /** Silence shuts the link: take any moment of any run with the monitor started. In every
      continuation in which no more pings get through, the link is shut by the time 45 s and
      two latencies have passed since the last one. */
  lemma SilenceShutsTheLink(b: Delays, requested: nat, before: seq<Step>, s: Clocked, after: seq<Step>, t: Clocked)
    requires Coherent(b) && Run(b, requested, before, s) && s.monitor != NotStarted
    requires NoPingArrives(after) && Exec(s, b, after) == Some(t)
    requires t.now > s.heard + 45_000 + 2 * b.latency
    ensures t.monitor == Fired
  {
    RunKeeps(b, requested, before, s);
    ExecKeeps(s, b, after);
    SilenceKeepsHeard(s, b, after);
  }

  /** After the client is gone: the pings still under way were all sent before `gone`. */
  ghost predicate Residue(s: Clocked, b: Delays, gone: nat) {
    && !Alive(s) && s.heard <= gone + b.forwardMax
    && forall i :: 0 <= i < |s.flying| ==> s.flying[i].sent <= gone
  }

  lemma StepKeepsResidue(s: Clocked, b: Delays, step: Step, gone: nat)
    requires FlightsKept(s.flying, b, false, s.now) && Residue(s, b, gone) && Enabled(s, b, step)
    requires s.monitor != NotStarted
    ensures Residue(Apply(s, b, step), b, gone) && Apply(s, b, step).monitor != NotStarted
  {
    match step
    case PingArrives(_) =>
    case PongQueued(_) =>
    case Lost(_) =>
    case _ =>
  }

  lemma {:induction false} GoneStaysGone(s: Clocked, b: Delays, steps: seq<Step>, gone: nat)
    requires Coherent(b) && Kept(s, b) && Residue(s, b, gone) && s.monitor != NotStarted && Exec(s, b, steps).Some?
    ensures Residue(Exec(s, b, steps).value, b, gone) && Exec(s, b, steps).value.monitor != NotStarted
    decreases |steps|
  {
    if steps != [] {
      StepKeepsFlights(s, b, steps[0]);
      StepKeepsMonitor(s, b, steps[0]);
      StepKeepsResidue(s, b, steps[0], gone);
      GoneStaysGone(Apply(s, b, steps[0]), b, steps[1..], gone);
    }
  }

  /** A client that is gone, dead or having given up, frees its session: in every continuation
      the link is shut once the forward delay, 45 s and two latencies have passed. */
  lemma GoneClientIsCutOff(b: Delays, requested: nat, before: seq<Step>, s: Clocked, after: seq<Step>, t: Clocked)
    requires Coherent(b) && Run(b, requested, before, s) && !Alive(s) && s.monitor != NotStarted
    requires Exec(s, b, after) == Some(t)
    requires t.now > s.now + b.forwardMax + 45_000 + 2 * b.latency
    ensures t.monitor == Fired
  {
    RunKeeps(b, requested, before, s);
    GoneStaysGone(s, b, after, s.now);
    ExecKeeps(s, b, after);
  }

  /** And a client whose ping or pong is lost gives up within 45 s and one slack of sending it. */
  lemma WaitingIsBounded(b: Delays, requested: nat, steps: seq<Step>, s: Clocked)
    requires Coherent(b) && Run(b, requested, steps, s) && s.client == Looping && s.keep.pending.Some?
    ensures s.now < s.keep.pending.value.deadline + b.slack
  {
    RunKeeps(b, requested, steps, s);
  }

  // ---------------------------------------------------------------- and such silences happen

  lemma {:induction false} LoseAll(s: Clocked, b: Delays) returns (steps: seq<Step>)
    ensures NoPingArrives(steps) && Exec(s, b, steps) == Some(s.(flying := []))
    decreases |s.flying|
  {
    if s.flying == [] {
      steps := [];
    } else {
      var s1 := Apply(s, b, Lost(0));
      var rest := LoseAll(s1, b);
      ExecOne(s, b, Lost(0));
      ExecConcat(s, b, [Lost(0)], rest);
      steps := [Lost(0)] + rest;
    }
  }

  lemma {:induction false} TakeAll(s: Clocked, b: Delays) returns (steps: seq<Step>, since: nat)
    requires s.monitor.Listening?
    ensures NoPingArrives(steps) && Healthy(steps)
    ensures Exec(s, b, steps) == Some(s.(inbox := [], monitor := Listening(since)))
    ensures since == if s.inbox == [] then s.monitor.since else s.now
    decreases |s.inbox|
  {
    if s.inbox == [] {
      steps, since := [], s.monitor.since;
    } else {
      var s1 := Apply(s, b, MonitorTakes);
      var rest;
      rest, since := TakeAll(s1, b);
      ExecOne(s, b, MonitorTakes);
      ExecConcat(s, b, [MonitorTakes], rest);
      steps := [MonitorTakes] + rest;
    }
  }

  lemma StepOn(s: Clocked, b: Delays, steps: seq<Step>, t: Clocked, step: Step)
    requires NoPingArrives(steps) && Exec(s, b, steps) == Some(t) && Enabled(t, b, step) && !step.PingArrives?
    ensures NoPingArrives(steps + [step]) && Exec(s, b, steps + [step]) == Some(Apply(t, b, step))
  {
    ExecOne(t, b, step);
    ExecConcat(s, b, steps, [step]);
  }

  /** From any state with the monitor listening and the client already gone. */
  lemma SilentUntil(s: Clocked, b: Delays, time: nat) returns (steps: seq<Step>, t: Clocked)
    requires Kept(s, b) && s.monitor.Listening? && !Alive(s) && s.flying == []
    ensures NoPingArrives(steps) && Exec(s, b, steps) == Some(t) && t.now >= time
    ensures t.monitor == Fired && !Alive(t)
  {
    var since: nat;
    steps, since := TakeAll(s, b);
    t := s.(inbox := [], monitor := Listening(since));
    var fire := since + BROKER_KEEPALIVE_TIMEOUT;
    if s.now < fire {
      StepOn(s, b, steps, t, Tick(fire - s.now));
      steps, t := steps + [Tick(fire - s.now)], t.(now := fire);
    }
    StepOn(s, b, steps, t, MonitorFires);
    steps, t := steps + [MonitorFires], t.(monitor := Fired);
    if t.now < time {
      StepOn(s, b, steps, t, Tick(time - t.now));
      steps, t := steps + [Tick(time - t.now)], t.(now := time);
    }
  }

  /** The silences that `SilenceShutsTheLink` speaks of exist: from every moment of every run
      the client can die and its pings be lost, and the clock goes on past any time. */
  lemma SilenceCanLast(b: Delays, requested: nat, before: seq<Step>, s: Clocked, time: nat)
    returns (after: seq<Step>, t: Clocked)
    requires Coherent(b) && Run(b, requested, before, s) && s.monitor.Listening?
    ensures NoPingArrives(after) && Exec(s, b, after) == Some(t) && t.now >= time
    ensures t.monitor == Fired && !Alive(t)
  {
    RunKeeps(b, requested, before, s);
    var lose := LoseAll(s, b);
    var s1 := s.(flying := []);
    after, t := lose, s1;
    if Alive(s1) {
      StepOn(s, b, lose, s1, ClientDies);
      after, t := lose + [ClientDies], s1.(client := Dead);
    }
    var rest, u := SilentUntil(t, b, time);
    ExecConcat(s, b, after, rest);
    after, t := after + rest, u;
  }

  // ---------------------------------------------------------------- healthy runs last, too

  lemma OneOn(s: Clocked, b: Delays, steps: seq<Step>, t: Clocked, step: Step) returns (more: seq<Step>, u: Clocked)
    requires Comfortable(b) && Leads(s, b, steps, t) && OnTime(t, b)
    requires Enabled(t, b, step) && !step.ClientDies? && !step.Lost?
    ensures Leads(s, b, more, u) && OnTime(u, b) && u == Apply(t, b, step)
  {
    LeadsOneOn(s, b, steps, t, step);
    StepKeepsTime(t, b, step);
    more, u := steps + [step], Apply(t, b, step);
  }

  /** The client does what it has to do now. */
  lemma ClientSettles(s: Clocked, b: Delays) returns (steps: seq<Step>, t: Clocked)
    requires Comfortable(b) && OnTime(s, b)
    ensures Leads(s, b, steps, t) && OnTime(t, b)
    ensures t.now == s.now == t.lastPass && t.client == Looping
  {
    steps, t := [], s;
    if t.client == Entering {
      steps, t := OneOn(s, b, steps, t, EnterLoop);
    }
    steps, t := OneOn(s, b, steps, t, LoopPass);
  }

  /** A ping that cannot wait any longer is heard. */
  lemma PingSettles(s: Clocked, b: Delays) returns (steps: seq<Step>, t: Clocked)
    requires Comfortable(b) && OnTime(s, b) && s.client == Looping && s.lastPass == s.now
    ensures Leads(s, b, steps, t) && OnTime(t, b)
    ensures t.now == s.now == t.lastPass && t.client == Looping
    ensures t.flying != [] && t.flying[0].stage == Outbound ==> t.now < t.flying[0].sent + b.forwardMax
  {
    steps, t := [], s;
    if t.flying != [] && t.flying[0].stage == Outbound && t.now == t.flying[0].sent + b.forwardMax {
      if t.monitor == NotStarted {
        steps, t := OneOn(s, b, steps, t, MonitorStarts);
      }
      steps, t := OneOn(s, b, steps, t, PingArrives(0));
    }
  }

  /** A pong that cannot wait any longer is queued, and a queued one is taken. */
  lemma PongSettles(s: Clocked, b: Delays) returns (steps: seq<Step>, t: Clocked)
    requires Comfortable(b) && OnTime(s, b) && s.client == Looping && s.lastPass == s.now
    requires s.flying != [] && s.flying[0].stage == Outbound ==> s.now < s.flying[0].sent + b.forwardMax
    ensures Leads(s, b, steps, t) && OnTime(t, b)
    ensures t.now == s.now == t.lastPass && t.client == Looping
    ensures forall i :: 0 <= i < |t.flying| ==> InTime(t.flying[i], b, true, t.now + 1)
  {
    steps, t := [], s;
    if t.flying != [] && t.flying[0].stage == Inbound && t.now == t.flying[0].sent + b.turnaround {
      steps, t := OneOn(s, b, steps, t, PongQueued(0));
    }
    if t.flying != [] && t.flying[0].stage.Queued? {
      steps, t := OneOn(s, b, steps, t, PongTaken(0));
    }
  }

  lemma MonitorSettles(s: Clocked, b: Delays) returns (steps: seq<Step>, t: Clocked)
    requires Comfortable(b) && OnTime(s, b)
    ensures Leads(s, b, steps, t) && OnTime(t, b) && t == s.(inbox := t.inbox, monitor := t.monitor)
    ensures Scheduled(t, b, t.now + 1)
  {
    steps, t := [], s;
    if s.monitor.Listening? {
      var since: nat;
      steps, since := TakeAll(s, b);
      t := s.(inbox := [], monitor := Listening(since));
      MonitorHasTime(t, b);
    }
  }

  lemma OneMillisecond(s: Clocked, b: Delays) returns (steps: seq<Step>, t: Clocked)
    requires Comfortable(b) && OnTime(s, b)
    ensures Leads(s, b, steps, t) && OnTime(t, b) && t.now == s.now + 1
  {
    var s1, s2, s3, s4: Clocked;
    var a, c, d, e: seq<Step>;
    a, s1 := ClientSettles(s, b);
    c, s2 := PingSettles(s1, b);
    d, s3 := PongSettles(s2, b);
    e, s4 := MonitorSettles(s3, b);
    LeadsOn(s, b, a, s1, c, s2);
    LeadsOn(s, b, a + c, s2, d, s3);
    LeadsOn(s, b, a + c + d, s3, e, s4);
    steps, t := OneOn(s, b, a + c + d + e, s4, Tick(1));
  }

  lemma {:induction false} TimePasses(s: Clocked, b: Delays, d: nat) returns (steps: seq<Step>, t: Clocked)
    requires Comfortable(b) && OnTime(s, b)
    ensures Leads(s, b, steps, t) && t.now == s.now + d
    decreases d
  {
    if d == 0 {
      steps, t := [], s;
    } else {
      var first, u := OneMillisecond(s, b);
      var rest;
      rest, t := TimePasses(u, b, d - 1);
      LeadsOn(s, b, first, u, rest, t);
      steps := first + rest;
    }
  }

  /** `KeepaliveNeverMisfires` speaks of sessions of any length: every healthy run can go on, in
      good health, past any time. */
  lemma HealthyRunsLast(b: Delays, requested: nat, before: seq<Step>, s: Clocked, d: nat)
    returns (after: seq<Step>, t: Clocked)
    requires Comfortable(b) && Healthy(before) && Run(b, requested, before, s)
    ensures Healthy(before + after) && Run(b, requested, before + after, t) && t.now == s.now + d
  {
    ExecKeepsTime(Opening(requested), b, before);
    after, t := TimePasses(s, b, d);
    LeadsOn(Opening(requested), b, before, s, after, t);
  }
}
