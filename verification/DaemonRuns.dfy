/** The daemon as a transition system: one step per critical section and one step per
    frame written under a writer mutex, interleaved in any order (src/daemon.rs:235-516).

    Beside the daemon's own state the system keeps what an observer would write down: the
    bytes read from the PTY so far, which chunks the PTY reader claimed for each
    connection, and which frames reached each connection. */
module DaemonRuns {
  import opened Basics
  import opened Replay
  import opened Daemon

  /** Replayed and live output are both PTY_DATA on the wire; the origin is the observer's. */
  datatype Origin = Replayed | Live
  datatype Wire = Data(origin: Origin, bytes: seq<byte>) | ExitStatus | ClientShouldExit

  datatype Phase =
    | Connecting     // connected, has not reached the attach critical section
    | Replaying      // admitted, replay not written yet
    | Forwarding     // copying client input to the PTY
    | Leaving        // input loop ended normally, about to release
    | ResizeFailed   // initial window size refused, about to release
    | Gone

  /** What one successful attach fixed: its number, its token, how much output had been
      read at that moment, and the replay snapshot. */
  datatype Grant = Grant(index: nat, token: nat, at: nat, snapshot: seq<byte>)

  datatype Link = Link(
    phase: Phase,
    grant: Option<Grant>,
    claims: seq<seq<byte>>,   // chunks the PTY reader claimed for this connection
    lost: seq<seq<byte>>,     // the claimed chunk whose write failed, if any
    log: seq<Wire>)           // frames completely written to this connection

  /* A write that fails may leave part of a frame behind. Later writes to the connection may
     still succeed in this model, so that the theorems hold of every such run too; a peer would
     not read past the torn frame. */

  datatype Reader = Reading | Delivering(writer: nat, chunk: seq<byte>) | Evicting(writer: nat) | Stopped
  datatype Waiter = Waiting | Reporting(writer: nat) | Finished
  datatype Event = Granted(writer: nat) | Released(writer: nat)

  datatype System = System(
    guarded: Guarded,
    reader: Reader,
    waiter: Waiter,
    links: seq<Link>,
    farewells: multiset<nat>,   // writers still owed a CLIENT_SHOULD_EXIT
    history: seq<byte>,
    grants: nat,
    events: seq<Event>)

  datatype Step =
    | Connect
    | Attach(h: nat)
    | ResizeFails(h: nat)
    | WriteReplay(h: nat, ok: bool)
    | SessionEnds(h: nat, clean: bool)
    | Leave(h: nat, now: nat)
    | ReadPty(chunk: seq<byte>)
    | Deliver(ok: bool)
    | Evict(now: nat)
    | PtyEnds
    | ChildExit
    | Report(ok: bool)
    | ControlDetach(now: nat)
    | Farewell(h: nat, ok: bool)

  const START := System(INITIAL, Reading, Waiting, [], multiset{}, [], 0, [])
  const FRESH_LINK := Link(Connecting, None, [], [], [])
  const PTY_READ_LIMIT: nat := 8192

  // ---------------------------------------------------------------- transitions

  predicate InPhase(s: System, h: nat, phase: Phase) {
    h < |s.links| && s.links[h].phase == phase
  }

  predicate Enabled(s: System, step: Step) {
    match step
    case Connect => true
    case Attach(h) => InPhase(s, h, Connecting)
    case ResizeFails(h) => InPhase(s, h, Replaying)
    case WriteReplay(h, _) => InPhase(s, h, Replaying) && s.links[h].grant.Some?
    case SessionEnds(h, _) => InPhase(s, h, Forwarding)
    case Leave(h, _) => (InPhase(s, h, Leaving) || InPhase(s, h, ResizeFailed)) && s.links[h].grant.Some?
    case ReadPty(chunk) => s.reader == Reading && 0 < |chunk| <= PTY_READ_LIMIT
    case Deliver(_) => s.reader.Delivering? && s.reader.writer < |s.links|
    case Evict(_) => s.reader.Evicting?
    case PtyEnds => s.reader == Reading
    case ChildExit => s.waiter == Waiting
    case Report(_) => s.waiter.Reporting? && s.waiter.writer < |s.links|
    case ControlDetach(_) => true
    case Farewell(h, _) => h in s.farewells && h < |s.links|
  }

  function SetLink(s: System, h: nat, link: Link): System
    requires h < |s.links|
  {
    s.(links := s.links[h := link])
  }

  function SetPhase(s: System, h: nat, phase: Phase): System
    requires h < |s.links|
  {
    SetLink(s, h, s.links[h].(phase := phase))
  }

  function Logged(s: System, h: nat, frame: Wire): System
    requires h < |s.links|
  {
    SetLink(s, h, s.links[h].(log := s.links[h].log + [frame]))
  }

  /** Replaces the guarded state by one without a broker, noting an effective release. */
  function Unpublish(s: System, g: Guarded): System {
    s.(guarded := g,
       events := if s.guarded.broker.Some? && g.broker.None?
                 then s.events + [Released(s.guarded.broker.value.writer)] else s.events)
  }

  function ApplyAttach(s: System, h: nat): System
    requires Enabled(s, Attach(h))
  {
    if s.guarded.broker.Some? then SetPhase(s, h, Gone)
    else
      var g := AfterAttach(s.guarded, h);
      var grant := Grant(s.grants + 1, g.attachToken, |s.history|, s.guarded.replay);
      SetLink(s, h, s.links[h].(phase := Replaying, grant := Some(grant)))
        .(guarded := g, grants := s.grants + 1, events := s.events + [Granted(h)])
  }

  function ApplyWriteReplay(s: System, h: nat, ok: bool): System
    requires Enabled(s, WriteReplay(h, ok))
  {
    var snapshot := s.links[h].grant.value.snapshot;
    if snapshot == [] then SetPhase(s, h, Forwarding)
    else if ok then SetPhase(Logged(s, h, Data(Replayed, snapshot)), h, Forwarding)
    else SetPhase(s, h, Gone)
  }

  function ApplyReadPty(s: System, chunk: seq<byte>): System
    requires Enabled(s, ReadPty(chunk))
  {
    var s' := s.(guarded := AfterChunk(s.guarded, chunk), history := s.history + chunk);
    var writer := BrokerWriter(s.guarded);
    if writer.Some? && writer.value < |s.links| then
      var link := s.links[writer.value];
      SetLink(s', writer.value, link.(claims := link.claims + [chunk]))
        .(reader := Delivering(writer.value, chunk))
    else s'
  }

  function ApplyDeliver(s: System, ok: bool): System
    requires Enabled(s, Deliver(ok))
  {
    var h, chunk := s.reader.writer, s.reader.chunk;
    if ok then Logged(s, h, Data(Live, chunk)).(reader := Reading)
    else SetLink(s, h, s.links[h].(lost := s.links[h].lost + [chunk])).(reader := Evicting(h))
  }

  function Apply(s: System, step: Step): System
    requires Enabled(s, step)
  {
    match step
    case Connect => s.(links := s.links + [FRESH_LINK])
    case Attach(h) => ApplyAttach(s, h)
    case ResizeFails(h) => SetPhase(s, h, ResizeFailed)
    case WriteReplay(h, ok) => ApplyWriteReplay(s, h, ok)
    case SessionEnds(h, clean) => SetPhase(s, h, if clean then Leaving else Gone)
    case Leave(h, now) =>
      Unpublish(SetPhase(s, h, Gone), AfterRelease(s.guarded, s.links[h].grant.value.token, now))
    case ReadPty(chunk) => ApplyReadPty(s, chunk)
    case Deliver(ok) => ApplyDeliver(s, ok)
    case Evict(now) => Unpublish(s, AfterDetach(s.guarded, now)).(reader := Reading)
    case PtyEnds => s.(reader := Stopped)
    case ChildExit =>
      s.(guarded := AfterChildExit(s.guarded),
         waiter := if s.guarded.broker.Some? then Reporting(s.guarded.broker.value.writer) else Finished)
    case Report(ok) =>
      (if ok then Logged(s, s.waiter.writer, ExitStatus) else s).(waiter := Finished)
    case ControlDetach(now) =>
      Unpublish(s, AfterDetach(s.guarded, now))
        .(farewells := if s.guarded.broker.Some? then s.farewells + multiset{s.guarded.broker.value.writer}
                       else s.farewells)
    case Farewell(h, ok) =>
      (if ok then Logged(s, h, ClientShouldExit) else s).(farewells := s.farewells - multiset{h})
  }

  /** Where the daemon stands after taking exactly `steps`, in that order, if it can. */
  function Exec(steps: seq<Step>): Option<System>
    decreases |steps|
  {
    if steps == [] then Some(START)
    else
      var before, last := Exec(steps[..|steps| - 1]), steps[|steps| - 1];
      if before.Some? && Enabled(before.value, last) then Some(Apply(before.value, last)) else None
  }

  predicate Run(steps: seq<Step>, s: System) {
    Exec(steps) == Some(s)
  }

  // ---------------------------------------------------------------- observations

  function Frames(log: seq<Wire>, origin: Origin): seq<seq<byte>> {
    if log == [] then []
    else
      var rest, last := Frames(log[..|log| - 1], origin), log[|log| - 1];
      if last.Data? && last.origin == origin then rest + [last.bytes] else rest
  }

  /** What the client sees: the PTY_DATA bodies in stream order, origins forgotten. */
  function Bodies(log: seq<Wire>): seq<seq<byte>> {
    if log == [] then []
    else
      var rest, last := Bodies(log[..|log| - 1]), log[|log| - 1];
      if last.Data? then rest + [last.bytes] else rest
  }

  lemma FramesSnoc(log: seq<Wire>, frame: Wire, origin: Origin)
    ensures Frames(log + [frame], origin)
         == Frames(log, origin) + (if frame.Data? && frame.origin == origin then [frame.bytes] else [])
  {
    assert (log + [frame])[..|log|] == log;
  }

  predicate Installed(s: System, h: nat) {
    s.guarded.broker.Some? && s.guarded.broker.value.writer == h
  }

  function InFlight(s: System, h: nat): seq<seq<byte>> {
    if s.reader.Delivering? && s.reader.writer == h then [s.reader.chunk] else []
  }

  function ClaimEnd(link: Link): nat
    requires link.grant.Some?
  {
    link.grant.value.at + |Flatten(link.claims)|
  }

  /** One past the last history byte that was completely sent to this connection. */
  function SentEnd(link: Link): nat
    requires link.grant.Some?
  {
    link.grant.value.at + |Flatten(Frames(link.log, Live))|
  }

  // ---------------------------------------------------------------- invariant

  ghost predicate RingInv(s: System) {
    s.guarded.replay == LastN(s.history, DEFAULT_REPLAY_CAPACITY)
  }

  ghost predicate BrokerInv(s: System) {
    && s.guarded.attachToken == TokenAt(s.grants)
    && (s.guarded.broker.Some? ==>
          var b := s.guarded.broker.value;
          && b.writer < |s.links|
          && s.links[b.writer].grant.Some?
          && s.links[b.writer].grant.value.index == s.grants
          && s.links[b.writer].grant.value.token == b.token)
    && (s.reader.Delivering? ==> s.reader.writer < |s.links| && s.links[s.reader.writer].grant.Some?)
  }

  /** Everything outside a connection that its own bookkeeping depends on. */
  datatype Context = Context(
    history: seq<byte>, grants: nat, installed: bool, inFlight: seq<seq<byte>>, evicting: bool)

  function ContextOf(s: System, h: nat): Context {
    Context(s.history, s.grants, Installed(s, h), InFlight(s, h), s.reader.Evicting?)
  }

  /** A connection that was never admitted is claimed for by nobody. */
  ghost predicate UngrantedOk(link: Link) {
    link.grant.None? ==>
      && link.phase in {Connecting, Gone}
      && link.claims == [] && link.lost == []
      && Frames(link.log, Live) == [] && Frames(link.log, Replayed) == []
  }

  ghost predicate GrantOk(g: Grant, c: Context) {
    && 1 <= g.index <= c.grants
    && g.token == TokenAt(g.index)
    && g.at <= |c.history|
    && g.snapshot == LastN(c.history[..g.at], DEFAULT_REPLAY_CAPACITY)
  }

  /** The claims are the history from the attach on, and up to now while installed. */
  ghost predicate ClaimOk(link: Link, c: Context)
    requires link.grant.Some?
  {
    && ClaimEnd(link) <= |c.history|
    && link.grant.value.at <= ClaimEnd(link)
    && Flatten(link.claims) == c.history[link.grant.value.at..ClaimEnd(link)]
    && (c.installed ==> ClaimEnd(link) == |c.history|)
  }

  /** Claims are delivered in order, and at most the last one is ever lost. */
  ghost predicate DeliveryOk(link: Link, c: Context) {
    && link.claims == Frames(link.log, Live) + c.inFlight + link.lost
    && |link.lost| <= 1
    && (link.lost != [] ==> c.inFlight == [] && (c.evicting || !c.installed))
  }

  ghost predicate ReplayOk(link: Link)
    requires link.grant.Some?
  {
    var written, snapshot := Frames(link.log, Replayed), link.grant.value.snapshot;
    match link.phase
    case Connecting => false
    case Replaying => written == []
    case ResizeFailed => written == []
    case Gone => written == [] || (written == [snapshot] && snapshot != [])
    case _ => written == if snapshot == [] then [] else [snapshot]
  }

  ghost predicate LinkOk(link: Link, c: Context) {
    && UngrantedOk(link)
    && DeliveryOk(link, c)
    && (link.grant.Some? ==> GrantOk(link.grant.value, c) && ClaimOk(link, c) && ReplayOk(link))
  }

  ghost predicate LinkInv(s: System, h: nat)
    requires h < |s.links|
  {
    LinkOk(s.links[h], ContextOf(s, h))
  }

  /** Two admitted connections: different numbers, and the later one attached only after
      everything claimed for the earlier one had been read. */
  ghost predicate OrderInv(a: Link, b: Link) {
    a.grant.Some? && b.grant.Some? ==>
      && a.grant.value.index != b.grant.value.index
      && (a.grant.value.index < b.grant.value.index ==> ClaimEnd(a) <= b.grant.value.at)
  }

  ghost predicate Ordered(l: seq<Link>) {
    forall i, j :: 0 <= i < |l| && 0 <= j < |l| && i != j ==> OrderInv(l[i], l[j])
  }

  ghost predicate AlternatesAt(events: seq<Event>, k: nat)
    requires k < |events|
  {
    if k % 2 == 0 then events[k].Granted? else events[k] == Released(events[k - 1].writer)
  }

  ghost predicate Alternating(events: seq<Event>) {
    forall k :: 0 <= k < |events| ==> AlternatesAt(events, k)
  }

  ghost predicate EventInv(s: System) {
    && Alternating(s.events)
    && (s.guarded.broker.Some? <==> |s.events| % 2 == 1)
    && (s.guarded.broker.Some? ==> s.events[|s.events| - 1] == Granted(s.guarded.broker.value.writer))
    && s.grants == (|s.events| + 1) / 2
  }

  ghost predicate Inv(s: System) {
    && RingInv(s)
    && BrokerInv(s)
    && EventInv(s)
    && (forall h :: 0 <= h < |s.links| ==> LinkInv(s, h))
    && Ordered(s.links)
  }

  // ---------------------------------------------------------------- preservation

  lemma RingKept(s: System, step: Step)
    requires Inv(s) && Enabled(s, step)
    ensures RingInv(Apply(s, step))
  {
    if step.ReadPty? {
      LastNAbsorbs(s.history, step.chunk, DEFAULT_REPLAY_CAPACITY);
    }
  }

  lemma AttachKeepsBroker(s: System, h: nat)
    requires BrokerInv(s) && Enabled(s, Attach(h))
    ensures BrokerInv(ApplyAttach(s, h))
  {
    if s.guarded.broker.None? {
      assert TokenAt(s.grants + 1) == NextToken(TokenAt(s.grants));
    }
  }

  lemma PhaseKeepsBroker(s: System, h: nat, phase: Phase)
    requires BrokerInv(s) && h < |s.links|
    ensures BrokerInv(SetPhase(s, h, phase))
  {
  }

  lemma LoggedKeepsBroker(s: System, h: nat, frame: Wire)
    requires BrokerInv(s) && h < |s.links|
    ensures BrokerInv(Logged(s, h, frame))
  {
  }

  lemma WriteReplayKeepsBroker(s: System, h: nat, ok: bool)
    requires BrokerInv(s) && Enabled(s, WriteReplay(h, ok))
    ensures BrokerInv(ApplyWriteReplay(s, h, ok))
  {
    var logged := Logged(s, h, Data(Replayed, s.links[h].grant.value.snapshot));
    LoggedKeepsBroker(s, h, Data(Replayed, s.links[h].grant.value.snapshot));
    PhaseKeepsBroker(logged, h, Forwarding);
    PhaseKeepsBroker(s, h, Forwarding);
    PhaseKeepsBroker(s, h, Gone);
  }

  lemma LeaveKeepsBroker(s: System, h: nat, now: nat)
    requires BrokerInv(s) && Enabled(s, Leave(h, now))
    ensures BrokerInv(Apply(s, Leave(h, now)))
  {
    PhaseKeepsBroker(s, h, Gone);
  }

  lemma ReadPtyKeepsBroker(s: System, chunk: seq<byte>)
    requires BrokerInv(s) && Enabled(s, ReadPty(chunk))
    ensures BrokerInv(ApplyReadPty(s, chunk))
  {
  }

  lemma DeliverKeepsBroker(s: System, ok: bool)
    requires BrokerInv(s) && Enabled(s, Deliver(ok))
    ensures BrokerInv(ApplyDeliver(s, ok))
  {
  }

  lemma NoticeKeepsBroker(s: System, step: Step)
    requires BrokerInv(s) && Enabled(s, step) && (step.Report? || step.Farewell?)
    ensures BrokerInv(Apply(s, step))
  {
    match step {
      case Report(_) => LoggedKeepsBroker(s, s.waiter.writer, ExitStatus);
      case Farewell(h, _) => LoggedKeepsBroker(s, h, ClientShouldExit);
    }
  }

  lemma BrokerKept(s: System, step: Step)
    requires BrokerInv(s) && Enabled(s, step)
    ensures BrokerInv(Apply(s, step))
  {
    match step
    case Connect =>
    case Attach(h) => AttachKeepsBroker(s, h);
    case ResizeFails(h) => PhaseKeepsBroker(s, h, ResizeFailed);
    case WriteReplay(h, ok) => WriteReplayKeepsBroker(s, h, ok);
    case SessionEnds(h, clean) => PhaseKeepsBroker(s, h, if clean then Leaving else Gone);
    case Leave(h, now) => LeaveKeepsBroker(s, h, now);
    case ReadPty(chunk) => ReadPtyKeepsBroker(s, chunk);
    case Deliver(ok) => DeliverKeepsBroker(s, ok);
    case Evict(_) =>
    case PtyEnds =>
    case ChildExit =>
    case Report(_) => NoticeKeepsBroker(s, step);
    case ControlDetach(_) =>
    case Farewell(_, _) => NoticeKeepsBroker(s, step);
  }

  lemma AlternatingSnoc(events: seq<Event>, e: Event)
    requires Alternating(events)
    requires if |events| % 2 == 0 then e.Granted? else e == Released(events[|events| - 1].writer)
    ensures Alternating(events + [e])
  {
    var longer := events + [e];
    forall k | 0 <= k < |longer| ensures AlternatesAt(longer, k) {
      if k < |events| {
        assert AlternatesAt(events, k);
      }
    }
  }

  lemma UnpublishKeepsEvents(s: System, g: Guarded)
    requires EventInv(s) && (g.broker.None? || g.broker == s.guarded.broker)
    ensures EventInv(Unpublish(s, g))
  {
    if s.guarded.broker.Some? && g.broker.None? {
      AlternatingSnoc(s.events, Released(s.guarded.broker.value.writer));
    }
  }

  lemma AttachKeepsEvents(s: System, h: nat)
    requires EventInv(s) && Enabled(s, Attach(h))
    ensures EventInv(ApplyAttach(s, h))
  {
    if s.guarded.broker.None? {
      AlternatingSnoc(s.events, Granted(h));
    }
  }

  lemma EventsKept(s: System, step: Step)
    requires EventInv(s) && Enabled(s, step)
    ensures EventInv(Apply(s, step))
  {
    match step
    case Connect =>
    case Attach(h) => AttachKeepsEvents(s, h);
    case ResizeFails(_) =>
    case WriteReplay(_, _) =>
    case SessionEnds(_, _) =>
    case Leave(h, now) =>
      UnpublishKeepsEvents(SetPhase(s, h, Gone), AfterRelease(s.guarded, s.links[h].grant.value.token, now));
    case ReadPty(_) =>
    case Deliver(_) =>
    case Evict(now) => UnpublishKeepsEvents(s, AfterDetach(s.guarded, now));
    case PtyEnds =>
    case ChildExit =>
    case Report(_) =>
    case ControlDetach(now) => UnpublishKeepsEvents(s, AfterDetach(s.guarded, now));
    case Farewell(_, _) =>
  }

  /** How the surroundings of an untouched connection may change. */
  ghost predicate Drifts(c: Context, c': Context) {
    && c.history <= c'.history && c.grants <= c'.grants
    && (c'.installed ==> c.installed && c'.history == c.history)
    && c'.inFlight == c.inFlight
    && (c.evicting ==> c'.evicting || !c'.installed)
  }

  /** A link survives any change around it that leaves its in-flight chunk alone, never
      installs it, and ends an eviction only once it is no longer installed. */
  lemma ContextChanges(link: Link, c: Context, c': Context)
    requires LinkOk(link, c) && Drifts(c, c')
    ensures LinkOk(link, c')
  {
    if link.grant.Some? {
      var at := link.grant.value.at;
      assert c'.history[..at] == c.history[..at];
      assert c'.history[at..ClaimEnd(link)] == c.history[at..ClaimEnd(link)];
    }
  }

  lemma AttachTouches(link: Link, c: Context, token: nat, snapshot: seq<byte>)
    requires LinkOk(link, c) && link.phase == Connecting
    requires token == TokenAt(c.grants + 1)
    requires snapshot == LastN(c.history, DEFAULT_REPLAY_CAPACITY)
    ensures LinkOk(
      link.(phase := Replaying, grant := Some(Grant(c.grants + 1, token, |c.history|, snapshot))),
      c.(grants := c.grants + 1, installed := true))
  {
    assert c.history[..|c.history|] == c.history;
    assert c.history[|c.history|..|c.history|] == [];
  }

  lemma PhaseTouches(link: Link, c: Context, phase: Phase)
    requires LinkOk(link, c)
    requires link.grant.None? ==> phase == Gone
    requires link.grant.Some? ==> ReplayOk(link.(phase := phase))
    ensures LinkOk(link.(phase := phase), c)
  {
    var link' := link.(phase := phase);
    assert UngrantedOk(link');
    assert DeliveryOk(link', c);
    if link.grant.Some? {
      assert GrantOk(link'.grant.value, c);
      assert ClaimEnd(link') == ClaimEnd(link);
      assert ClaimOk(link', c);
    }
  }

  lemma ReplayTouches(link: Link, c: Context)
    requires LinkOk(link, c) && link.phase == Replaying && link.grant.Some?
    requires link.grant.value.snapshot != []
    ensures LinkOk(
      link.(phase := Forwarding, log := link.log + [Data(Replayed, link.grant.value.snapshot)]), c)
  {
    var frame := Data(Replayed, link.grant.value.snapshot);
    FramesSnoc(link.log, frame, Live);
    FramesSnoc(link.log, frame, Replayed);
    var link' := link.(phase := Forwarding, log := link.log + [frame]);
    assert Frames(link'.log, Live) == Frames(link.log, Live);
    assert DeliveryOk(link', c) && ReplayOk(link') && GrantOk(link'.grant.value, c);
    assert ClaimEnd(link') == ClaimEnd(link);
    assert ClaimOk(link', c);
  }

  /** Appending a frame that is not PTY output. */
  lemma NoticeTouches(link: Link, c: Context, frame: Wire)
    requires LinkOk(link, c) && !frame.Data?
    ensures LinkOk(link.(log := link.log + [frame]), c)
  {
    FramesSnoc(link.log, frame, Live);
    FramesSnoc(link.log, frame, Replayed);
    var link' := link.(log := link.log + [frame]);
    assert DeliveryOk(link', c);
    assert link.grant.Some? ==> ClaimEnd(link') == ClaimEnd(link) && ReplayOk(link');
  }

  lemma ClaimTouches(link: Link, c: Context, chunk: seq<byte>)
    requires LinkOk(link, c) && link.grant.Some? && c.installed && c.inFlight == [] && !c.evicting
    ensures LinkOk(link.(claims := link.claims + [chunk]), c.(history := c.history + chunk, inFlight := [chunk]))
  {
    var at := link.grant.value.at;
    var grown := c.history + chunk;
    FlattenSnoc(link.claims, chunk);
    assert grown[..at] == c.history[..at];
    assert grown[at..|grown|] == c.history[at..] + chunk;
  }

  lemma DeliveryTouches(link: Link, c: Context, chunk: seq<byte>)
    requires LinkOk(link, c) && link.grant.Some? && c.inFlight == [chunk]
    ensures LinkOk(link.(log := link.log + [Data(Live, chunk)]), c.(inFlight := []))
    ensures LinkOk(link.(lost := link.lost + [chunk]), c.(inFlight := [], evicting := true))
  {
    FramesSnoc(link.log, Data(Live, chunk), Live);
    FramesSnoc(link.log, Data(Live, chunk), Replayed);
  }

  /** The one connection, if any, whose record a step rewrites. */
  function Touched(s: System, step: Step): Option<nat> {
    match step
    case Attach(h) => Some(h)
    case ResizeFails(h) => Some(h)
    case WriteReplay(h, _) => Some(h)
    case SessionEnds(h, _) => Some(h)
    case Leave(h, _) => Some(h)
    case ReadPty(_) => BrokerWriter(s.guarded)
    case Deliver(_) => if s.reader.Delivering? then Some(s.reader.writer) else None
    case Report(_) => if s.waiter.Reporting? then Some(s.waiter.writer) else None
    case Farewell(h, _) => Some(h)
    case _ => None
  }

  /** What a step may do to the records: it adds at most a fresh one, rewrites at most the
      touched one, and only an attach or a PTY read changes what was granted to, or claimed
      for, a connection. */
  ghost predicate Framed(before: seq<Link>, after: seq<Link>, touched: Option<nat>, regrants: bool) {
    && (|after| == |before| || (|after| == |before| + 1 && after[|before|] == FRESH_LINK))
    && (forall h: nat :: h < |before| && touched != Some(h) ==> after[h] == before[h])
    && (!regrants ==> forall h: nat :: h < |before| ==> (
          after[h].grant == before[h].grant && after[h].claims == before[h].claims))
  }

  lemma UpdateFramed(before: seq<Link>, h: nat, link: Link, regrants: bool)
    requires h < |before|
    requires !regrants ==> link.grant == before[h].grant && link.claims == before[h].claims
    ensures Framed(before, before[h := link], Some(h), regrants)
  {
  }

  lemma NoChangeFramed(links: seq<Link>, touched: Option<nat>, regrants: bool)
    ensures Framed(links, links, touched, regrants)
  {
  }

  lemma WriteReplayFramed(s: System, h: nat, ok: bool)
    requires Enabled(s, WriteReplay(h, ok))
    ensures Framed(s.links, ApplyWriteReplay(s, h, ok).links, Some(h), false)
  {
    var link := s.links[h];
    var logged := link.(log := link.log + [Data(Replayed, link.grant.value.snapshot)]);
    assert s.links[h := logged][h := logged.(phase := Forwarding)] == s.links[h := logged.(phase := Forwarding)];
    UpdateFramed(s.links, h, logged.(phase := Forwarding), false);
    UpdateFramed(s.links, h, link.(phase := Forwarding), false);
    UpdateFramed(s.links, h, link.(phase := Gone), false);
  }

  lemma ReadPtyFramed(s: System, chunk: seq<byte>)
    requires BrokerInv(s) && Enabled(s, ReadPty(chunk))
    ensures Framed(s.links, ApplyReadPty(s, chunk).links, BrokerWriter(s.guarded), true)
  {
    if s.guarded.broker.Some? {
      var h := s.guarded.broker.value.writer;
      UpdateFramed(s.links, h, s.links[h].(claims := s.links[h].claims + [chunk]), true);
    }
  }

  lemma DeliverFramed(s: System, ok: bool)
    requires Enabled(s, Deliver(ok))
    ensures Framed(s.links, ApplyDeliver(s, ok).links, Some(s.reader.writer), false)
  {
    var h, chunk := s.reader.writer, s.reader.chunk;
    var link := s.links[h];
    UpdateFramed(s.links, h, link.(log := link.log + [Data(Live, chunk)]), false);
    UpdateFramed(s.links, h, link.(lost := link.lost + [chunk]), false);
  }

  lemma LoggedFramed(s: System, h: nat, frame: Wire)
    requires h < |s.links|
    ensures Framed(s.links, Logged(s, h, frame).links, Some(h), false)
  {
    UpdateFramed(s.links, h, s.links[h].(log := s.links[h].log + [frame]), false);
  }

  lemma PhaseFramed(s: System, h: nat, phase: Phase)
    requires h < |s.links|
    ensures Framed(s.links, SetPhase(s, h, phase).links, Some(h), false)
  {
    UpdateFramed(s.links, h, s.links[h].(phase := phase), false);
  }

  lemma StepFramed(s: System, step: Step)
    requires BrokerInv(s) && Enabled(s, step)
    ensures Framed(s.links, Apply(s, step).links, Touched(s, step), step.Attach? || step.ReadPty?)
  {
    match step
    case Connect =>
    case Attach(h) =>
    case ResizeFails(h) => PhaseFramed(s, h, ResizeFailed);
    case WriteReplay(h, ok) => WriteReplayFramed(s, h, ok);
    case SessionEnds(h, clean) => PhaseFramed(s, h, if clean then Leaving else Gone);
    case Leave(h, now) => PhaseFramed(s, h, Gone);
    case ReadPty(chunk) => ReadPtyFramed(s, chunk);
    case Deliver(ok) => DeliverFramed(s, ok);
    case Evict(_) => NoChangeFramed(s.links, None, false);
    case PtyEnds => NoChangeFramed(s.links, None, false);
    case ChildExit => NoChangeFramed(s.links, None, false);
    case Report(ok) =>
      LoggedFramed(s, s.waiter.writer, ExitStatus);
      NoChangeFramed(s.links, Some(s.waiter.writer), false);
    case ControlDetach(_) => NoChangeFramed(s.links, None, false);
    case Farewell(h, ok) =>
      LoggedFramed(s, h, ClientShouldExit);
      NoChangeFramed(s.links, Some(h), false);
  }

  lemma StepFrame(s: System, step: Step, h: nat)
    requires BrokerInv(s) && Enabled(s, step) && h < |s.links|
    ensures |s.links| <= |Apply(s, step).links| <= |s.links| + 1
    ensures Touched(s, step) != Some(h) ==> Apply(s, step).links[h] == s.links[h]
    ensures !step.Attach? && !step.ReadPty? ==> (
      Apply(s, step).links[h].grant == s.links[h].grant && Apply(s, step).links[h].claims == s.links[h].claims)
  {
    StepFramed(s, step);
  }

  lemma AttachKept(s: System, h: nat)
    requires RingInv(s) && BrokerInv(s) && Enabled(s, Attach(h)) && LinkInv(s, h)
    ensures LinkInv(ApplyAttach(s, h), h)
  {
    var link, c := s.links[h], ContextOf(s, h);
    if s.guarded.broker.None? {
      AttachTouches(link, c, NextToken(s.guarded.attachToken), s.guarded.replay);
      assert ContextOf(ApplyAttach(s, h), h) == c.(grants := c.grants + 1, installed := true);
    } else {
      PhaseTouches(link, c, Gone);
    }
  }

  lemma ReplayKept(s: System, h: nat)
    requires Enabled(s, WriteReplay(h, true)) && LinkInv(s, h) && s.links[h].grant.value.snapshot != []
    ensures LinkInv(ApplyWriteReplay(s, h, true), h)
  {
    var link, c := s.links[h], ContextOf(s, h);
    var s' := ApplyWriteReplay(s, h, true);
    assert ContextOf(s', h) == c;
    assert s'.links[h]
        == link.(phase := Forwarding, log := link.log + [Data(Replayed, link.grant.value.snapshot)]);
    ReplayTouches(link, c);
  }

  lemma WriteReplayKept(s: System, h: nat, ok: bool)
    requires Enabled(s, WriteReplay(h, ok)) && LinkInv(s, h)
    ensures LinkInv(ApplyWriteReplay(s, h, ok), h)
  {
    if s.links[h].grant.value.snapshot == [] {
      PhaseKept(s, h, Forwarding);
    } else if ok {
      ReplayKept(s, h);
    } else {
      PhaseKept(s, h, Gone);
    }
  }

  lemma LeaveKept(s: System, h: nat, now: nat)
    requires Enabled(s, Leave(h, now)) && LinkInv(s, h)
    ensures LinkInv(Apply(s, Leave(h, now)), h)
  {
    var link, c := s.links[h], ContextOf(s, h);
    PhaseTouches(link, c, Gone);
    ContextChanges(link.(phase := Gone), c, ContextOf(Apply(s, Leave(h, now)), h));
  }

  lemma ReadPtyKept(s: System, chunk: seq<byte>, h: nat)
    requires BrokerInv(s) && Enabled(s, ReadPty(chunk)) && Installed(s, h) && LinkInv(s, h)
    ensures LinkInv(ApplyReadPty(s, chunk), h)
  {
    var link, c := s.links[h], ContextOf(s, h);
    ClaimTouches(link, c, chunk);
    assert ContextOf(ApplyReadPty(s, chunk), h) == c.(history := c.history + chunk, inFlight := [chunk]);
  }

  lemma DeliverKept(s: System, ok: bool, h: nat)
    requires BrokerInv(s) && Enabled(s, Deliver(ok)) && h == s.reader.writer && LinkInv(s, h)
    ensures LinkInv(ApplyDeliver(s, ok), h)
  {
    var link, c := s.links[h], ContextOf(s, h);
    DeliveryTouches(link, c, s.reader.chunk);
    assert ContextOf(ApplyDeliver(s, ok), h) == c.(inFlight := [], evicting := !ok);
  }

  lemma PhaseKept(s: System, h: nat, phase: Phase)
    requires h < |s.links| && LinkInv(s, h) && s.links[h].grant.Some?
    requires ReplayOk(s.links[h].(phase := phase))
    ensures LinkInv(SetPhase(s, h, phase), h)
  {
    assert ContextOf(SetPhase(s, h, phase), h) == ContextOf(s, h);
    PhaseTouches(s.links[h], ContextOf(s, h), phase);
  }

  lemma ReportKept(s: System, ok: bool)
    requires Enabled(s, Report(ok)) && LinkInv(s, s.waiter.writer)
    ensures LinkInv(Apply(s, Report(ok)), s.waiter.writer)
  {
    var h := s.waiter.writer;
    assert ContextOf(Apply(s, Report(ok)), h) == ContextOf(s, h);
    NoticeTouches(s.links[h], ContextOf(s, h), ExitStatus);
  }

  lemma FarewellKept(s: System, h: nat, ok: bool)
    requires Enabled(s, Farewell(h, ok)) && LinkInv(s, h)
    ensures LinkInv(Apply(s, Farewell(h, ok)), h)
  {
    assert ContextOf(Apply(s, Farewell(h, ok)), h) == ContextOf(s, h);
    NoticeTouches(s.links[h], ContextOf(s, h), ClientShouldExit);
  }

  lemma TouchedKept(s: System, step: Step, h: nat)
    requires RingInv(s) && BrokerInv(s) && Enabled(s, step)
    requires Touched(s, step) == Some(h) && h < |s.links| && LinkInv(s, h)
    ensures h < |Apply(s, step).links| && LinkInv(Apply(s, step), h)
  {
    StepFrame(s, step, h);
    match step
    case Attach(_) => AttachKept(s, h);
    case ResizeFails(_) => PhaseKept(s, h, ResizeFailed);
    case WriteReplay(_, ok) => WriteReplayKept(s, h, ok);
    case SessionEnds(_, clean) => PhaseKept(s, h, if clean then Leaving else Gone);
    case Leave(_, now) => LeaveKept(s, h, now);
    case ReadPty(chunk) => ReadPtyKept(s, chunk, h);
    case Deliver(ok) => DeliverKept(s, ok, h);
    case Report(ok) => ReportKept(s, ok);
    case Farewell(_, ok) => FarewellKept(s, h, ok);
  }

  lemma ReadPtyDrifts(s: System, chunk: seq<byte>, h: nat)
    requires BrokerInv(s) && Enabled(s, ReadPty(chunk)) && BrokerWriter(s.guarded) != Some(h)
    ensures Drifts(ContextOf(s, h), ContextOf(ApplyReadPty(s, chunk), h))
  {
  }

  lemma LeaveDrifts(s: System, h': nat, now: nat, h: nat)
    requires Enabled(s, Leave(h', now))
    ensures Drifts(ContextOf(s, h), ContextOf(Apply(s, Leave(h', now)), h))
  {
  }

  lemma AttachDrifts(s: System, h': nat, h: nat)
    requires Enabled(s, Attach(h')) && h' != h
    ensures Drifts(ContextOf(s, h), ContextOf(ApplyAttach(s, h'), h))
  {
  }

  lemma DeliverDrifts(s: System, ok: bool, h: nat)
    requires Enabled(s, Deliver(ok)) && s.reader.writer != h
    ensures Drifts(ContextOf(s, h), ContextOf(ApplyDeliver(s, ok), h))
  {
  }

  lemma DetachDrifts(s: System, step: Step, h: nat)
    requires Enabled(s, step) && (step.Evict? || step.ControlDetach?)
    ensures Drifts(ContextOf(s, h), ContextOf(Apply(s, step), h))
  {
  }

  predicate Quiet(step: Step) {
    step.Connect? || step.ResizeFails? || step.SessionEnds? || step.PtyEnds? || step.ChildExit? || step.Report? ||
    step.Farewell?
  }

  lemma QuietDrifts(s: System, step: Step, h: nat)
    requires Enabled(s, step) && Quiet(step)
    ensures Drifts(ContextOf(s, h), ContextOf(Apply(s, step), h))
  {
  }

  lemma UntouchedContext(s: System, step: Step, h: nat)
    requires BrokerInv(s) && Enabled(s, step)
    requires Touched(s, step) != Some(h) && h < |s.links|
    ensures Drifts(ContextOf(s, h), ContextOf(Apply(s, step), h))
  {
    if Quiet(step) {
      QuietDrifts(s, step, h);
    } else {
      match step
      case Attach(h') => AttachDrifts(s, h', h);
      case WriteReplay(h', ok) =>
        assert ContextOf(ApplyWriteReplay(s, h', ok), h) == ContextOf(s, h);
      case Leave(h', now) => LeaveDrifts(s, h', now, h);
      case ReadPty(chunk) => ReadPtyDrifts(s, chunk, h);
      case Deliver(ok) => DeliverDrifts(s, ok, h);
      case _ => DetachDrifts(s, step, h);
    }
  }

  lemma UntouchedKept(s: System, step: Step, h: nat)
    requires BrokerInv(s) && Enabled(s, step)
    requires Touched(s, step) != Some(h) && h < |s.links| && LinkInv(s, h)
    ensures h < |Apply(s, step).links| && LinkInv(Apply(s, step), h)
  {
    StepFrame(s, step, h);
    UntouchedContext(s, step, h);
    ContextChanges(s.links[h], ContextOf(s, h), ContextOf(Apply(s, step), h));
  }

  lemma FreshLinkOk(s: System, h: nat)
    requires h < |s.links| && s.links[h] == FRESH_LINK
    requires InFlight(s, h) == []
    ensures LinkInv(s, h)
  {
  }

  lemma LinksKept(s: System, step: Step)
    requires RingInv(s) && BrokerInv(s) && Enabled(s, step)
    requires forall h :: 0 <= h < |s.links| ==> LinkInv(s, h)
    ensures forall h :: 0 <= h < |Apply(s, step).links| ==> LinkInv(Apply(s, step), h)
  {
    var s' := Apply(s, step);
    StepFramed(s, step);
    BrokerKept(s, step);
    forall h | 0 <= h < |s'.links| ensures LinkInv(s', h) {
      if h == |s.links| {
        FreshLinkOk(s', h);
      } else if Touched(s, step) == Some(h) {
        TouchedKept(s, step, h);
      } else {
        UntouchedKept(s, step, h);
      }
    }
  }

  ghost predicate Bounded(s: System, link: Link) {
    link.grant.Some? ==> link.grant.value.index <= s.grants && ClaimEnd(link) <= |s.history|
  }

  lemma PairKept(s: System, step: Step, i: nat, j: nat)
    requires BrokerInv(s) && Enabled(s, step)
    requires i < |s.links| && j < |s.links| && i != j
    requires Bounded(s, s.links[i]) && Bounded(s, s.links[j]) && OrderInv(s.links[i], s.links[j])
    ensures |s.links| <= |Apply(s, step).links|
    ensures OrderInv(Apply(s, step).links[i], Apply(s, step).links[j])
  {
    StepFrame(s, step, i);
    StepFrame(s, step, j);
    match step
    case Attach(_) =>
    case ReadPty(_) =>
    case _ =>
  }

  lemma FreshPair(s: System, step: Step, i: nat, j: nat)
    requires BrokerInv(s) && Enabled(s, step)
    requires i < |Apply(s, step).links| && j < |Apply(s, step).links| && (i >= |s.links| || j >= |s.links|)
    ensures OrderInv(Apply(s, step).links[i], Apply(s, step).links[j])
  {
    StepFramed(s, step);
    assert Apply(s, step).links[|s.links|].grant.None?;
  }

  lemma OrderKept(s: System, step: Step)
    requires BrokerInv(s) && Enabled(s, step) && Ordered(s.links)
    requires forall h :: 0 <= h < |s.links| ==> Bounded(s, s.links[h])
    ensures Ordered(Apply(s, step).links)
  {
    var l := Apply(s, step).links;
    forall i, j | 0 <= i < |l| && 0 <= j < |l| && i != j ensures OrderInv(l[i], l[j]) {
      if i < |s.links| && j < |s.links| {
        PairKept(s, step, i, j);
      } else {
        FreshPair(s, step, i, j);
      }
    }
  }

  lemma LinksBounded(s: System)
    requires forall h :: 0 <= h < |s.links| ==> LinkInv(s, h)
    ensures forall h :: 0 <= h < |s.links| ==> Bounded(s, s.links[h])
  {
    forall h | 0 <= h < |s.links| ensures Bounded(s, s.links[h]) {
      assert LinkInv(s, h);
    }
  }

  lemma StepKeepsInv(s: System, step: Step)
    requires Inv(s) && Enabled(s, step)
    ensures Inv(Apply(s, step))
  {
    RingKept(s, step);
    BrokerKept(s, step);
    EventsKept(s, step);
    LinksKept(s, step);
    LinksBounded(s);
    OrderKept(s, step);
  }

  /** Every interleaving of the daemon's threads keeps the invariant. */
  lemma {:induction false} RunKeepsInv(steps: seq<Step>, s: System)
    requires Run(steps, s)
    ensures Inv(s)
    decreases |steps|
  {
    if steps != [] {
      var before := Exec(steps[..|steps| - 1]).value;
      RunKeepsInv(steps[..|steps| - 1], before);
      StepKeepsInv(before, steps[|steps| - 1]);
    }
  }

  // ---------------------------------------------------------------- what every run guarantees

  lemma LinkInRun(steps: seq<Step>, s: System, h: nat)
    requires Run(steps, s) && h < |s.links|
    ensures LinkInv(s, h) && BrokerInv(s)
  {
    RunKeepsInv(steps, s);
  }

  lemma PairInRun(steps: seq<Step>, s: System, i: nat, j: nat)
    requires Run(steps, s) && i < |s.links| && j < |s.links| && i != j
    ensures OrderInv(s.links[i], s.links[j])
  {
    RunKeepsInv(steps, s);
  }

  /** For every connection ever admitted, in every interleaving: the snapshot taken at attach
      followed by the chunks claimed for it is one contiguous slice of the PTY history, with
      no gap and no repeat, reaching up to now while it is the installed broker. */
  lemma ContiguousDelivery(steps: seq<Step>, s: System, h: nat)
    requires Run(steps, s) && h < |s.links| && s.links[h].grant.Some?
    ensures var link, g := s.links[h], s.links[h].grant.value;
      && |g.snapshot| <= g.at <= ClaimEnd(link) <= |s.history|
      && g.snapshot + Flatten(link.claims) == s.history[g.at - |g.snapshot|..ClaimEnd(link)]
      && (Installed(s, h) ==> ClaimEnd(link) == |s.history|)
  {
    LinkInRun(steps, s, h);
    var link, g := s.links[h], s.links[h].grant.value;
    var start := g.at - |g.snapshot|;
    assert g.snapshot == s.history[start..g.at];
    assert s.history[start..ClaimEnd(link)] == s.history[start..g.at] + s.history[g.at..ClaimEnd(link)];
  }

  /** `bodies` is `live` with `replay` put in before position `k`. */
  ghost predicate Spliced(bodies: seq<seq<byte>>, live: seq<seq<byte>>, replay: seq<seq<byte>>, k: nat) {
    k <= |live| && bodies == live[..k] + replay + live[k..]
  }

  lemma {:induction false} BodiesAreSpliced(log: seq<Wire>) returns (k: nat)
    requires |Frames(log, Replayed)| <= 1
    ensures Spliced(Bodies(log), Frames(log, Live), Frames(log, Replayed), k)
    decreases |log|
  {
    if log == [] {
      k := 0;
    } else {
      var init, last := log[..|log| - 1], log[|log| - 1];
      k := BodiesAreSpliced(init);
      var live := Frames(init, Live);
      if last.Data? && last.origin == Replayed {
        k := |live|;
        assert Frames(init, Replayed) == [];
        assert Bodies(init) == live;
      } else if last.Data? {
        assert (live + [last.bytes])[k..] == live[k..] + [last.bytes];
        assert (live + [last.bytes])[..k] == live[..k];
      }
    }
  }

  /** On each connection, taking out the single replay frame leaves exactly the claimed chunks,
      in claim order; only the last claim can be missing (still being written, or lost to the
      write failure that got a broker evicted). */
  lemma WireFollowsClaims(steps: seq<Step>, s: System, h: nat) returns (k: nat)
    requires Run(steps, s) && h < |s.links| && s.links[h].grant.Some?
    ensures var link := s.links[h];
      var live, replay := Frames(link.log, Live), Frames(link.log, Replayed);
      && (replay == [] || replay == [link.grant.value.snapshot])
      && Spliced(Bodies(link.log), live, replay, k)
      && link.claims == live + InFlight(s, h) + link.lost
      && |InFlight(s, h) + link.lost| <= 1
  {
    LinkInRun(steps, s, h);
    k := BodiesAreSpliced(s.links[h].log);
  }

  /** After any run and any chunking of reads the ring is the last 65,536 bytes of history. */
  lemma RingIsRecentHistory(steps: seq<Step>, s: System)
    requires Run(steps, s)
    ensures s.guarded.replay == LastN(s.history, 65536)
  {
    RunKeepsInv(steps, s);
  }

  /** An admission is owed its snapshot and whatever is read after it. The first position in
      the history from which something of that may still be missing: the start of a snapshot
      that was not written, or else the end of what was sent. */
  function OwedFrom(link: Link): nat
    requires link.grant.Some?
  {
    var g := link.grant.value;
    if g.snapshot != [] && Frames(link.log, Replayed) == [] && |g.snapshot| <= g.at then g.at - |g.snapshot|
    else SentEnd(link)
  }

  /** Reconnecting: take any two admissions, the later after the earlier. The later snapshot
      ends with everything still owed to the earlier connection, from the first missing byte
      on, if and only if that is at most 65,536 bytes. */
  lemma NoLossAcrossReconnect(steps: seq<Step>, s: System, earlier: nat, later: nat)
    requires Run(steps, s) && earlier < |s.links| && later < |s.links|
    requires s.links[earlier].grant.Some? && s.links[later].grant.Some?
    requires s.links[earlier].grant.value.index < s.links[later].grant.value.index
    ensures OwedFrom(s.links[earlier]) <= s.links[later].grant.value.at <= |s.history|
    ensures var owed, at := OwedFrom(s.links[earlier]), s.links[later].grant.value.at;
      EndsWith(s.links[later].grant.value.snapshot, s.history[owed..at]) <==> at - owed <= 65536
  {
    SentBeforeAttach(steps, s, earlier, later);
    LinkInRun(steps, s, later);
    var owed, g := OwedFrom(s.links[earlier]), s.links[later].grant.value;
    SnapshotCovers(s.history, g.snapshot, owed, g.at);
  }

  lemma SentWithinClaims(link: Link, c: Context)
    requires link.grant.Some? && DeliveryOk(link, c)
    ensures SentEnd(link) <= ClaimEnd(link)
  {
    var live, rest := Frames(link.log, Live), c.inFlight + link.lost;
    assert link.claims == live + rest;
    FlattenConcat(live, rest);
  }

  lemma BoundsInRun(steps: seq<Step>, s: System, h: nat)
    requires Run(steps, s) && h < |s.links| && s.links[h].grant.Some?
    ensures SentEnd(s.links[h]) <= ClaimEnd(s.links[h]) && s.links[h].grant.value.at <= |s.history|
  {
    LinkInRun(steps, s, h);
    SentWithinClaims(s.links[h], ContextOf(s, h));
  }

  /** Whatever was sent to an earlier connection had been read before a later one attached. */
  lemma SentBeforeAttach(steps: seq<Step>, s: System, earlier: nat, later: nat)
    requires Run(steps, s) && earlier < |s.links| && later < |s.links|
    requires s.links[earlier].grant.Some? && s.links[later].grant.Some?
    requires s.links[earlier].grant.value.index < s.links[later].grant.value.index
    ensures SentEnd(s.links[earlier]) <= s.links[later].grant.value.at <= |s.history|
  {
    BoundsInRun(steps, s, earlier);
    BoundsInRun(steps, s, later);
    PairInRun(steps, s, earlier, later);
  }

  lemma SnapshotCovers(history: seq<byte>, snapshot: seq<byte>, sent: nat, at: nat)
    requires sent <= at <= |history|
    requires snapshot == LastN(history[..at], DEFAULT_REPLAY_CAPACITY)
    ensures EndsWith(snapshot, history[sent..at]) <==> at - sent <= 65536
  {
    assert snapshot == history[at - |snapshot|..at];
    if at - sent <= 65536 {
      assert snapshot[|snapshot| - (at - sent)..] == history[sent..at];
    }
  }

  lemma {:induction false} TokenIsAdmissionCount(n: nat)
    ensures TokenAt(n) == n % U64_SIZE
  {
    if n > 0 {
      TokenIsAdmissionCount(n - 1);
    }
  }

  lemma {:induction false} EarlyToken(n: nat)
    requires n < U64_SIZE
    ensures TokenAt(n) == n
  {
    if n > 0 {
      EarlyToken(n - 1);
    }
  }

  /** The installed broker always carries the latest token; admissions and effective
      releases strictly alternate, each release naming the connection just admitted. */
  lemma TokenOwnership(steps: seq<Step>, s: System)
    requires Run(steps, s)
    ensures s.guarded.broker.Some? ==> s.guarded.broker.value.token == s.guarded.attachToken
    ensures s.guarded.attachToken == s.grants % U64_SIZE
    ensures Alternating(s.events) && (s.guarded.broker.Some? <==> |s.events| % 2 == 1)
  {
    RunKeepsInv(steps, s);
    TokenIsAdmissionCount(s.grants);
    if s.guarded.broker.Some? {
      assert LinkInv(s, s.guarded.broker.value.writer);
    }
  }

  /** While fewer than 2^64 brokers were admitted, later admissions have larger tokens. */
  lemma TokensIncrease(steps: seq<Step>, s: System, i: nat, j: nat)
    requires Run(steps, s) && i < |s.links| && j < |s.links|
    requires s.links[i].grant.Some? && s.links[j].grant.Some? && s.grants < U64_SIZE
    ensures s.links[i].grant.value.token < s.links[j].grant.value.token
       <==> s.links[i].grant.value.index < s.links[j].grant.value.index
    ensures i != j ==> s.links[i].grant.value.token != s.links[j].grant.value.token
  {
    LinkInRun(steps, s, i);
    LinkInRun(steps, s, j);
    if i != j {
      PairInRun(steps, s, i, j);
    }
    EarlyToken(s.links[i].grant.value.index);
    EarlyToken(s.links[j].grant.value.index);
  }

  lemma TokenInRun(steps: seq<Step>, s: System, h: nat)
    requires Run(steps, s) && h < |s.links| && s.links[h].grant.Some?
    ensures s.links[h].grant.value.token == TokenAt(s.links[h].grant.value.index)
    ensures 1 <= s.links[h].grant.value.index <= s.grants
  {
    LinkInRun(steps, s, h);
  }

  /** The installed broker is the latest admission, and the only connection with its number. */
  lemma BrokerInRun(steps: seq<Step>, s: System, h: nat)
    requires Run(steps, s) && s.guarded.broker.Some?
    requires h < |s.links| && s.links[h].grant.Some?
    ensures s.guarded.broker.value.token == TokenAt(s.grants)
    ensures Installed(s, h) <==> s.links[h].grant.value.index == s.grants
  {
    var w := s.guarded.broker.value.writer;
    LinkInRun(steps, s, h);
    TokenInRun(steps, s, w);
    if w != h {
      PairInRun(steps, s, h, w);
    }
  }

  /** A token-checked exit removes a broker exactly when the installed one was admitted a
      whole multiple of 2^64 admissions after the leaving handler. */
  lemma ExitRemovesWhom(steps: seq<Step>, s: System, h: nat)
    requires Run(steps, s) && h < |s.links| && s.links[h].grant.Some?
    ensures Owns(s.guarded, s.links[h].grant.value.token)
       <==> s.guarded.broker.Some? && (s.grants - s.links[h].grant.value.index) % U64_SIZE == 0
    ensures s.grants < U64_SIZE ==>
      (Owns(s.guarded, s.links[h].grant.value.token) <==> Installed(s, h))
  {
    var index := s.links[h].grant.value.index;
    TokenInRun(steps, s, h);
    if s.guarded.broker.Some? {
      BrokerInRun(steps, s, h);
      SameTokenIff(s.grants, index);
    }
  }

  lemma SameTokenIff(a: nat, b: nat)
    requires b <= a
    ensures TokenAt(a) == TokenAt(b) <==> (a - b) % U64_SIZE == 0
    ensures a < U64_SIZE ==> (TokenAt(a) == TokenAt(b) <==> a == b)
  {
    TokenIsAdmissionCount(a);
    TokenIsAdmissionCount(b);
    CongruentIffMultiple(a, b);
  }

  lemma CongruentIffMultiple(a: nat, b: nat)
    requires b <= a
    ensures a % U64_SIZE == b % U64_SIZE <==> (a - b) % U64_SIZE == 0
  {
    var n := 0x1_0000_0000_0000_0000;
    var qa, qb := a / n, b / n;
    assert a == qa * n + a % n && b == qb * n + b % n;
    if a % n == b % n {
      assert a - b == (qa - qb) * n;
    }
  }
}
