/** Where the daemon falls short of a first reading of its documentation, and exactly when
    (src/daemon.rs:249-254, 263-286, 400-438): live output can get ahead of the replay, a failed
    write can evict a broker that did not fail, a handler that ends in an error leaves its
    broker installed, and the exit status can precede the last output. */
module DaemonLimits {
  import opened Basics
  import opened Replay
  import opened Daemon
  import opened DaemonRuns

  // ---------------------------------------------------------------- live output ahead of the replay

  /** The step hands a live chunk to connection `h` whose replay is still to be written. */
  predicate Overtakes(s: System, step: Step, h: nat) {
    step == Deliver(true) && s.reader.Delivering? && s.reader.writer == h && InPhase(s, h, Replaying)
  }

  /** The chunks that a schedule delivers to `h` between its admission and its replay. */
  function OvertakingChunks(steps: seq<Step>, h: nat): seq<seq<byte>>
    decreases |steps|
  {
    if steps == [] then []
    else
      var init, last := steps[..|steps| - 1], steps[|steps| - 1];
      var before := Exec(init);
      OvertakingChunks(init, h)
      + if before.Some? && Overtakes(before.value, last, h) then [before.value.reader.chunk] else []
  }

  /** The live frames that stand before the replay frame. */
  function Ahead(log: seq<Wire>): seq<seq<byte>> {
    if log == [] then []
    else
      var init, last := log[..|log| - 1], log[|log| - 1];
      if last.Data? && last.origin == Replayed then Frames(init, Live) else Ahead(init)
  }

  lemma AheadSnoc(log: seq<Wire>, frame: Wire)
    ensures Ahead(log + [frame])
         == if frame.Data? && frame.origin == Replayed then Frames(log, Live) else Ahead(log)
  {
    assert (log + [frame])[..|log|] == log;
  }

  lemma SplicedSnoc(bodies: seq<seq<byte>>, live: seq<seq<byte>>, replay: seq<seq<byte>>, k: nat, chunk: seq<byte>)
    requires Spliced(bodies, live, replay, k)
    ensures Spliced(bodies + [chunk], live + [chunk], replay, k) && (live + [chunk])[..k] == live[..k]
  {
    assert (live + [chunk])[k..] == live[k..] + [chunk];
    ConcatAssociative(live[..k] + replay, live[k..], [chunk]);
  }

  /** Data frames are the ones ahead, the replay, and the rest of the live ones. */
  lemma {:induction false} BodiesByAhead(log: seq<Wire>)
    requires |Frames(log, Replayed)| <= 1
    ensures Spliced(Bodies(log), Frames(log, Live), Frames(log, Replayed), |Ahead(log)|)
    ensures Ahead(log) == Frames(log, Live)[..|Ahead(log)|]
    decreases |log|
  {
    if log != [] {
      var init, last := log[..|log| - 1], log[|log| - 1];
      BodiesByAhead(init);
      var live := Frames(init, Live);
      if last.Data? && last.origin == Replayed {
        NothingAhead(init);
        assert Bodies(init) == live;
      } else if last.Data? {
        SplicedSnoc(Bodies(init), live, Frames(init, Replayed), |Ahead(init)|, last.bytes);
      }
    }
  }

  lemma {:induction false} NothingAhead(log: seq<Wire>)
    requires Frames(log, Replayed) == []
    ensures Ahead(log) == []
    decreases |log|
  {
    if log != [] {
      NothingAhead(log[..|log| - 1]);
    }
  }

  /** What the overtaking chunks so far say about a connection's log. */
  ghost predicate Told(link: Link, chunks: seq<seq<byte>>) {
    && (link.grant.None? ==> chunks == [])
    && (link.phase == Replaying ==> Frames(link.log, Live) == chunks)
    && (Frames(link.log, Replayed) != [] ==> Ahead(link.log) == chunks)
  }

  lemma PhaseTold(link: Link, chunks: seq<seq<byte>>, phase: Phase)
    requires Told(link, chunks) && phase != Replaying
    ensures Told(link.(phase := phase), chunks)
  {
  }

  lemma NoticeTold(link: Link, chunks: seq<seq<byte>>, frame: Wire)
    requires Told(link, chunks) && !frame.Data?
    ensures Told(link.(log := link.log + [frame]), chunks)
  {
    FramesSnoc(link.log, frame, Live);
    FramesSnoc(link.log, frame, Replayed);
    AheadSnoc(link.log, frame);
  }

  lemma LiveTold(link: Link, chunks: seq<seq<byte>>, chunk: seq<byte>)
    requires Told(link, chunks) && link.grant.Some?
    requires link.phase == Replaying ==> Frames(link.log, Replayed) == []
    ensures Told(link.(log := link.log + [Data(Live, chunk)]), chunks + if link.phase == Replaying then [chunk] else [])
  {
    FramesSnoc(link.log, Data(Live, chunk), Live);
    FramesSnoc(link.log, Data(Live, chunk), Replayed);
    AheadSnoc(link.log, Data(Live, chunk));
  }

  lemma ReplayTold(link: Link, chunks: seq<seq<byte>>, snapshot: seq<byte>)
    requires Told(link, chunks) && link.phase == Replaying && link.grant.Some?
    ensures Told(link.(phase := Forwarding, log := link.log + [Data(Replayed, snapshot)]), chunks)
  {
    AheadSnoc(link.log, Data(Replayed, snapshot));
  }

  /** The part of a connection's invariant that the account of overtaking rests on. */
  lemma LinkPhases(s: System, h: nat)
    requires h < |s.links| && LinkInv(s, h)
    ensures var link := s.links[h];
      && (link.phase == Replaying ==> link.grant.Some? && Frames(link.log, Replayed) == [])
      && (link.phase == Connecting ==> link.grant.None?)
      && (link.grant.None? ==> Frames(link.log, Live) == [] && Frames(link.log, Replayed) == [])
  {
  }

  lemma DeliverTold(s: System, ok: bool, h: nat, chunks: seq<seq<byte>>)
    requires BrokerInv(s) && Enabled(s, Deliver(ok)) && h == s.reader.writer && LinkInv(s, h)
    requires Told(s.links[h], chunks)
    ensures Told(ApplyDeliver(s, ok).links[h],
                 chunks + if Overtakes(s, Deliver(ok), h) then [s.reader.chunk] else [])
  {
    LinkPhases(s, h);
    if ok {
      LiveTold(s.links[h], chunks, s.reader.chunk);
    } else {
      assert chunks + [] == chunks;
    }
  }

  lemma AttachTold(s: System, h: nat, chunks: seq<seq<byte>>)
    requires Enabled(s, Attach(h)) && LinkInv(s, h) && Told(s.links[h], chunks)
    ensures Told(ApplyAttach(s, h).links[h], chunks)
  {
    LinkPhases(s, h);
    PhaseTold(s.links[h], chunks, Gone);
  }

  lemma WriteReplayTold(s: System, h: nat, ok: bool, chunks: seq<seq<byte>>)
    requires Enabled(s, WriteReplay(h, ok)) && Told(s.links[h], chunks)
    ensures Told(ApplyWriteReplay(s, h, ok).links[h], chunks)
  {
    var snapshot := s.links[h].grant.value.snapshot;
    if snapshot != [] && ok {
      ReplayTold(s.links[h], chunks, snapshot);
    } else {
      PhaseTold(s.links[h], chunks, if snapshot == [] then Forwarding else Gone);
    }
  }

  lemma TouchedTold(s: System, step: Step, h: nat, chunks: seq<seq<byte>>)
    requires BrokerInv(s) && Enabled(s, step) && h < |s.links| && LinkInv(s, h) && Told(s.links[h], chunks)
    requires Touched(s, step) == Some(h) && !step.Deliver?
    ensures h < |Apply(s, step).links| && Told(Apply(s, step).links[h], chunks)
  {
    StepFrame(s, step, h);
    match step
    case Attach(_) => AttachTold(s, h, chunks);
    case ResizeFails(_) => PhaseTold(s.links[h], chunks, ResizeFailed);
    case WriteReplay(_, ok) => WriteReplayTold(s, h, ok, chunks);
    case SessionEnds(_, clean) => PhaseTold(s.links[h], chunks, if clean then Leaving else Gone);
    case Leave(_, now) => PhaseTold(s.links[h], chunks, Gone);
    case ReadPty(chunk) =>
    case Report(ok) => NoticeTold(s.links[h], chunks, ExitStatus);
    case Farewell(_, ok) => NoticeTold(s.links[h], chunks, ClientShouldExit);
  }

  lemma StepTold(s: System, step: Step, h: nat, chunks: seq<seq<byte>>)
    requires BrokerInv(s) && Enabled(s, step) && h < |s.links| && LinkInv(s, h) && Told(s.links[h], chunks)
    ensures h < |Apply(s, step).links|
    ensures Told(Apply(s, step).links[h], chunks + if Overtakes(s, step, h) then [s.reader.chunk] else [])
  {
    StepFrame(s, step, h);
    if Touched(s, step) == Some(h) && step.Deliver? {
      DeliverTold(s, step.ok, h, chunks);
    } else {
      assert chunks + [] == chunks;
      if Touched(s, step) == Some(h) {
        TouchedTold(s, step, h, chunks);
      }
    }
  }

  lemma NewLinkIsFresh(s: System, step: Step, h: nat)
    requires BrokerInv(s) && Enabled(s, step) && |s.links| <= h < |Apply(s, step).links|
    ensures Apply(s, step).links[h] == FRESH_LINK
  {
    StepFramed(s, step);
  }

  lemma {:induction false} NotYetOvertaken(steps: seq<Step>, s: System, h: nat)
    requires Run(steps, s) && |s.links| <= h
    ensures OvertakingChunks(steps, h) == []
    decreases |steps|
  {
    if steps != [] {
      var init := steps[..|steps| - 1];
      var before := Exec(init).value;
      RunKeepsInv(init, before);
      StepFramed(before, steps[|steps| - 1]);
      NotYetOvertaken(init, before, h);
    }
  }

  lemma {:induction false} RunIsTold(steps: seq<Step>, s: System, h: nat)
    requires Run(steps, s) && h < |s.links|
    ensures Told(s.links[h], OvertakingChunks(steps, h))
    decreases |steps|
  {
    if steps != [] {
      var init, last := steps[..|steps| - 1], steps[|steps| - 1];
      var before := Exec(init).value;
      RunKeepsInv(init, before);
      if h < |before.links| {
        RunIsTold(init, before, h);
        StepTold(before, last, h, OvertakingChunks(init, h));
      } else {
        NotYetOvertaken(init, before, h);
        NewLinkIsFresh(before, last, h);
      }
    }
  }

  /** In every run: the live frames that stand before a connection's replay frame are exactly
      the chunks delivered to it while it was still replaying. So the replay is its first data
      frame if and only if no delivery fell between its admission and its replay. */
  lemma AheadIsOvertaking(steps: seq<Step>, s: System, h: nat)
    requires Run(steps, s) && h < |s.links| && Frames(s.links[h].log, Replayed) != []
    ensures Ahead(s.links[h].log) == OvertakingChunks(steps, h)
  {
    RunIsTold(steps, s, h);
  }

  lemma SliceStarts(history: seq<byte>, at: nat, to: nat, first: seq<byte>, rest: seq<byte>)
    requires at <= to <= |history| && history[at..to] == first + rest
    ensures at + |first| <= to && history[at..at + |first|] == first
  {
    assert |first + rest| == to - at;
    assert history[at..at + |first|] == history[at..to][..|first|];
  }

  lemma DeliveredStarts(
    claims: seq<seq<byte>>, live: seq<seq<byte>>, inFlight: seq<seq<byte>>, lost: seq<seq<byte>>,
    history: seq<byte>, at: nat, to: nat)
    requires claims == live + inFlight + lost && at <= to <= |history| && Flatten(claims) == history[at..to]
    ensures at + |Flatten(live)| <= to && history[at..at + |Flatten(live)|] == Flatten(live)
  {
    ConcatAssociative(live, inFlight, lost);
    FlattenConcat(live, inFlight + lost);
    SliceStarts(history, at, to, Flatten(live), Flatten(inFlight + lost));
  }

  lemma LiveIsHistory(link: Link, c: Context)
    requires link.grant.Some? && DeliveryOk(link, c) && ClaimOk(link, c)
    ensures link.grant.value.at <= SentEnd(link) <= |c.history|
    ensures Flatten(Frames(link.log, Live)) == c.history[link.grant.value.at..SentEnd(link)]
  {
    DeliveredStarts(link.claims, Frames(link.log, Live), c.inFlight, link.lost,
                    c.history, link.grant.value.at, ClaimEnd(link));
  }

  lemma LiveInRun(steps: seq<Step>, s: System, h: nat)
    requires Run(steps, s) && h < |s.links| && s.links[h].grant.Some?
    ensures var link, g := s.links[h], s.links[h].grant.value;
      && |g.snapshot| <= g.at <= SentEnd(link) <= |s.history|
      && g.snapshot == s.history[g.at - |g.snapshot|..g.at]
      && Flatten(Frames(link.log, Live)) == s.history[g.at..SentEnd(link)]
      && (Frames(link.log, Replayed) == [] || Frames(link.log, Replayed) == [g.snapshot])
      && (g.snapshot == [] ==> Frames(link.log, Replayed) == [])
  {
    LinkInRun(steps, s, h);
    LiveIsHistory(s.links[h], ContextOf(s, h));
    var g := s.links[h].grant.value;
    assert g.snapshot == s.history[..g.at][g.at - |g.snapshot|..];
  }

  /** With an empty snapshot, or as long as the replay is not written, the stream is the history
      from the admission on. */
  lemma UnreplayedIsInOrder(steps: seq<Step>, s: System, h: nat)
    requires Run(steps, s) && h < |s.links| && s.links[h].grant.Some?
    requires s.links[h].grant.value.snapshot == [] || Frames(s.links[h].log, Replayed) == []
    ensures var link, at := s.links[h], s.links[h].grant.value.at;
      at <= SentEnd(link) <= |s.history| && Flatten(Bodies(link.log)) == s.history[at..SentEnd(link)]
  {
    LiveInRun(steps, s, h);
    var log := s.links[h].log;
    BodiesByAhead(log);
    NothingAhead(log);
    assert Bodies(log) == Frames(log, Live);
  }

  lemma SplicedFlat(bodies: seq<seq<byte>>, live: seq<seq<byte>>, replay: seq<byte>, k: nat)
    requires Spliced(bodies, live, [replay], k)
    ensures Flatten(bodies) == Flatten(live[..k]) + replay + Flatten(live[k..])
    ensures Flatten(live) == Flatten(live[..k]) + Flatten(live[k..])
  {
    FlattenConcat(live[..k] + [replay], live[k..]);
    FlattenSnoc(live[..k], replay);
    FlattenConcat(live[..k], live[k..]);
    assert live == live[..k] + live[k..];
  }

  lemma Cancel(ahead: seq<byte>, replay: seq<byte>, behind: seq<byte>)
    ensures ahead + replay + behind == replay + (ahead + behind) <==> ahead + replay == replay + ahead
  {
    ConcatAssociative(replay, ahead, behind);
    if ahead + replay + behind == replay + ahead + behind {
      assert ahead + replay == (ahead + replay + behind)[..|ahead| + |replay|];
      assert replay + ahead == (replay + ahead + behind)[..|ahead| + |replay|];
    }
  }

  lemma HistorySlices(history: seq<byte>, from: nat, at: nat, to: nat)
    requires from <= at <= to <= |history|
    ensures history[from..to] == history[from..at] + history[at..to]
  {
  }

  /** The stream and the history, both cut at the replay. */
  lemma StreamPieces(steps: seq<Step>, s: System, h: nat) returns (behind: seq<byte>)
    requires Run(steps, s) && h < |s.links| && s.links[h].grant.Some? && Frames(s.links[h].log, Replayed) != []
    ensures var link, g := s.links[h], s.links[h].grant.value;
      var ahead := Flatten(OvertakingChunks(steps, h));
      && |g.snapshot| <= g.at <= SentEnd(link) <= |s.history|
      && Flatten(Bodies(link.log)) == ahead + g.snapshot + behind
      && s.history[g.at - |g.snapshot|..SentEnd(link)] == g.snapshot + (ahead + behind)
  {
    var link, g := s.links[h], s.links[h].grant.value;
    LiveInRun(steps, s, h);
    AheadIsOvertaking(steps, s, h);
    BodiesByAhead(link.log);
    var live, k := Frames(link.log, Live), |Ahead(link.log)|;
    SplicedFlat(Bodies(link.log), live, g.snapshot, k);
    HistorySlices(s.history, g.at - |g.snapshot|, g.at, SentEnd(link));
    behind := Flatten(live[k..]);
  }

  /** For every connection whose replay was written, in every run: the client reads the history
      in order, from the start of the snapshot to the last byte sent, if and only if the chunks
      delivered before the replay commute with the snapshot; no such chunk is enough. */
  lemma StreamInOrderIff(steps: seq<Step>, s: System, h: nat)
    requires Run(steps, s) && h < |s.links| && s.links[h].grant.Some? && Frames(s.links[h].log, Replayed) != []
    ensures var link, g := s.links[h], s.links[h].grant.value;
      var ahead := Flatten(OvertakingChunks(steps, h));
      && |g.snapshot| <= g.at <= SentEnd(link) <= |s.history|
      && ((Flatten(Bodies(link.log)) == s.history[g.at - |g.snapshot|..SentEnd(link)])
          <==> (ahead + g.snapshot == g.snapshot + ahead))
      && (OvertakingChunks(steps, h) == [] ==> ahead + g.snapshot == g.snapshot + ahead)
  {
    var behind := StreamPieces(steps, s, h);
    var snapshot := s.links[h].grant.value.snapshot;
    Cancel(Flatten(OvertakingChunks(steps, h)), snapshot, behind);
    EmptyCommutes(snapshot);
  }

  lemma EmptyCommutes(snapshot: seq<byte>)
    ensures Flatten<byte>([]) + snapshot == snapshot + Flatten<byte>([])
  {
  }

  // ---------------------------------------------------------------- whom an eviction hits

  lemma EventsGrow(s: System, step: Step)
    requires Enabled(s, step)
    ensures s.events <= Apply(s, step).events
  {
    match step
    case Attach(_) =>
    case Leave(_, _) =>
    case Evict(_) =>
    case ControlDetach(_) =>
    case _ =>
  }

  /** The PTY reader holds a chunk it claimed for `writer`, or has just failed to write it. */
  predicate Holds(s: System, writer: nat) {
    (s.reader.Delivering? || s.reader.Evicting?) && s.reader.writer == writer
  }

  lemma HeldSince(s: System, step: Step, writer: nat)
    requires Enabled(s, step) && Holds(Apply(s, step), writer)
    ensures Holds(s, writer) || (step.ReadPty? && Installed(s, writer) && Apply(s, step).events == s.events)
  {
    match step
    case ReadPty(_) =>
    case Deliver(_) =>
    case WriteReplay(_, _) =>
    case _ =>
  }

  /** The step at which the chunk was claimed. */
  lemma {:induction false} ClaimedAt(steps: seq<Step>, s: System, writer: nat) returns (c: nat, t: System)
    requires Run(steps, s) && Holds(s, writer)
    ensures c < |steps| && steps[c].ReadPty? && Run(steps[..c], t) && Installed(t, writer) && t.events <= s.events
    decreases |steps|
  {
    var init, last := steps[..|steps| - 1], steps[|steps| - 1];
    var before := Exec(init).value;
    HeldSince(before, last, writer);
    EventsGrow(before, last);
    if Holds(before, writer) {
      c, t := ClaimedAt(init, before, writer);
      assert steps[..c] == init[..c];
    } else {
      c, t := |init|, before;
      assert steps[..c] == init;
    }
  }

  /** Every admission ever is on record, and no connection is admitted twice. */
  ghost predicate GrantsRecorded(s: System) {
    forall i :: 0 <= i < |s.events| && s.events[i].Granted? ==> (
      s.events[i].writer < |s.links| && s.links[s.events[i].writer].grant.Some?)
  }

  ghost predicate GrantedOnce(events: seq<Event>) {
    forall i, j :: 0 <= i < j < |events| && events[i].Granted? && events[j].Granted? ==> (
      events[i].writer != events[j].writer)
  }

  lemma GrantsStay(s: System, step: Step, h: nat)
    requires BrokerInv(s) && Enabled(s, step) && h < |s.links| && s.links[h].grant.Some? && LinkInv(s, h)
    ensures h < |Apply(s, step).links| && Apply(s, step).links[h].grant.Some?
  {
    StepFrame(s, step, h);
    match step
    case Attach(_) =>
    case ReadPty(_) =>
    case _ =>
  }

  /** The events a step adds. */
  lemma NewEvents(s: System, step: Step)
    requires Enabled(s, step)
    ensures Apply(s, step).events == s.events
         || (exists w :: Apply(s, step).events == s.events + [Released(w)])
         || (step.Attach? && s.guarded.broker.None? && Apply(s, step).events == s.events + [Granted(step.h)]
             && Apply(s, step).links[step.h].grant.Some?)
  {
    match step
    case Attach(_) =>
    case Leave(_, _) =>
    case Evict(_) =>
    case ControlDetach(_) =>
    case _ =>
  }

  lemma RecordKept(s: System, step: Step)
    requires BrokerInv(s) && Enabled(s, step) && GrantsRecorded(s) && GrantedOnce(s.events)
    requires forall h :: 0 <= h < |s.links| ==> LinkInv(s, h)
    ensures GrantsRecorded(Apply(s, step)) && GrantedOnce(Apply(s, step).events)
  {
    var s' := Apply(s, step);
    NewEvents(s, step);
    EventsGrow(s, step);
    forall i | 0 <= i < |s'.events| && s'.events[i].Granted?
      ensures s'.events[i].writer < |s'.links| && s'.links[s'.events[i].writer].grant.Some?
    {
      if i < |s.events| {
        assert s'.events[i] == s.events[i];
        GrantsStay(s, step, s.events[i].writer);
      }
    }
    if step.Attach? && s'.events == s.events + [Granted(step.h)] {
      LinkPhases(s, step.h);
      assert forall i :: 0 <= i < |s.events| && s.events[i].Granted? ==> s.events[i].writer != step.h;
    }
  }

  lemma {:induction false} RunRecords(steps: seq<Step>, s: System)
    requires Run(steps, s)
    ensures GrantsRecorded(s) && GrantedOnce(s.events)
    decreases |steps|
  {
    if steps != [] {
      var before := Exec(steps[..|steps| - 1]).value;
      RunRecords(steps[..|steps| - 1], before);
      RunKeepsInv(steps[..|steps| - 1], before);
      RecordKept(before, steps[|steps| - 1]);
    }
  }

  predicate EndsGranted(events: seq<Event>, writer: nat) {
    events != [] && events[|events| - 1] == Granted(writer)
  }

  lemma EventsInRun(steps: seq<Step>, s: System)
    requires Run(steps, s)
    ensures EventInv(s) && GrantedOnce(s.events)
  {
    RunKeepsInv(steps, s);
    RunRecords(steps, s);
  }

  lemma WhoIsInstalled(earlier: seq<Event>, s: System, writer: nat)
    requires EventInv(s) && GrantedOnce(s.events)
    requires earlier <= s.events && |earlier| % 2 == 1 && EndsGranted(earlier, writer)
    ensures Installed(s, writer) <==> s.events == earlier
    ensures Installed(s, writer) <==> EndsGranted(s.events, writer)
    ensures |earlier| < |s.events| ==> s.events[|earlier|] == Released(writer)
  {
    var k := |earlier|;
    assert s.events[k - 1] == Granted(writer);
    if k < |s.events| {
      assert AlternatesAt(s.events, k);
    } else {
      assert s.events == earlier;
    }
  }

  /** Whom the eviction after a failed write removes, in every run. Let `c` be the step at which
      the chunk was claimed, when its writer was installed. The failing writer's own broker is
      removed if and only if it is still installed, that is, if and only if nothing was admitted
      or released since the claim; somebody else's if and only if since then the writer was
      released and a later admission is in force; and otherwise nobody's. */
  lemma EvictionHitsWhom(steps: seq<Step>, s: System, now: nat) returns (c: nat, t: System)
    requires Run(steps, s) && Enabled(s, Evict(now))
    ensures c < |steps| && steps[c].ReadPty? && Run(steps[..c], t) && Installed(t, s.reader.writer)
    ensures t.events <= s.events
    ensures var w, after := s.reader.writer, Apply(s, Evict(now));
      && after.guarded.broker.None?
      && (after.events == s.events + [Released(w)] <==> Installed(s, w))
      && (Installed(s, w) <==> s.events == t.events)
      && (Installed(s, w) <==> EndsGranted(s.events, w))
      && (s.guarded.broker.Some? && !Installed(s, w) <==> (
            |t.events| + 2 <= |s.events| && s.events[|t.events|] == Released(w) && s.events[|s.events| - 1].Granted?))
  {
    c, t := ClaimedAt(steps, s, s.reader.writer);
    EventsInRun(steps, s);
    EventsInRun(steps[..c], t);
    WhoIsInstalled(t.events, s, s.reader.writer);
    ParityOfLast(s);
    EvictReleases(s, now, s.reader.writer);
  }

  lemma EvictReleases(s: System, now: nat, writer: nat)
    requires Enabled(s, Evict(now))
    ensures Apply(s, Evict(now)).guarded.broker.None?
    ensures Apply(s, Evict(now)).events == s.events + [Released(writer)] <==> Installed(s, writer)
  {
    var after := Apply(s, Evict(now)).events;
    if s.guarded.broker.Some? {
      assert after == s.events + [Released(s.guarded.broker.value.writer)];
      assert after[|s.events|] == Released(s.guarded.broker.value.writer);
      assert (s.events + [Released(writer)])[|s.events|] == Released(writer);
    } else {
      assert |after| != |s.events + [Released(writer)]|;
    }
  }

  lemma ParityOfLast(s: System)
    requires EventInv(s) && s.events != []
    ensures s.guarded.broker.Some? <==> s.events[|s.events| - 1].Granted?
  {
    assert AlternatesAt(s.events, |s.events| - 1);
  }

  // ---------------------------------------------------------------- brokers without a handler

  /** A handler that ended in an error leaves its broker installed: nothing but an eviction or a
      detach request removes it. */
  lemma AbandonedBrokerStays(steps: seq<Step>, s: System, h: nat, step: Step)
    requires Run(steps, s) && h < |s.links| && Installed(s, h) && s.links[h].phase == Gone
    requires Enabled(s, step) && s.grants < U64_SIZE
    ensures Installed(Apply(s, step), h) <==> !step.Evict? && !step.ControlDetach?
  {
    match step
    case Leave(h', _) => ExitRemovesWhom(steps, s, h');
    case Attach(_) =>
    case WriteReplay(_, _) =>
    case ReadPty(_) =>
    case Deliver(_) =>
    case _ =>
  }

  // ---------------------------------------------------------------- output behind the exit status

  /** Records only grow. */
  ghost predicate Grown(a: Link, b: Link) {
    a.log <= b.log && a.claims <= b.claims && a.lost <= b.lost
  }

  /** The step writes the exit status to connection `h`. */
  predicate Reports(s: System, step: Step, h: nat) {
    step == Report(true) && s.waiter == Reporting(h)
  }

  ghost predicate StepGrowth(s: System, step: Step, h: nat, after: Link)
    requires h < |s.links|
  {
    && Grown(s.links[h], after)
    && (Reports(s, step, h) ==> after.log == s.links[h].log + [ExitStatus])
    && (ExitStatus in after.log ==> ExitStatus in s.links[h].log || Reports(s, step, h))
  }

  lemma WriteReplayGrowth(s: System, h: nat, ok: bool)
    requires Enabled(s, WriteReplay(h, ok))
    ensures StepGrowth(s, WriteReplay(h, ok), h, ApplyWriteReplay(s, h, ok).links[h])
  {
  }

  lemma DeliverGrowth(s: System, ok: bool, h: nat)
    requires Enabled(s, Deliver(ok)) && h == s.reader.writer
    ensures StepGrowth(s, Deliver(ok), h, ApplyDeliver(s, ok).links[h])
  {
  }

  lemma StepGrows(s: System, step: Step, h: nat)
    requires BrokerInv(s) && Enabled(s, step) && h < |s.links|
    ensures h < |Apply(s, step).links| && StepGrowth(s, step, h, Apply(s, step).links[h])
  {
    StepFrame(s, step, h);
    if Touched(s, step) == Some(h) {
      match step
      case Attach(_) =>
      case ResizeFails(_) =>
      case WriteReplay(_, ok) => WriteReplayGrowth(s, h, ok);
      case SessionEnds(_, _) =>
      case Leave(_, _) =>
      case ReadPty(_) =>
      case Deliver(ok) => DeliverGrowth(s, ok, h);
      case Report(_) =>
      case Farewell(_, _) =>
    }
  }

  /** The step at which an exit status on the wire was written. */
  lemma {:induction false} ReportedAt(steps: seq<Step>, s: System, h: nat) returns (r: nat, t: System)
    requires Run(steps, s) && h < |s.links| && ExitStatus in s.links[h].log
    ensures r < |steps| && Run(steps[..r], t) && h < |t.links| && Reports(t, steps[r], h)
    ensures Grown(t.links[h], s.links[h]) && t.links[h].log + [ExitStatus] <= s.links[h].log
    decreases |steps|
  {
    var init, last := steps[..|steps| - 1], steps[|steps| - 1];
    var before := Exec(init).value;
    RunKeepsInv(init, before);
    if h < |before.links| {
      StepGrows(before, last, h);
      if ExitStatus in before.links[h].log {
        r, t := ReportedAt(init, before, h);
        assert steps[..r] == init[..r];
      } else {
        r, t := |init|, before;
        assert steps[..r] == init;
      }
    } else {
      NewLinkIsFresh(before, last, h);
    }
  }

  lemma {:induction false} FramesConcat(a: seq<Wire>, b: seq<Wire>, origin: Origin)
    ensures Frames(a + b, origin) == Frames(a, origin) + Frames(b, origin)
    decreases |b|
  {
    if b == [] {
      assert a + b == a;
    } else {
      var init, last := b[..|b| - 1], b[|b| - 1];
      FramesConcat(a, init, origin);
      FramesSnoc(a + init, last, origin);
      assert a + b == a + init + [last];
    }
  }

  /** The live frames behind the first `n` frames and the exit status. */
  function Behind(log: seq<Wire>, n: nat): seq<seq<byte>>
    requires n < |log|
  {
    Frames(log[n + 1..], Live)
  }

  lemma BehindIsRest(earlier: seq<Wire>, log: seq<Wire>)
    requires earlier + [ExitStatus] <= log
    ensures Frames(log, Live) == Frames(earlier, Live) + Behind(log, |earlier|)
  {
    var n := |earlier|;
    assert log == earlier + [ExitStatus] + log[n + 1..];
    FramesConcat(earlier + [ExitStatus], log[n + 1..], Live);
    FramesSnoc(earlier, ExitStatus, Live);
  }

  lemma DeliveryInRun(steps: seq<Step>, s: System, h: nat)
    requires Run(steps, s) && h < |s.links|
    ensures s.links[h].claims == Frames(s.links[h].log, Live) + InFlight(s, h) + s.links[h].lost
  {
    LinkInRun(steps, s, h);
  }

  /** Output behind the exit status, for every run in which all that was claimed for `h` has been
      written: let `r` be the step that wrote the exit status. No output stands behind it if and
      only if at `r` no chunk for `h` was being written and none was claimed for it since. */
  lemma ExitStatusIsLastIff(steps: seq<Step>, s: System, h: nat) returns (r: nat, t: System)
    requires Run(steps, s) && h < |s.links| && ExitStatus in s.links[h].log
    requires InFlight(s, h) == [] && s.links[h].lost == []
    ensures r < |steps| && Run(steps[..r], t) && h < |t.links| && Reports(t, steps[r], h)
    ensures t.links[h].log + [ExitStatus] <= s.links[h].log
    ensures Behind(s.links[h].log, |t.links[h].log|) == []
       <==> InFlight(t, h) == [] && t.links[h].claims == s.links[h].claims
  {
    r, t := ReportedAt(steps, s, h);
    DeliveryInRun(steps, s, h);
    DeliveryInRun(steps[..r], t, h);
    BehindIsRest(t.links[h].log, s.links[h].log);
    AllWritten(Frames(t.links[h].log, Live), Behind(s.links[h].log, |t.links[h].log|), InFlight(t, h),
               t.links[h].claims, s.links[h].claims);
  }

  lemma AllWritten(
    written: seq<seq<byte>>, behind: seq<seq<byte>>, inFlight: seq<seq<byte>>, claims: seq<seq<byte>>,
    later: seq<seq<byte>>)
    requires claims == written + inFlight && claims <= later && later == written + behind
    ensures behind == [] <==> inFlight == [] && claims == later
  {
    assert |later| == |written| + |behind| && |claims| == |written| + |inFlight|;
  }

  // ---------------------------------------------------------------- runs that show it

  lemma ExecSnoc(steps: seq<Step>, s: System, step: Step)
    requires Run(steps, s) && Enabled(s, step)
    ensures Run(steps + [step], Apply(s, step))
  {
    assert (steps + [step])[..|steps|] == steps;
  }

  /** Connection 0 is the installed broker, its replay of [1] not written yet. */
  const ATTACHED := System(
    Guarded([1], Some(AttachedBroker(1, 0)), 1, None, false), Reading, Waiting,
    [Link(Replaying, Some(Grant(1, 1, 1, [1])), [], [], [])], multiset{}, [1], 1, [Granted(0)])

  lemma ReachAttached()
    ensures Run([Connect, ReadPty([1]), Attach(0)], ATTACHED)
  {
    var s1 := START.(links := [FRESH_LINK]);
    ExecSnoc([], START, Connect);
    assert Apply(START, Connect) == s1 && [] + [Connect] == [Connect];
    var s2 := s1.(guarded := Guarded([1], None, 0, None, false), history := [1]);
    assert Apply(s1, ReadPty([1])) == s2;
    ExecSnoc([Connect], s1, ReadPty([1]));
    assert [Connect] + [ReadPty([1])] == [Connect, ReadPty([1])];
    assert Apply(s2, Attach(0)) == ATTACHED;
    ExecSnoc([Connect, ReadPty([1])], s2, Attach(0));
    assert [Connect, ReadPty([1])] + [Attach(0)] == [Connect, ReadPty([1]), Attach(0)];
  }

  /** The chunk [2], printed after the attach, is already on its way to connection 0. */
  const OVERTAKING := ATTACHED.(
    guarded := Guarded([1, 2], Some(AttachedBroker(1, 0)), 1, None, false),
    reader := Delivering(0, [2]),
    links := [Link(Replaying, Some(Grant(1, 1, 1, [1])), [[2]], [], [])],
    history := [1, 2])

  const OVERTAKEN := OVERTAKING.(
    reader := Reading,
    links := [Link(Replaying, Some(Grant(1, 1, 1, [1])), [[2]], [], [Data(Live, [2])])])

  lemma ReachOvertaking() returns (steps: seq<Step>)
    ensures Run(steps, OVERTAKING)
  {
    ReachAttached();
    steps := [Connect, ReadPty([1]), Attach(0)];
    ExecSnoc(steps, ATTACHED, ReadPty([2]));
    steps := steps + [ReadPty([2])];
    var s := Apply(ATTACHED, ReadPty([2]));
    assert s.links[0].claims == [[2]];
    assert s.links == OVERTAKING.links;
    assert s.guarded == OVERTAKING.guarded;
  }

  lemma ReachOvertaken() returns (steps: seq<Step>)
    ensures Run(steps, OVERTAKEN)
  {
    steps := ReachOvertaking();
    ExecSnoc(steps, OVERTAKING, Deliver(true));
    steps := steps + [Deliver(true)];
    var s := Apply(OVERTAKING, Deliver(true));
    assert s.links[0].log == [Data(Live, [2])];
    assert s.links == OVERTAKEN.links;
  }

  /** A broker is published before its replay is written, so live output can get ahead: the
      client of this run reads 2 then 1 although the shell printed 1 then 2. */
  lemma LiveCanOvertakeReplay() returns (steps: seq<Step>, s: System)
    ensures Run(steps, s) && s.history == [1, 2]
    ensures |s.links| == 1 && Bodies(s.links[0].log) == [[2], [1]]
  {
    steps := ReachOvertaken();
    ExecSnoc(steps, OVERTAKEN, WriteReplay(0, true));
    steps, s := steps + [WriteReplay(0, true)], Apply(OVERTAKEN, WriteReplay(0, true));
    assert s.links[0].log == [Data(Live, [2])] + [Data(Replayed, [1])];
    assert s.links[0].log[..1] == [Data(Live, [2])];
    assert Bodies([Data(Live, [2])]) == [[2]];
  }

  /** The same daemon after a chunk for connection 0 could not be written. */
  const BROKEN := ATTACHED.(
    guarded := Guarded([1, 2], Some(AttachedBroker(1, 0)), 1, None, false),
    reader := Evicting(0),
    links := [Link(Replaying, Some(Grant(1, 1, 1, [1])), [[2]], [[2]], [])],
    history := [1, 2])

  lemma ReachBroken() returns (steps: seq<Step>)
    ensures Run(steps, BROKEN)
  {
    steps := ReachOvertaking();
    ExecSnoc(steps, OVERTAKING, Deliver(false));
    steps := steps + [Deliver(false)];
    var s := Apply(OVERTAKING, Deliver(false));
    assert s.links[0].lost == [[2]];
    assert s.links == BROKEN.links;
  }

  /** A failed write evicts whichever broker is installed by then. Here connection 0 breaks,
      is detached, and connection 1, whose writes never failed, loses its place. */
  lemma EvictionCanHitAnInnocentBroker() returns (steps: seq<Step>, s: System)
    ensures Run(steps, s) && |s.links| == 2
    ensures s.events == [Granted(0), Released(0), Granted(1), Released(1)]
    ensures s.links[1].claims == [] && s.links[1].lost == []
  {
    steps := ReachBroken();
    s := BROKEN;
    ExecSnoc(steps, s, ControlDetach(0));
    steps, s := steps + [ControlDetach(0)], Apply(s, ControlDetach(0));
    ExecSnoc(steps, s, Connect);
    steps, s := steps + [Connect], Apply(s, Connect);
    assert s.links[1] == FRESH_LINK;
    ExecSnoc(steps, s, Attach(1));
    steps, s := steps + [Attach(1)], Apply(s, Attach(1));
    ExecSnoc(steps, s, Evict(0));
    steps, s := steps + [Evict(0)], Apply(s, Evict(0));
  }

  /** Connection 0 attached to a silent shell. */
  const QUIET := System(
    Guarded([], Some(AttachedBroker(1, 0)), 1, None, false), Reading, Waiting,
    [Link(Replaying, Some(Grant(1, 1, 0, [])), [], [], [])], multiset{}, [], 1, [Granted(0)])

  lemma ReachQuiet()
    ensures Run([Connect, Attach(0)], QUIET)
  {
    var s1 := START.(links := [FRESH_LINK]);
    ExecSnoc([], START, Connect);
    assert Apply(START, Connect) == s1 && [] + [Connect] == [Connect];
    assert Apply(s1, Attach(0)) == QUIET;
    ExecSnoc([Connect], s1, Attach(0));
    assert [Connect] + [Attach(0)] == [Connect, Attach(0)];
  }

  /** An error while forwarding input ends the handler and leaves its broker installed, so that
      the next client is told the session is busy. */
  lemma ErrorExitBlocksTheNextClient() returns (steps: seq<Step>, s: System)
    ensures Run(steps, s) && |s.links| == 2
    ensures Installed(s, 0) && s.links[0].phase == Gone
    ensures s.links[1].phase == Gone && s.links[1].grant.None?
  {
    ReachQuiet();
    steps, s := [Connect, Attach(0)], QUIET;
    ExecSnoc(steps, s, WriteReplay(0, true));
    steps, s := steps + [WriteReplay(0, true)], Apply(s, WriteReplay(0, true));
    ExecSnoc(steps, s, SessionEnds(0, false));
    steps, s := steps + [SessionEnds(0, false)], Apply(s, SessionEnds(0, false));
    ExecSnoc(steps, s, Connect);
    steps, s := steps + [Connect], Apply(s, Connect);
    assert s.links[1] == FRESH_LINK;
    ExecSnoc(steps, s, Attach(1));
    steps, s := steps + [Attach(1)], Apply(s, Attach(1));
  }

  /** The shell's last output is claimed but not written when the shell exits. */
  const EXITING := QUIET.(
    guarded := Guarded([7], Some(AttachedBroker(1, 0)), 1, None, true),
    reader := Delivering(0, [7]),
    waiter := Reporting(0),
    links := [Link(Replaying, Some(Grant(1, 1, 0, [])), [[7]], [], [])],
    history := [7])

  lemma ReachExiting() returns (steps: seq<Step>)
    ensures Run(steps, EXITING)
  {
    ReachQuiet();
    steps := [Connect, Attach(0)];
    ExecSnoc(steps, QUIET, ReadPty([7]));
    var s := Apply(QUIET, ReadPty([7]));
    assert s.links[0].claims == [[7]];
    assert s.links == EXITING.links;
    steps := steps + [ReadPty([7])];
    ExecSnoc(steps, s, ChildExit);
    assert s.guarded.replay == [7];
    assert Apply(s, ChildExit) == EXITING;
    steps := steps + [ChildExit];
  }

  /** The exit status goes out first. */
  lemma ExitStatusCanOvertakeOutput() returns (steps: seq<Step>, s: System)
    ensures Run(steps, s) && s.history == [7]
    ensures |s.links| == 1 && s.links[0].log == [ExitStatus, Data(Live, [7])]
  {
    steps := ReachExiting();
    ExecSnoc(steps, EXITING, Report(true));
    steps, s := steps + [Report(true)], Apply(EXITING, Report(true));
    assert s.links[0].log == [ExitStatus];
    ExecSnoc(steps, s, Deliver(true));
    steps, s := steps + [Deliver(true)], Apply(s, Deliver(true));
    assert s.links[0].log == [ExitStatus] + [Data(Live, [7])];
  }
}
