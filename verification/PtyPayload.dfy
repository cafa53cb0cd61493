/** Sizes of PTY_DATA payloads: keystroke coalescing in the client and output in the daemon,
    against the frame limit (src/client.rs:916-925, 1017-1050; src/daemon.rs:235-261, 482-497). */
module PtyPayload {
  import opened Basics
  import opened Wire
  import opened Cbor
  import opened Replay
  import D = DaemonRuns

  const STDIN_READ_LIMIT: nat := 8192
  const MAX_BATCH: nat := 64 * 1024
  const PTY_DATA_TYPE: byte := 12

  // ---------------------------------------------------------------- coalescing keystrokes

  /** One round of the coalescing loop, as the terminal answers it. */
  datatype Round =
    | PollTimesOut
    | PollInterrupted
    | PollFails
    | NoInputFlag
    | ReadEof
    | ReadInterrupted
    | ReadFails
    | ReadGives(data: seq<byte>)

  predicate Possible(rounds: seq<Round>) {
    forall i :: 0 <= i < |rounds| && rounds[i].ReadGives? ==> 0 < |rounds[i].data| <= STDIN_READ_LIMIT
  }

  /** The bytes the given rounds deliver. */
  function Received(rounds: seq<Round>): seq<byte> {
    if rounds == [] then []
    else
      var last := rounds[|rounds| - 1];
      Received(rounds[..|rounds| - 1]) + if last.ReadGives? then last.data else []
  }

  lemma ReceivedSnoc(rounds: seq<Round>, k: nat)
    requires k < |rounds|
    ensures Received(rounds[..k + 1]) == Received(rounds[..k]) + if rounds[k].ReadGives? then rounds[k].data else []
  {
    assert rounds[..k + 1][..k] == rounds[..k];
  }

  predicate Continues(round: Round) {
    round.ReadGives? || round.PollInterrupted? || round.ReadInterrupted?
  }

  predicate Failure(round: Round) {
    round.PollFails? || round.ReadFails?
  }

  /** `append_pending_stdin_bytes`: when the list of rounds ends, polls find nothing more. The
      batch is the first read followed by everything read since, in order; a batch that has
      reached 65,536 bytes is not extended, so none exceeds 73,727. */
  method AppendPendingStdinBytes(first: seq<byte>, rounds: seq<Round>)
    returns (bytes: seq<byte>, ok: bool, used: nat)
    requires |first| <= STDIN_READ_LIMIT && Possible(rounds)
    ensures used <= |rounds| && bytes == first + Received(rounds[..used])
    ensures |bytes| <= 73_727
    ensures forall i :: 0 <= i < used - 1 ==> Continues(rounds[i])
    ensures ok <==> used == 0 || !Failure(rounds[used - 1])
    ensures used == |rounds| || |bytes| >= 65_536 || (used > 0 && !Continues(rounds[used - 1]))
    ensures forall i :: 0 <= i < used ==> |first + Received(rounds[..i])| < 65_536
  {
    bytes, ok, used := first, true, 0;
    while |bytes| < MAX_BATCH && used < |rounds|
      invariant used <= |rounds| && bytes == first + Received(rounds[..used])
      invariant |bytes| < MAX_BATCH + STDIN_READ_LIMIT && ok
      invariant forall i :: 0 <= i < used ==> Continues(rounds[i])
      invariant forall i :: 0 <= i < used ==> |first + Received(rounds[..i])| < 65_536
      decreases |rounds| - used
    {
      ReceivedSnoc(rounds, used);
      var round := rounds[used];
      used := used + 1;
      match round
      case PollTimesOut => return;
      case PollInterrupted =>
      case PollFails => ok := false; return;
      case NoInputFlag => return;
      case ReadEof => return;
      case ReadInterrupted =>
      case ReadFails => ok := false; return;
      case ReadGives(data) => bytes := bytes + data;
    }
  }

  // ---------------------------------------------------------------- against the frame limit

  /** `write_body(PTY_DATA, 0, PtyData { bytes })` up to the framing. */
  function PtyFrame(bytes: seq<byte>): Result<Frame>
    requires |bytes| < U64_SIZE
  {
    NewFrame(PTY_DATA_TYPE, 0, PtyBody(bytes))
  }

  lemma {:induction false} IntegersLength(bytes: seq<byte>, b: byte)
    requires forall i :: 0 <= i < |bytes| ==> bytes[i] == b
    ensures |Integers(bytes)| == if b < 24 then |bytes| else 2 * |bytes|
  {
    if bytes != [] {
      SmallHead(b);
      IntegersLength(bytes[1..], b);
    }
  }

  /** A size is safe for every content exactly up to 524,282 bytes. */
  lemma SafeSizeIff(n: nat)
    requires n < U64_SIZE
    ensures (forall bytes: seq<byte> :: |bytes| == n ==> PtyFrame(bytes).Ok?) <==> n <= 524_282
  {
    if n > 524_282 {
      var worst: seq<byte> := seq(n, _ => 255);
      IntegersLength(worst, 255);
      HeadTellsItsLength(ARRAY, n);
      assert |worst| == n && !PtyFrame(worst).Ok?;
    } else {
      forall bytes: seq<byte> | |bytes| == n ensures PtyFrame(bytes).Ok? {
        HeadOf(n);
      }
    }
  }

  lemma HeadOf(n: nat)
    requires n <= 524_282
    ensures |Head(ARRAY, n)| <= 5
  {
  }

  /** Every chunk of output the daemon has claimed, snapshotted or written is small. */
  predicate SmallLink(link: D.Link) {
    && (link.grant.Some? ==> |link.grant.value.snapshot| <= 65_536)
    && (forall i :: 0 <= i < |link.log| && link.log[i].Data? ==> |link.log[i].bytes| <= 65_536)
  }

  predicate SmallLinks(links: seq<D.Link>) {
    forall h :: 0 <= h < |links| ==> SmallLink(links[h])
  }

  predicate Small(s: D.System) {
    |s.guarded.replay| <= 65_536 && (s.reader.Delivering? ==> |s.reader.chunk| <= 8_192) && SmallLinks(s.links)
  }

  lemma UpdateKeepsSmall(links: seq<D.Link>, h: nat, link: D.Link)
    requires SmallLinks(links) && h < |links| && SmallLink(link)
    ensures SmallLinks(links[h := link])
  {
  }

  lemma LogKeepsSmall(link: D.Link, frame: D.Wire)
    requires SmallLink(link) && (frame.Data? ==> |frame.bytes| <= 65_536)
    ensures SmallLink(link.(log := link.log + [frame]))
  {
  }

  lemma LoggedKeepsSmall(s: D.System, h: nat, frame: D.Wire)
    requires SmallLinks(s.links) && h < |s.links| && (frame.Data? ==> |frame.bytes| <= 65_536)
    ensures SmallLinks(D.Logged(s, h, frame).links)
  {
    LogKeepsSmall(s.links[h], frame);
    UpdateKeepsSmall(s.links, h, s.links[h].(log := s.links[h].log + [frame]));
  }

  lemma PhaseKeepsSmall(s: D.System, h: nat, phase: D.Phase)
    requires SmallLinks(s.links) && h < |s.links|
    ensures SmallLinks(D.SetPhase(s, h, phase).links)
  {
    UpdateKeepsSmall(s.links, h, s.links[h].(phase := phase));
  }

  lemma AttachKeepsSmall(s: D.System, h: nat)
    requires Small(s) && D.Enabled(s, D.Attach(h))
    ensures Small(D.ApplyAttach(s, h))
  {
    PhaseKeepsSmall(s, h, D.Gone);
  }

  lemma WriteReplayKeepsSmall(s: D.System, h: nat, ok: bool)
    requires Small(s) && D.Enabled(s, D.WriteReplay(h, ok))
    ensures Small(D.ApplyWriteReplay(s, h, ok))
  {
    var frame := D.Data(D.Replayed, s.links[h].grant.value.snapshot);
    LoggedKeepsSmall(s, h, frame);
    PhaseKeepsSmall(D.Logged(s, h, frame), h, D.Forwarding);
    PhaseKeepsSmall(s, h, D.Forwarding);
    PhaseKeepsSmall(s, h, D.Gone);
  }

  lemma ReadPtyKeepsSmall(s: D.System, chunk: seq<byte>)
    requires Small(s) && D.Enabled(s, D.ReadPty(chunk))
    ensures Small(D.ApplyReadPty(s, chunk))
  {
  }

  lemma DeliverKeepsSmall(s: D.System, ok: bool)
    requires Small(s) && D.Enabled(s, D.Deliver(ok))
    ensures Small(D.ApplyDeliver(s, ok))
  {
    LoggedKeepsSmall(s, s.reader.writer, D.Data(D.Live, s.reader.chunk));
  }

  lemma StepKeepsSmall(s: D.System, step: D.Step)
    requires Small(s) && D.Enabled(s, step)
    ensures Small(D.Apply(s, step))
  {
    match step
    case Connect =>
    case Attach(h) => AttachKeepsSmall(s, h);
    case ResizeFails(h) => PhaseKeepsSmall(s, h, D.ResizeFailed);
    case WriteReplay(h, ok) => WriteReplayKeepsSmall(s, h, ok);
    case SessionEnds(h, clean) => PhaseKeepsSmall(s, h, if clean then D.Leaving else D.Gone);
    case Leave(h, now) => PhaseKeepsSmall(s, h, D.Gone);
    case ReadPty(chunk) => ReadPtyKeepsSmall(s, chunk);
    case Deliver(ok) => DeliverKeepsSmall(s, ok);
    case Evict(now) =>
    case PtyEnds =>
    case ChildExit =>
    case Report(ok) => LoggedKeepsSmall(s, s.waiter.writer, D.ExitStatus);
    case ControlDetach(now) =>
    case Farewell(h, ok) => LoggedKeepsSmall(s, h, D.ClientShouldExit);
  }

  lemma {:induction false} RunStaysSmall(steps: seq<D.Step>, s: D.System)
    requires D.Run(steps, s)
    ensures Small(s)
    decreases |steps|
  {
    if steps != [] {
      var init, last := steps[..|steps| - 1], steps[|steps| - 1];
      RunStaysSmall(init, D.Exec(init).value);
      StepKeepsSmall(D.Exec(init).value, last);
    }
  }

  /** In every run of the daemon, the chunk being delivered, every replay snapshot and every
      data frame written so far are accepted by the frame limit. */
  lemma DaemonDataAlwaysFits(steps: seq<D.Step>, s: D.System)
    requires D.Run(steps, s)
    ensures s.reader.Delivering? ==> |s.reader.chunk| <= 8_192 && PtyFrame(s.reader.chunk).Ok?
    ensures forall h :: 0 <= h < |s.links| && s.links[h].grant.Some? ==> (
      |s.links[h].grant.value.snapshot| <= 65_536 && PtyFrame(s.links[h].grant.value.snapshot).Ok?)
    ensures forall h, i :: 0 <= h < |s.links| && 0 <= i < |s.links[h].log| && s.links[h].log[i].Data? ==> (
      |s.links[h].log[i].bytes| <= 65_536 && PtyFrame(s.links[h].log[i].bytes).Ok?)
  {
    RunStaysSmall(steps, s);
  }

  /** The client's side: every batch the coalescing loop can build is accepted, and the daemon
      reads back exactly the keystrokes. */
  lemma BatchAlwaysFits(bytes: seq<byte>)
    requires |bytes| <= 73_727
    ensures PtyFrame(bytes).Ok? && PtyFrame(bytes).value.msgType == 12
    ensures ParsePty(PtyFrame(bytes).value.payload) == Some(bytes)
  {
    ParseUndoesPtyBody(bytes);
  }
}
