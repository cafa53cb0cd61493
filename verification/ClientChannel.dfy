/** What travels through the one event channel of the client: keystrokes from the stdin reader
    and frames from the broker reader of every attempt so far (src/client.rs:78-87, 857-892,
    916-931, 1075, 1135-1165, 1291-1316). The threads move as in `ClientTerminal`; this module
    adds the data they carry. */
module ClientChannel {
  import opened Basics
  import opened ClientTerminal

  /** Keystrokes are stamped with the number of pauses completed when they were read; a frame
      carries its reader's attempt id and, for the observer, which reader that was. */
  datatype Event = Typed(epoch: nat, bytes: seq<byte>) | InputOver | Frame(id: nat, source: nat, frame: nat)

  /** One broker reader: its attempt id, what it has sent, and what the session acted on. */
  datatype Feed = Feed(id: nat, produced: seq<nat>, acted: seq<nat>)

  datatype Channel = Channel(
    queue: seq<Event>,
    hand: seq<byte>,        // the batch the stdin reader is holding
    handEpoch: nat,
    epoch: nat,             // pauses completed so far
    read: seq<byte>,        // keystrokes read from the terminal since the last pause
    spoiled: bool,          // a batch was given up because collecting it failed
    sent: seq<byte>,        // keystrokes put into the channel since the last pause
    forwarded: seq<byte>,   // keystrokes passed on to the broker since the last pause
    open: bool,             // the session still takes stdin
    feeds: seq<Feed>,
    attempt: nat)

  datatype System = System(t: State, c: Channel)

  /** A thread step with the bytes it read, the main thread taking an event, or some broker
      reader, current or old, sending a frame. */
  datatype Move = Thread(step: Step, bytes: seq<byte>) | TakeEvent | BrokerSends(source: nat, frame: nat)

  function Begin(interrupts: nat, tty: bool): System {
    System(Start(interrupts, tty), Channel([], [], 0, 0, [], false, [], [], true, [], 0))
  }

  // ---------------------------------------------------------------- transitions

  function NextAttempt(attempt: nat): nat {
    if attempt >= U64_MAX then U64_MAX else attempt + 1
  }

  /** `run_attached_session` starts: a reader tagged with the current attempt id. */
  function Opened(c: Channel): Channel {
    c.(feeds := c.feeds + [Feed(c.attempt, [], [])], open := true)
  }

  function Queued(c: Channel, e: Event): Channel {
    c.(queue := c.queue + [e])
  }

  function HandedOver(c: Channel): Channel {
    Queued(c, Typed(c.handEpoch, c.hand)).(sent := c.sent + c.hand, hand := [])
  }

  /** What a thread step does to the channel; `t'` is the thread state it leads to. */
  function Effect(t: State, t': State, c: Channel, step: Step, bytes: seq<byte>): Channel {
    match step
    case StartSsh => c.(attempt := NextAttempt(c.attempt))
    case EnsureIo(_) =>
      if t'.main == InSession then Opened(c)
      else if t'.main == Resuming then c.(queue := [])
      else c
    case ResumeLock => if t'.main == InSession then Opened(c) else c
    case ResumeWake => if t'.main == InSession then Opened(c) else c
    case Release => c.(queue := [], epoch := c.epoch + 1, read := [], sent := [], forwarded := [])
    case ReadReturns(_) =>
      if t'.reader.Coalescing? then c.(hand := bytes, read := c.read + bytes, handEpoch := c.epoch) else c
    case CoalesceReturns(poll, more) =>
      if t'.reader.Coalescing? then
        (if poll == Ready && more.Data? then c.(hand := c.hand + bytes, read := c.read + bytes) else c)
      else if t'.reader == Sending(true) then c.(hand := [], spoiled := true)
      else c
    case EventSent => if t.reader == Sending(true) then Queued(c, InputOver) else HandedOver(c)
    case _ => c
  }

  predicate CanTake(s: System, m: Move) {
    match m
    case Thread(step, bytes) =>
      && Enabled(s.t, step)
      && (step.ReadReturns? && step.first.Data? ==> |bytes| == step.first.n)
      && (step.CoalesceReturns? && step.more.Data? ==> |bytes| == step.more.n)
    case TakeEvent => s.t.main == InSession && s.c.queue != [] && s.c.feeds != []
    case BrokerSends(source, _) => source < |s.c.feeds|
  }

  function Acted(c: Channel, frame: nat): Channel
    requires c.feeds != []
  {
    var last := |c.feeds| - 1;
    c.(feeds := c.feeds[last := c.feeds[last].(acted := c.feeds[last].acted + [frame])])
  }

  /** The event loop takes the oldest event: input goes to the broker while stdin is open, a
      frame is acted on only if it bears the running attempt's id. */
  function Taken(c: Channel): Channel
    requires c.queue != [] && c.feeds != []
  {
    var rest := c.(queue := c.queue[1..]);
    match c.queue[0]
    case Typed(_, bytes) => if c.open then rest.(forwarded := c.forwarded + bytes) else rest
    case InputOver => rest.(open := false)
    case Frame(id, _, frame) => if id == c.attempt then Acted(rest, frame) else rest
  }

  function Sends(c: Channel, source: nat, frame: nat): Channel
    requires source < |c.feeds|
  {
    var feed := c.feeds[source];
    Queued(c.(feeds := c.feeds[source := feed.(produced := feed.produced + [frame])]), Frame(feed.id, source, frame))
  }

  function Next(s: System, m: Move): System
    requires CanTake(s, m)
  {
    match m
    case Thread(step, bytes) => System(Apply(s.t, step), Effect(s.t, Apply(s.t, step), s.c, step, bytes))
    case TakeEvent => System(s.t, Taken(s.c))
    case BrokerSends(source, frame) => System(s.t, Sends(s.c, source, frame))
  }

  function ExecAll(s: System, moves: seq<Move>): Option<System>
    decreases |moves|
  {
    if moves == [] then Some(s)
    else if CanTake(s, moves[0]) then ExecAll(Next(s, moves[0]), moves[1..])
    else None
  }

  predicate Reaches(interrupts: nat, tty: bool, moves: seq<Move>, s: System) {
    ExecAll(Begin(interrupts, tty), moves) == Some(s)
  }

  // ---------------------------------------------------------------- observations

  function TypedBytes(queue: seq<Event>): seq<byte> {
    if queue == [] then []
    else (if queue[0].Typed? then queue[0].bytes else []) + TypedBytes(queue[1..])
  }

  function FramesFrom(queue: seq<Event>, source: nat): seq<nat> {
    if queue == [] then []
    else
      (if queue[0].Frame? && queue[0].source == source then [queue[0].frame] else [])
      + FramesFrom(queue[1..], source)
  }

  lemma {:induction false} TypedSnoc(queue: seq<Event>, e: Event)
    ensures TypedBytes(queue + [e]) == TypedBytes(queue) + (if e.Typed? then e.bytes else [])
  {
    if queue != [] {
      assert (queue + [e])[1..] == queue[1..] + [e];
      TypedSnoc(queue[1..], e);
    }
  }

  lemma {:induction false} FramesSnoc(queue: seq<Event>, e: Event, source: nat)
    ensures FramesFrom(queue + [e], source)
         == FramesFrom(queue, source) + (if e.Frame? && e.source == source then [e.frame] else [])
  {
    if queue != [] {
      assert (queue + [e])[1..] == queue[1..] + [e];
      FramesSnoc(queue[1..], e, source);
    }
  }

  // ---------------------------------------------------------------- keystrokes

  ghost predicate ReaderGone(t: State) {
    t.reader == Exiting || t.reader == Finished
  }

  ghost predicate Stamped(c: Channel) {
    forall i :: 0 <= i < |c.queue| && c.queue[i].Typed? ==> c.queue[i].epoch == c.epoch
  }

  /** After the reader's last event no keystroke follows. */
  ghost predicate EndIsLast(queue: seq<Event>) {
    forall i, j :: 0 <= i < j < |queue| && queue[i].InputOver? ==> !queue[j].Typed?
  }

  ghost predicate NoTyped(queue: seq<Event>) {
    forall i :: 0 <= i < |queue| ==> !queue[i].Typed?
  }

  ghost predicate KeysOk(s: System) {
    && (s.t.reader.Coalescing? || s.t.reader == Sending(false) ==> s.c.handEpoch == s.c.epoch)
    && Stamped(s.c)
    && s.c.sent == s.c.forwarded + TypedBytes(s.c.queue)
    && EndIsLast(s.c.queue)
    && ((exists e :: e in s.c.queue && e.InputOver?) ==> ReaderGone(s.t))
    && (!s.c.open ==> ReaderGone(s.t) && NoTyped(s.c.queue))
  }

  lemma {:induction false} NoTypedBytes(queue: seq<Event>)
    requires NoTyped(queue)
    ensures TypedBytes(queue) == []
  {
    if queue != [] {
      NoTypedBytes(queue[1..]);
    }
  }

  lemma QueuedKeepsKeys(s: System, e: Event)
    requires KeysOk(s) && !e.Typed? && !e.InputOver?
    ensures KeysOk(System(s.t, Queued(s.c, e)))
  {
    TypedSnoc(s.c.queue, e);
    var q := s.c.queue + [e];
    assert forall x :: x in q && x.InputOver? ==> x in s.c.queue;
  }

  lemma SentKeepsKeys(s: System)
    requires KeysOk(s) && s.t.reader.Sending? && Enabled(s.t, EventSent)
    ensures KeysOk(Next(s, Thread(EventSent, [])))
  {
    var e := if s.t.reader.last then InputOver else Typed(s.c.handEpoch, s.c.hand);
    TypedSnoc(s.c.queue, e);
    if !s.t.reader.last {
      assert forall x :: x in s.c.queue ==> !x.InputOver?;
      assert s.c.open;
      assert s.c.forwarded + TypedBytes(s.c.queue) + s.c.hand == s.c.forwarded + (TypedBytes(s.c.queue) + s.c.hand);
      assert forall x :: x in s.c.queue + [e] ==> !x.InputOver?;
    }
  }

  lemma TakenKeepsKeys(s: System)
    requires KeysOk(s) && CanTake(s, TakeEvent)
    ensures KeysOk(Next(s, TakeEvent))
  {
    var q := s.c.queue;
    assert forall x :: x in q[1..] ==> x in q;
    if q[0].InputOver? {
      assert q[0] in q;
    }
    if !s.c.open {
      NoTypedBytes(q);
      NoTypedBytes(q[1..]);
    }
  }

  /** Steps that leave channel contents alone. */
  lemma IdleKeepsKeys(s: System, s': System)
    requires KeysOk(s)
    requires s'.c.queue == s.c.queue && s'.c.epoch == s.c.epoch && s'.c.sent == s.c.sent
    requires s'.c.forwarded == s.c.forwarded
    requires s'.c.open == s.c.open
    requires ReaderGone(s.t) ==> ReaderGone(s'.t)
    requires s'.t.reader.Coalescing? || s'.t.reader == Sending(false) ==> s'.c.handEpoch == s.c.epoch
    ensures KeysOk(s')
  {
  }

  lemma EmptiedKeepsKeys(s: System, s': System)
    requires s'.c.queue == [] && s'.c.sent == s'.c.forwarded
    requires !s'.c.open ==> ReaderGone(s'.t)
    requires !s'.t.reader.Coalescing? && s'.t.reader != Sending(false)
    ensures KeysOk(s')
  {
    assert s'.c.forwarded + TypedBytes([]) == s'.c.forwarded;
  }

  lemma ThreadKeepsKeys(s: System, step: Step, bytes: seq<byte>)
    requires Inv(s.t) && KeysOk(s) && CanTake(s, Thread(step, bytes))
    requires s.t.inputPaused && s.t.requested ==> s.c.sent == s.c.forwarded
    ensures KeysOk(Next(s, Thread(step, bytes)))
  {
    var s' := Next(s, Thread(step, bytes));
    if step.EventSent? {
      SentKeepsKeys(s);
    } else if step.Release? || (step.EnsureIo? && s'.t.main == Resuming) {
      EmptiedKeepsKeys(s, s');
    } else if s'.c.open == s.c.open {
      IdleKeepsKeys(s, s');
    } else {
      assert s'.c.open && s'.c.queue == s.c.queue;
    }
  }

  /** While a pause is in force no keystroke is in the channel or in anybody's hand. */
  ghost predicate PausedEmpty(s: System) {
    s.t.inputPaused && s.t.requested ==> s.c.sent == s.c.forwarded == []
  }

  /** Where the keystrokes are that were read since the last pause: in the channel's account, in
      the reader's hand, or given up with a spoiled batch. */
  ghost predicate ReadOk(s: System) {
    var r := s.t.reader;
    if r.Coalescing? || r == Sending(false) then
      && s.c.read == s.c.sent + s.c.hand
      && (r.Coalescing? ==> |s.c.hand| == r.batched)
      && |s.c.hand| <= 73_727
    else s.c.spoiled || s.c.read == s.c.sent
  }

  /** After a spoiled batch the reader ends. */
  ghost predicate SpoiledEnds(s: System) {
    s.c.spoiled ==> s.t.reader == Sending(true) || ReaderGone(s.t)
  }

  predicate HoldsBatch(r: Reader) {
    r.Coalescing? || r == Sending(false)
  }

  predicate MovesKeys(step: Step) {
    step.ReadReturns? || step.CoalesceReturns? || step.EventSent? || step.Release?
  }

  /** The other steps of either thread leave the keystrokes where they are. */
  lemma OtherStepsHold(t: State, step: Step)
    requires Inv(t) && Enabled(t, step) && !MovesKeys(step)
    ensures HoldsBatch(t.reader) || HoldsBatch(Apply(t, step).reader) ==> Apply(t, step).reader == t.reader
    ensures t.reader == Sending(true) ==> Apply(t, step).reader == t.reader
    ensures ReaderGone(t) ==> ReaderGone(Apply(t, step))
  {
    match step
    case PollReturns(_) =>
    case CheckPause =>
    case ParkedWake =>
    case ReaderExits =>
    case EnsureIo(_) =>
    case _ =>
  }

  lemma OtherStepsKeepRead(s: System, step: Step, bytes: seq<byte>)
    requires Inv(s.t) && ReadOk(s) && SpoiledEnds(s) && CanTake(s, Thread(step, bytes)) && !MovesKeys(step)
    ensures ReadOk(Next(s, Thread(step, bytes))) && SpoiledEnds(Next(s, Thread(step, bytes)))
  {
    OtherStepsHold(s.t, step);
    var c, c' := s.c, Next(s, Thread(step, bytes)).c;
    assert c'.read == c.read && c'.sent == c.sent && c'.hand == c.hand && c'.spoiled == c.spoiled;
  }

  lemma FirstReadKeepsRead(s: System, first: ReadResult, bytes: seq<byte>)
    requires ReadOk(s) && SpoiledEnds(s) && CanTake(s, Thread(ReadReturns(first), bytes))
    ensures ReadOk(Next(s, Thread(ReadReturns(first), bytes)))
    ensures SpoiledEnds(Next(s, Thread(ReadReturns(first), bytes)))
  {
  }

  lemma CoalescingKeepsRead(s: System, poll: PollResult, more: ReadResult, bytes: seq<byte>)
    requires ReadOk(s) && SpoiledEnds(s) && CanTake(s, Thread(CoalesceReturns(poll, more), bytes))
    ensures ReadOk(Next(s, Thread(CoalesceReturns(poll, more), bytes)))
    ensures SpoiledEnds(Next(s, Thread(CoalesceReturns(poll, more), bytes)))
  {
    ConcatAssociative(s.c.sent, s.c.hand, bytes);
  }

  lemma HandoverKeepsRead(s: System, step: Step, bytes: seq<byte>)
    requires Inv(s.t) && ReadOk(s) && SpoiledEnds(s) && CanTake(s, Thread(step, bytes))
    requires step == EventSent || step == Release
    ensures ReadOk(Next(s, Thread(step, bytes))) && SpoiledEnds(Next(s, Thread(step, bytes)))
  {
  }

  lemma ReadOkKept(s: System, m: Move)
    requires Inv(s.t) && ReadOk(s) && CanTake(s, m) && SpoiledEnds(s)
    ensures ReadOk(Next(s, m)) && SpoiledEnds(Next(s, m))
  {
    if m.Thread? {
      match m.step
      case ReadReturns(first) => FirstReadKeepsRead(s, first, m.bytes);
      case CoalesceReturns(poll, more) => CoalescingKeepsRead(s, poll, more, m.bytes);
      case EventSent => HandoverKeepsRead(s, EventSent, m.bytes);
      case Release => HandoverKeepsRead(s, Release, m.bytes);
      case _ => OtherStepsKeepRead(s, m.step, m.bytes);
    }
  }

  lemma PausedEmptyKept(s: System, m: Move)
    requires Inv(s.t) && PausedEmpty(s) && CanTake(s, m)
    ensures PausedEmpty(Next(s, m))
  {
  }

  // ---------------------------------------------------------------- attempts

  ghost predicate BeforeSession(m: Main) {
    m == Dialing || m == Resuming || m.ResumeWait?
  }

  ghost predicate IdsOk(s: System) {
    && (forall i, j :: 0 <= i < j < |s.c.feeds| ==> s.c.feeds[i].id < s.c.feeds[j].id)
    && (forall i :: 0 <= i < |s.c.feeds| ==> s.c.feeds[i].id <= s.c.attempt)
    && (BeforeSession(s.t.main) ==> forall i :: 0 <= i < |s.c.feeds| ==> s.c.feeds[i].id < s.c.attempt)
    && (s.t.main == InSession ==> s.c.feeds != [] && s.c.feeds[|s.c.feeds| - 1].id == s.c.attempt)
  }

  ghost predicate FrameOk(feeds: seq<Feed>, e: Event) {
    e.Frame? ==> e.source < |feeds| && e.id == feeds[e.source].id
  }

  ghost predicate QueueOk(c: Channel) {
    forall i :: 0 <= i < |c.queue| ==> FrameOk(c.feeds, c.queue[i])
  }

  ghost predicate FeedOk(s: System, i: nat)
    requires i < |s.c.feeds|
  {
    var feed := s.c.feeds[i];
    && feed.acted <= feed.produced
    && (s.t.main == InSession && i == |s.c.feeds| - 1 ==>
          feed.produced == feed.acted + FramesFrom(s.c.queue, i))
  }

  ghost predicate FeedsOk(s: System) {
    && IdsOk(s)
    && QueueOk(s.c)
    && (forall i :: 0 <= i < |s.c.feeds| ==> FeedOk(s, i))
  }

  lemma {:induction false} NoFramesYet(queue: seq<Event>, feeds: seq<Feed>, source: nat)
    requires forall i :: 0 <= i < |queue| ==> FrameOk(feeds, queue[i])
    requires |feeds| <= source
    ensures FramesFrom(queue, source) == []
  {
    if queue != [] {
      NoFramesYet(queue[1..], feeds, source);
    }
  }

  lemma OpenedKeepsFeeds(s: System, t': State)
    requires FeedsOk(s) && BeforeSession(s.t.main) && t'.main == InSession
    ensures FeedsOk(System(t', Opened(s.c)))
  {
    var s' := System(t', Opened(s.c));
    var n := |s.c.feeds|;
    NoFramesYet(s.c.queue, s.c.feeds, n);
    forall i | 0 <= i < |s'.c.queue| ensures FrameOk(s'.c.feeds, s'.c.queue[i]) {
      assert FrameOk(s.c.feeds, s.c.queue[i]);
    }
    forall i | 0 <= i < |s'.c.feeds| ensures FeedOk(s', i) {
      assert i < n ==> FeedOk(s, i);
    }
  }

  /** A step outside any session's reach: feeds stay, the channel stays or is emptied. */
  lemma IdleKeepsFeeds(s: System, s': System)
    requires FeedsOk(s) && s'.c.feeds == s.c.feeds
    requires s'.c.queue == s.c.queue || s'.c.queue == []
    requires s'.t.main == InSession ==> s.t.main == InSession && s'.c.queue == s.c.queue && s'.c.attempt == s.c.attempt
    requires s.c.attempt <= s'.c.attempt
    requires BeforeSession(s'.t.main) ==> BeforeSession(s.t.main) || s.c.attempt < s'.c.attempt
    ensures FeedsOk(s')
  {
    forall i | 0 <= i < |s'.c.feeds| ensures FeedOk(s', i) {
      assert FeedOk(s, i);
    }
  }

  lemma InputKeepsFeeds(s: System, s': System, e: Event)
    requires FeedsOk(s) && !e.Frame? && s'.t.main == s.t.main
    requires s'.c.feeds == s.c.feeds && s'.c.attempt == s.c.attempt && s'.c.queue == s.c.queue + [e]
    ensures FeedsOk(s')
  {
    forall i | 0 <= i < |s'.c.queue| ensures FrameOk(s'.c.feeds, s'.c.queue[i]) {
      if i < |s.c.queue| {
        assert FrameOk(s.c.feeds, s.c.queue[i]);
      }
    }
    forall i | 0 <= i < |s'.c.feeds| ensures FeedOk(s', i) {
      assert FeedOk(s, i);
      FramesSnoc(s.c.queue, e, i);
    }
  }

  lemma ThreadKeepsFeeds(s: System, step: Step, bytes: seq<byte>)
    requires Inv(s.t) && FeedsOk(s) && CanTake(s, Thread(step, bytes))
    requires Next(s, Thread(step, bytes)).c.attempt < U64_MAX
    ensures FeedsOk(Next(s, Thread(step, bytes)))
  {
    var s' := Next(s, Thread(step, bytes));
    if step.EventSent? {
      InputKeepsFeeds(s, s', if s.t.reader == Sending(true) then InputOver else Typed(s.c.handEpoch, s.c.hand));
    } else if s'.t.main == InSession && s.t.main != InSession {
      OpenedKeepsFeeds(s, s'.t);
    } else {
      IdleKeepsFeeds(s, s');
    }
  }

  /** The frame at the head of the channel bears the running attempt's id only if it comes from
      the running attempt's reader. */
  lemma HeadIsOwn(s: System)
    requires FeedsOk(s) && CanTake(s, TakeEvent) && s.c.queue[0].Frame?
    ensures s.c.queue[0].id == s.c.attempt <==> s.c.queue[0].source == |s.c.feeds| - 1
  {
    assert FrameOk(s.c.feeds, s.c.queue[0]);
  }

  lemma TakenKeepsFeeds(s: System)
    requires FeedsOk(s) && CanTake(s, TakeEvent)
    ensures FeedsOk(Next(s, TakeEvent))
  {
    var s' := Next(s, TakeEvent);
    var e := s.c.queue[0];
    if e.Frame? {
      HeadIsOwn(s);
    }
    assert IdsOk(s');
    forall i | 0 <= i < |s'.c.queue| ensures FrameOk(s'.c.feeds, s'.c.queue[i]) {
      assert FrameOk(s.c.feeds, s.c.queue[i + 1]);
    }
    forall i | 0 <= i < |s'.c.feeds| ensures FeedOk(s', i) {
      TakenKeepsFeed(s, i);
    }
  }

  lemma ActedGrows(feed: Feed, frame: nat, rest: seq<nat>)
    requires feed.produced == feed.acted + ([frame] + rest)
    ensures feed.acted + [frame] <= feed.produced && feed.produced == (feed.acted + [frame]) + rest
  {
    ConcatAssociative(feed.acted, [frame], rest);
  }

  lemma TakenKeepsFeed(s: System, i: nat)
    requires CanTake(s, TakeEvent) && i < |s.c.feeds| && FeedOk(s, i)
    requires s.c.queue[0].Frame? ==>
      (s.c.queue[0].id == s.c.attempt <==> s.c.queue[0].source == |s.c.feeds| - 1)
    ensures FeedOk(Next(s, TakeEvent), i)
  {
    var e := s.c.queue[0];
    if i == |s.c.feeds| - 1 && e.Frame? && e.source == i {
      ActedGrows(s.c.feeds[i], e.frame, FramesFrom(s.c.queue[1..], i));
    }
  }

  lemma SendsKeepsFeeds(s: System, source: nat, frame: nat)
    requires FeedsOk(s) && source < |s.c.feeds|
    ensures FeedsOk(Next(s, BrokerSends(source, frame)))
  {
    var s' := Next(s, BrokerSends(source, frame));
    var e := Frame(s.c.feeds[source].id, source, frame);
    forall i | 0 <= i < |s'.c.queue| ensures FrameOk(s'.c.feeds, s'.c.queue[i]) {
      if i < |s.c.queue| {
        assert FrameOk(s.c.feeds, s.c.queue[i]);
      }
    }
    forall i | 0 <= i < |s'.c.feeds| ensures FeedOk(s', i) {
      assert FeedOk(s, i);
      FramesSnoc(s.c.queue, e, i);
    }
  }

  // ---------------------------------------------------------------- every run

  ghost predicate SystemOk(s: System) {
    && Inv(s.t)
    && KeysOk(s)
    && PausedEmpty(s)
    && ReadOk(s) && SpoiledEnds(s)
    && (s.c.attempt < U64_MAX ==> FeedsOk(s))
  }

  lemma ThreadKeepsOk(s: System, step: Step, bytes: seq<byte>)
    requires SystemOk(s) && CanTake(s, Thread(step, bytes))
    ensures SystemOk(Next(s, Thread(step, bytes)))
  {
    var m := Thread(step, bytes);
    PausedEmptyKept(s, m);
    ReadOkKept(s, m);
    if ReaderStep(step) {
      ReaderKeepsInv(s.t, step);
    } else {
      MainKeepsInv(s.t, step);
    }
    ThreadKeepsKeys(s, step, bytes);
    if Next(s, m).c.attempt < U64_MAX {
      ThreadKeepsFeeds(s, step, bytes);
    }
  }

  lemma TakeKeepsOk(s: System)
    requires SystemOk(s) && CanTake(s, TakeEvent)
    ensures SystemOk(Next(s, TakeEvent))
  {
    PausedEmptyKept(s, TakeEvent);
    ReadOkKept(s, TakeEvent);
    TakenKeepsKeys(s);
    if s.c.attempt < U64_MAX {
      TakenKeepsFeeds(s);
    }
  }

  lemma SendKeepsOk(s: System, source: nat, frame: nat)
    requires SystemOk(s) && CanTake(s, BrokerSends(source, frame))
    ensures SystemOk(Next(s, BrokerSends(source, frame)))
  {
    PausedEmptyKept(s, BrokerSends(source, frame));
    ReadOkKept(s, BrokerSends(source, frame));
    QueuedKeepsKeys(s, Frame(s.c.feeds[source].id, source, frame));
    if s.c.attempt < U64_MAX {
      SendsKeepsFeeds(s, source, frame);
    }
  }

  lemma NextKeepsOk(s: System, m: Move)
    requires SystemOk(s) && CanTake(s, m)
    ensures SystemOk(Next(s, m))
  {
    match m
    case Thread(step, bytes) => ThreadKeepsOk(s, step, bytes);
    case TakeEvent => TakeKeepsOk(s);
    case BrokerSends(source, frame) => SendKeepsOk(s, source, frame);
  }

  lemma {:induction false} ExecKeepsOk(s: System, moves: seq<Move>)
    requires SystemOk(s) && ExecAll(s, moves).Some?
    ensures SystemOk(ExecAll(s, moves).value)
    decreases |moves|
  {
    if moves != [] {
      NextKeepsOk(s, moves[0]);
      ExecKeepsOk(Next(s, moves[0]), moves[1..]);
    }
  }

  lemma ReachedIsOk(interrupts: nat, tty: bool, moves: seq<Move>, s: System)
    requires Reaches(interrupts, tty, moves, s)
    ensures SystemOk(s)
  {
    ExecKeepsOk(Begin(interrupts, tty), moves);
  }

  /** Attempt isolation. While attempt ids have not reached the 64-bit maximum: whatever older
      readers still push into the channel, the frames each attempt acted on are an in-order
      prefix of what its own reader produced; and for the running session the rest of them are
      still waiting in the channel, none lost. */
  lemma AttemptIsolation(interrupts: nat, tty: bool, moves: seq<Move>, s: System, i: nat)
    requires Reaches(interrupts, tty, moves, s) && s.c.attempt < U64_MAX && i < |s.c.feeds|
    ensures s.c.feeds[i].acted <= s.c.feeds[i].produced
    ensures s.t.main == InSession && i == |s.c.feeds| - 1 ==>
      s.c.feeds[i].produced == s.c.feeds[i].acted + FramesFrom(s.c.queue, i)
  {
    ReachedIsOk(interrupts, tty, moves, s);
    assert FeedOk(s, i);
  }

  /** The batch that the stdin reader has read and not yet handed over. */
  function InHand(s: System): seq<byte> {
    if s.t.reader.Coalescing? || s.t.reader == Sending(false) then s.c.hand else []
  }

  /** No keystroke read before a pause is forwarded after it: what the session takes was read
      since the last pause ended. Since then every keystroke read was forwarded, in order, or is
      still in the channel or in the reader's hand, unless reading failed in mid-batch, which
      ends the reader. */
  lemma KeystrokesStayInTheirEpoch(interrupts: nat, tty: bool, moves: seq<Move>, s: System)
    requires Reaches(interrupts, tty, moves, s)
    ensures CanTake(s, TakeEvent) && s.c.queue[0].Typed? ==> s.c.queue[0].epoch == s.c.epoch && s.c.open
    ensures s.c.sent == s.c.forwarded + TypedBytes(s.c.queue)
    ensures PauseInForce(s.t) && s.t.inputPaused ==> TypedBytes(s.c.queue) == []
    ensures !s.c.spoiled ==> s.c.read == s.c.forwarded + TypedBytes(s.c.queue) + InHand(s)
    ensures s.c.spoiled ==> s.t.reader == Sending(true) || s.t.reader == Exiting || s.t.reader == Finished
  {
    ReachedIsOk(interrupts, tty, moves, s);
    assert s.c.queue != [] && s.c.queue[0].Typed? ==> s.c.open;
  }
}
