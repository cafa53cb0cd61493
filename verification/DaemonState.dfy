/** The mutex-guarded state of one session daemon and its critical sections
    (src/daemon.rs:243-247, 275-279, 400-417, 423-432, 470-477, 645-689). */
module Daemon {
  import opened Basics
  import opened Replay

  /** A writer is named by the connection whose stream it clones. */
  datatype AttachedBroker = AttachedBroker(token: nat, writer: nat)

  /** The value of the guarded state; the class below updates it in place. */
  datatype Guarded = Guarded(
    replay: seq<byte>,
    broker: Option<AttachedBroker>,
    attachToken: nat,
    lastDetach: Option<nat>,
    shutdown: bool)

  const INITIAL := Guarded([], None, 0, None, false)

  function BrokerWriter(g: Guarded): Option<nat> {
    if g.broker.Some? then Some(g.broker.value.writer) else None
  }

  /** The PTY reader's critical section. */
  function AfterChunk(g: Guarded, chunk: seq<byte>): Guarded {
    g.(replay := LastN(g.replay + chunk, DEFAULT_REPLAY_CAPACITY))
  }

  /** `next_attach_token`, with the 64-bit wrap written out. */
  function NextToken(token: nat): nat {
    if token == U64_MAX then 0 else token + 1
  }

  /** The token drawn by the n-th admission of a daemon's life. */
  function TokenAt(n: nat): nat {
    if n == 0 then 0 else NextToken(TokenAt(n - 1))
  }

  /** The admitting branch of the attach critical section. */
  function AfterAttach(g: Guarded, writer: nat): Guarded {
    g.(attachToken := NextToken(g.attachToken),
       broker := Some(AttachedBroker(NextToken(g.attachToken), writer)))
  }

  /** `detach_current`: unconditional, and it stamps the time even when nobody is attached. */
  function AfterDetach(g: Guarded, now: nat): Guarded {
    g.(lastDetach := Some(now), broker := None)
  }

  /** A handler's own exit: only while the installed broker still carries its token. */
  predicate Owns(g: Guarded, token: nat) {
    g.broker.Some? && g.broker.value.token == token
  }

  function AfterRelease(g: Guarded, token: nat, now: nat): Guarded {
    if Owns(g, token) then AfterDetach(g, now) else g
  }

  function AfterChildExit(g: Guarded): Guarded {
    g.(shutdown := true)
  }

  datatype Admission = Busy | Admitted(token: nat, snapshot: seq<byte>)

  class DaemonState {
    const replay: ReplayBuffer
    var broker: Option<AttachedBroker>
    var attachToken: nat
    var lastDetach: Option<nat>
    var shutdown: bool

    ghost predicate Valid()
      reads this, replay
    {
      replay.Valid() && replay.capacity == DEFAULT_REPLAY_CAPACITY && attachToken < U64_SIZE
    }

    ghost function Value(): Guarded
      reads this, replay
    {
      Guarded(replay.bytes, broker, attachToken, lastDetach, shutdown)
    }

    constructor ()
      ensures Valid() && fresh(replay) && Value() == INITIAL
    {
      var ring := new ReplayBuffer(DEFAULT_REPLAY_CAPACITY);
      replay := ring;
      broker, attachToken, lastDetach, shutdown := None, 0, None, false;
    }

    /** Ring append and writer lookup are one critical section, so a chunk is in the ring
        exactly when its claim is decided. */
    method TakeChunk(chunk: seq<byte>) returns (writer: Option<nat>)
      requires Valid()
      modifies replay
      ensures Valid() && Value() == AfterChunk(old(Value()), chunk)
      ensures replay.bytes == LastN(old(replay.bytes) + chunk, 65_536)
      ensures writer == BrokerWriter(old(Value()))
    {
      replay.Append(chunk);
      writer := if broker.Some? then Some(broker.value.writer) else None;
    }

    method ChildExited() returns (writer: Option<nat>)
      requires Valid()
      modifies this
      ensures Valid() && Value() == AfterChildExit(old(Value()))
      ensures shutdown && unchanged(this`broker, this`attachToken, this`lastDetach)
      ensures writer == BrokerWriter(old(Value()))
    {
      shutdown := true;
      writer := if broker.Some? then Some(broker.value.writer) else None;
    }

    method NextAttachToken() returns (token: nat)
      requires Valid()
      modifies this`attachToken
      ensures Valid() && token == attachToken == NextToken(old(attachToken))
    {
      attachToken := if attachToken == U64_MAX then 0 else attachToken + 1;
      token := attachToken;
    }

    /** Admission, token draw, snapshot and publication happen under one lock. */
    method Attach(writer: nat) returns (a: Admission)
      requires Valid()
      modifies this
      ensures Valid()
      ensures a.Busy? <==> old(broker).Some?
      ensures a.Busy? ==> Value() == old(Value())
      ensures a.Admitted? ==> Value() == AfterAttach(old(Value()), writer)
      ensures a.Admitted? ==> a.token == attachToken && a.snapshot == old(replay.bytes)
      ensures a.Admitted? ==> broker == Some(AttachedBroker(a.token, writer))
      ensures a.Admitted? ==> attachToken == (if old(attachToken) == U64_MAX then 0 else old(attachToken) + 1)
    {
      if broker.Some? {
        return Busy;
      }
      var token := NextAttachToken();
      var snapshot := replay.Snapshot();
      broker := Some(AttachedBroker(token, writer));
      a := Admitted(token, snapshot);
    }

    method DetachCurrent(now: nat) returns (writer: Option<nat>)
      requires Valid()
      modifies this
      ensures Valid() && Value() == AfterDetach(old(Value()), now)
      ensures broker == None && lastDetach == Some(now) && unchanged(this`attachToken, this`shutdown)
      ensures writer == BrokerWriter(old(Value()))
    {
      lastDetach := Some(now);
      writer := if broker.Some? then Some(broker.value.writer) else None;
      broker := None;
    }

    method ReleaseIfOwner(token: nat, now: nat)
      requires Valid()
      modifies this
      ensures Valid() && Value() == AfterRelease(old(Value()), token, now)
      ensures old(broker).Some? && old(broker).value.token == token ==> broker == None && lastDetach == Some(now)
      ensures old(broker).None? || old(broker).value.token != token ==> unchanged(this)
    {
      if broker.Some? && broker.value.token == token {
        var _ := DetachCurrent(now);
      }
    }
  }
}
