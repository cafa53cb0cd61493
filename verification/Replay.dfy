/** The daemon's bounded replay ring (src/daemon.rs:4-64). */
module Replay {
  import opened Basics

  const DEFAULT_REPLAY_CAPACITY: nat := 64 * 1024

  datatype Creation = Created(ring: ReplayBuffer) | ZeroCapacity

  class ReplayBuffer {
    const capacity: nat
    var bytes: seq<byte>

    ghost predicate Valid()
      reads this
    {
      0 < capacity && |bytes| <= capacity
    }

    constructor (capacity: nat)
      requires 0 < capacity
      ensures Valid() && this.capacity == capacity && bytes == []
    {
      this.capacity := capacity;
      bytes := [];
    }

    /** Appends a chunk in place. Whatever branch is taken, the ring is left holding the
        last `capacity` bytes of everything it was given. */
    method Append(chunk: seq<byte>)
      requires Valid()
      modifies this
      ensures Valid()
      ensures bytes == LastN(old(bytes) + chunk, capacity)
    {
      if |chunk| >= capacity {
        bytes := [];
        bytes := bytes + chunk[|chunk| - capacity..];
        return;
      }
      var overflow := if |bytes| + |chunk| > capacity then |bytes| + |chunk| - capacity else 0;
      bytes := bytes[overflow..];
      bytes := bytes + chunk;
    }

    method Snapshot() returns (copy: seq<byte>)
      ensures copy == bytes
    {
      copy := bytes;
    }
  }

  method NewReplayBuffer(capacity: nat) returns (r: Creation)
    ensures r.ZeroCapacity? <==> capacity == 0
    ensures r.Created? ==> fresh(r.ring) && r.ring.Valid() && r.ring.capacity == capacity && r.ring.bytes == []
  {
    if capacity == 0 {
      return ZeroCapacity;
    }
    var ring := new ReplayBuffer(capacity);
    return Created(ring);
  }

  /** Feeding a ring chunk by chunk. */
  function Fed(ring: seq<byte>, chunks: seq<seq<byte>>, capacity: nat): seq<byte>
    decreases |chunks|
  {
    if chunks == [] then ring
    else LastN(Fed(ring, chunks[..|chunks| - 1], capacity) + chunks[|chunks| - 1], capacity)
  }

  /** How output is cut into reads never matters: an initially empty ring ends up with
      the last min(capacity, total) bytes of the concatenation. */
  lemma {:induction false} ChunkingIsInvisible(chunks: seq<seq<byte>>, capacity: nat)
    ensures Fed([], chunks, capacity) == LastN(Flatten(chunks), capacity)
    decreases |chunks|
  {
    if chunks != [] {
      var init, last := chunks[..|chunks| - 1], chunks[|chunks| - 1];
      ChunkingIsInvisible(init, capacity);
      LastNAbsorbs(Flatten(init), last, capacity);
    }
  }
}
