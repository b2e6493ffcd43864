/**
 * The frame queue: a fixed-capacity ring buffer of frame descriptors that
 * always keeps one slot empty, so that a capacity-C queue holds at most
 * C-1 frames. A push onto a full queue is refused and counted as a drop;
 * a pop or peek on an empty queue reports "no frame".
 *
 * The source is a single-producer/single-consumer queue with atomic
 * indices; this model is sequential.
 */
module FrameQueues {
  import opened Types

  /** `x % n` for `x < 2n`, without division. */
  lemma ModWrap(x: nat, n: nat)
    requires 0 < n && x < 2 * n
    ensures x % n == if x < n then x else x - n
  {
    if x >= n {
      assert x == 1 * n + (x - n);
    }
  }

  /** Number of occupied slots between `tail` (oldest) and `head` (next free), as `size()` computes it. */
  function Distance(head: nat, tail: nat, capacity: nat): (d: nat)
    requires head < capacity && tail < capacity
    ensures d < capacity
    ensures d == (head - tail) % capacity
  {
    SmallMod(head - tail, capacity);
    if head >= tail then head - tail else capacity - tail + head
  }

  /** `x % n` for `-n <= x < n`. */
  lemma SmallMod(x: int, n: int)
    requires 0 < n && 0 - n <= x < n
    ensures x % n == if x >= 0 then x else x + n
  {
    if x < 0 {
      assert x == (-1) * n + (x + n);
    }
  }

  /** The slot `i` places after `tail`, wrapping around once. */
  function SlotAfter(tail: nat, i: nat, capacity: nat): (s: nat)
    requires tail < capacity && i < capacity
    ensures s < capacity
    ensures s == (tail + i) % capacity
  {
    ModWrap(tail + i, capacity);
    if tail + i < capacity then tail + i else tail + i - capacity
  }

  class FrameQueue {
    const capacity: nat
    var buffer: array<FrameData>
    var head: nat
    var tail: nat
    var dropped: nat

    /** The frames in the queue, oldest first. */
    ghost var Contents: seq<FrameData>
    ghost var Repr: set<object>

    ghost predicate Valid()
      reads this, Repr
      ensures Valid() ==> this in Repr
    {
      && Repr == {this, buffer}
      && capacity >= 1
      && buffer.Length == capacity
      && head < capacity && tail < capacity
      && |Contents| == Distance(head, tail, capacity)
      && forall i :: 0 <= i < |Contents| ==> Contents[i] == buffer[SlotAfter(tail, i, capacity)]
    }

    /** A fresh queue: every slot holds a default frame, both indices are 0, no drops. */
    constructor (capacity: nat)
      requires capacity >= 1
      ensures Valid() && fresh(Repr)
      ensures this.capacity == capacity && Contents == []
      ensures head == 0 && tail == 0 && dropped == 0
      ensures forall i :: 0 <= i < capacity ==> buffer[i] == DefaultFrame()
    {
      this.capacity := capacity;
      buffer := new FrameData[capacity](_ => DefaultFrame());
      head, tail, dropped := 0, 0, 0;
      Contents := [];
      Repr := {this, buffer};
      new;
      Repr := {this, buffer};
    }

    /**
     * Appends `frame` unless the queue already holds capacity-1 frames; a
     * refused push leaves buffer and indices alone and counts one drop.
     */
    method Push(frame: FrameData) returns (ok: bool)
      requires Valid()
      modifies Repr
      ensures Valid() && Repr == old(Repr) && buffer == old(buffer)
      ensures ok <==> old(|Contents|) < capacity - 1
      ensures ok ==> && Contents == old(Contents) + [frame]
                     && buffer[..] == old(buffer[..])[old(head) := frame]
                     && head == (old(head) + 1) % capacity
                     && tail == old(tail) && dropped == old(dropped)
      ensures !ok ==> && Contents == old(Contents) && buffer[..] == old(buffer[..])
                      && head == old(head) && tail == old(tail)
                      && dropped == old(dropped) + 1
    {
      var next := (head + 1) % capacity;
      ModWrap(head + 1, capacity);
      if next == tail {
        dropped := dropped + 1;
        return false;
      }
      buffer[head] := frame;
      assert head == SlotAfter(tail, |Contents|, capacity);
      head := next;
      Contents := Contents + [frame];
      ok := true;
    }

    /** Removes and returns the oldest frame, or reports `None` when empty. */
    method Pop() returns (r: Option<FrameData>)
      requires Valid()
      modifies this
      ensures Valid() && Repr == old(Repr) && buffer == old(buffer)
      ensures r == old(Peek())
      ensures head == old(head) && dropped == old(dropped)
      ensures old(Contents) == [] ==> r == None && Contents == [] && tail == old(tail)
      ensures old(Contents) != [] ==> && r == Some(old(Contents)[0])
                                      && r.value == buffer[old(tail)]
                                      && Contents == old(Contents)[1..]
                                      && tail == (old(tail) + 1) % capacity
    {
      if tail == head {
        return None;
      }
      var frame := buffer[tail];
      assert frame == Contents[0] by {
        assert SlotAfter(tail, 0, capacity) == tail;
      }
      ModWrap(tail + 1, capacity);
      var oldTail := tail;
      tail := (tail + 1) % capacity;
      Contents := Contents[1..];
      forall i | 0 <= i < |Contents|
        ensures Contents[i] == buffer[SlotAfter(tail, i, capacity)]
      {
        assert SlotAfter(tail, i, capacity) == SlotAfter(oldTail, i + 1, capacity);
      }
      r := Some(frame);
    }

    /** The frame `Pop` would return, without removing it. */
    function Peek(): (r: Option<FrameData>)
      requires Valid()
      reads Repr
      ensures Contents == [] ==> r == None
      ensures Contents != [] ==> r == Some(Contents[0])
    {
      assert Contents != [] ==> SlotAfter(tail, 0, capacity) == tail;
      if tail == head then None else Some(buffer[tail])
    }

    /** Number of frames held, computed from the two indices. */
    function Size(): (n: nat)
      requires Valid()
      reads Repr
      ensures n == |Contents|
      ensures n <= capacity - 1
    {
      if head >= tail then head - tail else capacity - tail + head
    }

    function IsEmpty(): (b: bool)
      requires Valid()
      reads Repr
      ensures b <==> Contents == []
    {
      Size() == 0
    }

    function IsFull(): (b: bool)
      requires Valid()
      reads Repr
      ensures b <==> |Contents| == capacity - 1
    {
      Size() == capacity - 1
    }

    function DroppedFrames(): (n: nat)
      reads this
    {
      dropped
    }

    /** Zeroes the drop counter and nothing else. */
    method ResetStats()
      requires Valid()
      modifies this
      ensures Valid() && Repr == old(Repr) && buffer == old(buffer)
      ensures dropped == 0
      ensures Contents == old(Contents) && head == old(head) && tail == old(tail)
    {
      dropped := 0;
    }

    /** Empties the queue by resetting both indices; the drop counter is kept. */
    method Clear()
      requires Valid()
      modifies this
      ensures Valid() && Repr == old(Repr) && buffer == old(buffer)
      ensures head == 0 && tail == 0 && Contents == []
      ensures dropped == old(dropped)
    {
      head := 0;
      tail := 0;
      Contents := [];
    }
  }

  /**
   * Pushes `frames` one by one into a fresh queue of the given capacity
   * with no pop in between: exactly the first capacity-1 pushes succeed,
   * every later one is refused, and each refusal adds one drop.
   */
  method FillFromEmpty(capacity: nat, frames: seq<FrameData>) returns (accepted: nat, drops: nat)
    requires capacity >= 1
    ensures accepted == if |frames| < capacity - 1 then |frames| else capacity - 1
    ensures drops == |frames| - accepted
  {
    var q := new FrameQueue(capacity);
    accepted := 0;
    var i := 0;
    while i < |frames|
      invariant 0 <= i <= |frames|
      invariant q.Valid() && fresh(q.Repr) && q.capacity == capacity
      invariant accepted == |q.Contents|
      invariant accepted == if i < capacity - 1 then i else capacity - 1
      invariant q.dropped == i - accepted
    {
      var ok := q.Push(frames[i]);
      if ok {
        accepted := accepted + 1;
      }
      i := i + 1;
    }
    drops := q.DroppedFrames();
  }
}
