/** The single-producer/single-consumer ring of frames that hands frames from the
    camera agent to the frame-processor agent.

    The ring is specified by the pure value `Ring` (its slots and the two
    indices) and the functions `Add`, `Get`, `Size`, `IsEmptyRing` and
    `IsFullRing`, which follow the header line by line. The class `FrameBuffer`
    keeps the slots in an array that it updates in place and is proved against
    those functions. `View` is the logical FIFO content: the frames from `tail`
    (oldest) up to, but excluding, `head`. */
module FrameBuffers {
  import opened Outcomes

  datatype Ring<F> = Ring(slots: seq<F>, head: nat, tail: nat)
  {
    ghost predicate Valid() {
      |slots| >= 1 && head < |slots| && tail < |slots|
    }
  }

  /** The frames a reader can still get, oldest first. */
  function View<F>(r: Ring<F>): seq<F>
    requires r.Valid()
  {
    if r.tail <= r.head then r.slots[r.tail..r.head]
    else r.slots[r.tail..] + r.slots[..r.head]
  }

  /** `size()`: the head-to-tail distance with wrap-around. It is the number of
      readable frames, and it never reaches the capacity: one slot always stays
      unused. */
  function Size<F>(r: Ring<F>): (n: nat)
    requires r.Valid()
    ensures n == |View(r)|
    ensures n <= |r.slots| - 1
  {
    if r.head >= r.tail then r.head - r.tail else |r.slots| - r.tail + r.head
  }

  /** The next position after `i` in a ring of `cap` slots. */
  function Next(i: nat, cap: nat): (j: nat)
    requires i < cap
    ensures j < cap
    ensures j == if i + 1 == cap then 0 else i + 1
  {
    (i + 1) % cap
  }

  /** Drops the first element of a sequence, if there is one. */
  function DropOldest<F>(s: seq<F>): seq<F> {
    if s == [] then [] else s[1..]
  }

  /** The condition under which `addFrame` takes its "full" branch. */
  predicate WouldDrop<F>(r: Ring<F>)
    requires r.Valid()
  {
    Next(r.head, |r.slots|) == r.tail
  }

  lemma {:induction false} WouldDropIsSizeCapMinusOne<F>(r: Ring<F>)
    requires r.Valid()
    ensures WouldDrop(r) <==> Size(r) == |r.slots| - 1
  {
    var n := |r.slots|;
    if r.head + 1 == n {
      assert Next(r.head, n) == 0;
    } else {
      assert Next(r.head, n) == r.head + 1;
    }
  }

  /** `addFrame` as written: when the next head position is the tail, only the
      tail advances and the new frame is NOT stored; otherwise the frame is
      copied into the head slot and the head advances. The boolean is the
      return value. */
  function Add<F>(r: Ring<F>, f: F): (res: (Ring<F>, bool))
    requires r.Valid()
    ensures res.0.Valid() && |res.0.slots| == |r.slots|
    ensures res.1 <==> Size(r) < |r.slots| - 1
    ensures res.1 ==> View(res.0) == View(r) + [f]
    ensures !res.1 ==> View(res.0) == DropOldest(View(r))
  {
    WouldDropIsSizeCapMinusOne(r);
    var n := |r.slots|;
    var nextHead := Next(r.head, n);
    if nextHead == r.tail then
      var r' := r.(tail := Next(r.tail, n));
      DropKeepsRest(r);
      (r', false)
    else
      var r' := r.(slots := r.slots[r.head := f], head := nextHead);
      StoreAppends(r, f);
      (r', true)
  }

  lemma StoreAppends<F>(r: Ring<F>, f: F)
    requires r.Valid() && Next(r.head, |r.slots|) != r.tail
    ensures var r' := r.(slots := r.slots[r.head := f], head := Next(r.head, |r.slots|));
            r'.Valid() && View(r') == View(r) + [f]
  {
    var n := |r.slots|;
    var s' := r.slots[r.head := f];
    var r' := r.(slots := s', head := Next(r.head, n));
    if r.tail <= r.head {
      if r.head + 1 == n {
        assert r.tail != 0;
        assert View(r') == s'[r.tail..] + s'[..0];
        assert s'[r.tail..] == r.slots[r.tail..r.head] + [f];
      } else {
        assert View(r') == s'[r.tail..r.head + 1];
        assert s'[r.tail..r.head + 1] == r.slots[r.tail..r.head] + [f];
      }
    } else {
      assert r.head + 1 < r.tail;
      assert View(r') == s'[r.tail..] + s'[..r.head + 1];
      assert s'[r.tail..] == r.slots[r.tail..];
      assert s'[..r.head + 1] == r.slots[..r.head] + [f];
    }
  }

  lemma DropKeepsRest<F>(r: Ring<F>)
    requires r.Valid() && Next(r.head, |r.slots|) == r.tail
    ensures var r' := r.(tail := Next(r.tail, |r.slots|));
            r'.Valid() && View(r') == DropOldest(View(r))
  {
    var n := |r.slots|;
    var r' := r.(tail := Next(r.tail, n));
    if n == 1 {
      assert View(r) == [] && View(r') == [];
    } else if r.tail <= r.head {
      assert r.tail == 0 && r.head == n - 1;
      assert View(r') == r.slots[1..n - 1];
    } else if r.tail + 1 == n {
      assert r.head == n - 2;
      assert View(r) == [r.slots[n - 1]] + r.slots[..r.head];
      assert View(r') == r.slots[0..r.head];
    } else {
      assert View(r') == r.slots[r.tail + 1..] + r.slots[..r.head];
      assert View(r)[1..] == r.slots[r.tail + 1..] + r.slots[..r.head];
    }
  }

  /** `getFrame`: nothing on an empty ring (which stays as it is); otherwise the
      oldest frame, and the tail advances past it. */
  function Get<F>(r: Ring<F>): (res: (Ring<F>, Option<F>))
    requires r.Valid()
    ensures res.0.Valid() && |res.0.slots| == |r.slots|
    ensures res.1 == None <==> View(r) == []
    ensures res.1 == None ==> res.0 == r
    ensures res.1.Some? ==> View(r) != [] && res.1.value == View(r)[0] && View(res.0) == View(r)[1..]
  {
    if r.head == r.tail then (r, None)
    else
      var r' := r.(tail := Next(r.tail, |r.slots|));
      TakeOldest(r);
      (r', Some(r.slots[r.tail]))
  }

  lemma TakeOldest<F>(r: Ring<F>)
    requires r.Valid() && r.head != r.tail
    ensures var r' := r.(tail := Next(r.tail, |r.slots|));
            r'.Valid() && View(r) != [] && View(r)[0] == r.slots[r.tail] && View(r') == View(r)[1..]
  {
    var n := |r.slots|;
    var r' := r.(tail := Next(r.tail, n));
    if r.tail < r.head {
      assert View(r') == r.slots[r.tail + 1..r.head];
    } else if r.tail + 1 == n {
      assert View(r) == [r.slots[r.tail]] + r.slots[..r.head];
      assert View(r') == r.slots[0..r.head];
    } else {
      assert View(r') == r.slots[r.tail + 1..] + r.slots[..r.head];
      assert View(r)[1..] == r.slots[r.tail + 1..] + r.slots[..r.head];
    }
  }

  /** `isEmpty()`: head and tail coincide, exactly when nothing is readable. */
  function IsEmptyRing<F>(r: Ring<F>): (b: bool)
    requires r.Valid()
    ensures b <==> Size(r) == 0
    ensures b <==> View(r) == []
  {
    r.head == r.tail
  }

  /** `isFull()` as written: the slot after the TAIL is the head. With two or
      more slots that means exactly one frame is readable; with one slot it is
      always true. */
  function IsFullRing<F>(r: Ring<F>): (b: bool)
    requires r.Valid()
    ensures |r.slots| == 1 ==> b
    ensures |r.slots| >= 2 ==> (b <==> Size(r) == 1)
  {
    Next(r.tail, |r.slots|) == r.head
  }

  /** `isFull()` as its comment describes it: the next `addFrame` would drop a
      frame. */
  function IsFullCorrected<F>(r: Ring<F>): (b: bool)
    requires r.Valid()
    ensures b <==> !Add(r, r.slots[0]).1
  {
    WouldDropIsSizeCapMinusOne(r);
    Size(r) == |r.slots| - 1
  }

  /** The header's `isFull()` agrees with "the next add drops a frame" for one
      or two slots only. */
  lemma IsFullAgreesOnlyUpToTwoSlots<F>(r: Ring<F>)
    requires r.Valid() && |r.slots| <= 2
    ensures IsFullRing(r) == IsFullCorrected(r)
  {
  }

  /** With three slots the two disagree: one readable frame gives `isFull()`
      true although the next add stores its frame. */
  lemma IsFullDisagreesWithThreeSlots<F>(d: F, f: F)
    ensures var r := Ring([d, d, d], 1, 0);
            r.Valid() && IsFullRing(r) && !IsFullCorrected(r) && Add(r, f).1
  {
    var r := Ring([d, d, d], 1, 0);
    assert Size(r) == 1;
  }

  /** A ring of capacity one never holds a frame: every add drops. */
  lemma {:induction false} CapacityOneNeverHolds<F>(r: Ring<F>, f: F)
    requires r.Valid() && |r.slots| == 1
    ensures !Add(r, f).1 && View(Add(r, f).0) == [] && Get(Add(r, f).0).1 == None
  {
    assert Size(r) == 0;
  }

  /** Adds the frames one after another, from the left. */
  function AddAll<F>(r: Ring<F>, fs: seq<F>): (r': Ring<F>)
    requires r.Valid()
    ensures r'.Valid() && |r'.slots| == |r.slots|
    decreases |fs|
  {
    if fs == [] then r else AddAll(Add(r, fs[0]).0, fs[1..])
  }

  /** Capacity 3, frames F1..F5 added in order: only F4 is left to read, since
      each "full" add drops the oldest frame and also discards the new one. */
  lemma ThreeSlotsFiveFramesLeavesFourth<F>(d: F, f1: F, f2: F, f3: F, f4: F, f5: F)
    ensures View(AddAll(Ring([d, d, d], 0, 0), [f1, f2, f3, f4, f5])) == [f4]
  {
    var r0 := Ring([d, d, d], 0, 0);
    var r1 := Add(r0, f1).0;
    assert View(r1) == [f1];
    var r2 := Add(r1, f2).0;
    assert View(r2) == [f1, f2];
    var r3 := Add(r2, f3).0;
    assert View(r3) == [f2];
    var r4 := Add(r3, f4).0;
    assert View(r4) == [f2, f4];
    var r5 := Add(r4, f5).0;
    assert View(r5) == [f4];
    assert [f1, f2, f3, f4, f5][1..] == [f2, f3, f4, f5];
    assert [f2, f3, f4, f5][1..] == [f3, f4, f5];
    assert [f3, f4, f5][1..] == [f4, f5];
    assert [f4, f5][1..] == [f5];
    assert [f5][1..] == [];
    assert AddAll(r4, [f5]) == AddAll(r5, []) == r5;
    assert AddAll(r3, [f4, f5]) == AddAll(r4, [f5]);
    assert AddAll(r2, [f3, f4, f5]) == AddAll(r3, [f4, f5]);
    assert AddAll(r1, [f2, f3, f4, f5]) == AddAll(r2, [f3, f4, f5]);
    assert AddAll(r0, [f1, f2, f3, f4, f5]) == AddAll(r1, [f2, f3, f4, f5]);
  }

  /** The evidently intended `addFrame`: when full, drop the oldest frame AND
      store the new one. */
  function AddOverwriting<F>(r: Ring<F>, f: F): (res: (Ring<F>, bool))
    requires r.Valid()
    ensures res.0.Valid() && |res.0.slots| == |r.slots|
    ensures res.1 <==> Size(r) < |r.slots| - 1
  {
    WouldDropIsSizeCapMinusOne(r);
    var n := |r.slots|;
    var nextHead := Next(r.head, n);
    if nextHead == r.tail then
      (r.(slots := r.slots[r.head := f], head := nextHead, tail := Next(r.tail, n)), false)
    else
      (r.(slots := r.slots[r.head := f], head := nextHead), true)
  }

  /** With at least two slots the corrected add always makes the new frame the
      newest readable one, dropping only the oldest when full. */
  lemma {:induction false} OverwritingKeepsNewFrame<F>(r: Ring<F>, f: F)
    requires r.Valid() && |r.slots| >= 2
    ensures View(AddOverwriting(r, f).0) == DropOldestIfFull(r) + [f]
  {
    WouldDropIsSizeCapMinusOne(r);
    var n := |r.slots|;
    if Next(r.head, n) == r.tail {
      var dropped := r.(tail := Next(r.tail, n));
      DropKeepsRest(r);
      assert Next(dropped.head, n) != dropped.tail;
      StoreAppends(dropped, f);
      assert AddOverwriting(r, f).0 == dropped.(slots := dropped.slots[dropped.head := f], head := Next(dropped.head, n));
    } else {
      StoreAppends(r, f);
    }
  }

  function DropOldestIfFull<F>(r: Ring<F>): seq<F>
    requires r.Valid()
  {
    if WouldDrop(r) then DropOldest(View(r)) else View(r)
  }

  /** The ring that `FrameBuffer` keeps in an array: `capacity_`,
      `frame_buffer_`, `head_` and `tail_`. */
  class FrameBuffer<F(0)> {
    const capacity: nat
    var frames: array<F>
    var head: nat
    var tail: nat

    ghost predicate Valid()
      reads this
    {
      frames.Length == capacity && capacity >= 1 && head < capacity && tail < capacity
    }

    ghost function Model(): (r: Ring<F>)
      reads this, frames
      requires Valid()
      ensures r.Valid()
    {
      Ring(frames[..], head, tail)
    }

    /** The frames still to be read, oldest first. */
    ghost function Contents(): seq<F>
      reads this, frames
      requires Valid()
    {
      View(Model())
    }

    constructor (cap: nat)
      requires cap >= 1
      ensures Valid() && fresh(frames)
      ensures capacity == cap && head == 0 && tail == 0 && Contents() == []
    {
      capacity := cap;
      frames := new F[cap];
      head, tail := 0, 0;
    }

    /** The checked constructor: capacity 0 is the `invalid_argument` error;
        otherwise an empty buffer with both indices at 0. */
    static method Create(cap: nat) returns (b: Result<FrameBuffer<F>>)
      ensures cap == 0 <==> b.Failure?
      ensures b.Success? ==> fresh(b.value) && fresh(b.value.frames) && b.value.Valid()
      ensures b.Success? ==> b.value.capacity == cap && b.value.head == 0 && b.value.tail == 0
      ensures b.Success? ==> b.value.Contents() == []
    {
      if cap == 0 {
        return Failure("FrameBuffer capacity must be greater than zero.");
      }
      var fb := new FrameBuffer(cap);
      return Success(fb);
    }

    method AddFrame(f: F) returns (stored: bool)
      requires Valid()
      modifies this, frames
      ensures Valid() && frames == old(frames)
      ensures (Model(), stored) == Add(old(Model()), f)
      ensures stored ==> Contents() == old(Contents()) + [f]
      ensures !stored ==> Contents() == DropOldest(old(Contents()))
    {
      var nextHead := (head + 1) % capacity;
      if nextHead == tail {
        tail := (tail + 1) % capacity;
        return false;
      }
      frames[head] := f;
      head := nextHead;
      return true;
    }

    /** `getFrame(frame)`: `prev` is the caller's variable, which stays as it
        was when nothing can be read. */
    method GetFrame(prev: F) returns (ok: bool, frame: F)
      requires Valid()
      modifies this
      ensures Valid() && frames == old(frames) && frames[..] == old(frames[..])
      ensures (Model(), if ok then Some(frame) else None) == Get(old(Model()))
      ensures !ok ==> frame == prev && head == old(head) && tail == old(tail)
      ensures ok ==> frame == old(Contents())[0] && Contents() == old(Contents())[1..]
    {
      if head == tail {
        return false, prev;
      }
      frame := frames[tail];
      tail := (tail + 1) % capacity;
      ok := true;
    }

    function IsEmpty(): (b: bool)
      reads this, frames
      requires Valid()
      ensures b <==> Contents() == []
    {
      head == tail
    }

    function IsFull(): (b: bool)
      reads this, frames
      requires Valid()
      ensures b == IsFullRing(Model())
      ensures capacity >= 2 ==> (b <==> |Contents()| == 1)
    {
      (tail + 1) % capacity == head
    }

    function Size(): (n: nat)
      reads this, frames
      requires Valid()
      ensures n == |Contents()| && n <= capacity - 1
    {
      if head >= tail then head - tail else capacity - tail + head
    }

    function Capacity(): (n: nat)
      reads this
      requires Valid()
      ensures n == frames.Length
    {
      capacity
    }
  }
}
