/** The single-producer single-consumer ring: masked indices, byte slots and every interleaving. */
module SpscRing {
  import opened Bytes
  import opened Domain

  // ---------- masks ----------

  /** Bitwise and. */
  function And(x: nat, y: nat): nat {
    if x == 0 || y == 0 then 0 else 2 * And(x / 2, y / 2) + (x % 2) * (y % 2)
  }

  predicate PowerOfTwo(n: nat)
    decreases n
  {
    n == 1 || (n > 1 && n % 2 == 0 && PowerOfTwo(n / 2))
  }

  lemma {:induction false} AndSelf(x: nat)
    ensures And(x, x) == x
  {
    if x > 0 {
      AndSelf(x / 2);
    }
  }

  /** Masking with one less than a power of two is taking the remainder. */
  lemma {:induction false} MaskIsRemainder(x: nat, n: nat)
    requires PowerOfTwo(n)
    ensures And(x, n - 1) == x % n
    decreases n
  {
    hide And;
    if n > 1 {
      MaskIsRemainder(x / 2, n / 2);
      HalfMask(x, n / 2, n);
      HalfRemainder(x, n / 2, n);
    } else {
      MaskByZero(x);
    }
  }

  lemma {:induction false} MaskByZero(x: nat)
    ensures And(x, 0) == x % 1
  {
  }

  lemma {:induction false} HalfMask(x: nat, m: nat, n: nat)
    requires m > 0 && n == 2 * m
    ensures And(x, n - 1) == 2 * And(x / 2, m - 1) + x % 2
  {
    assert (n - 1) / 2 == m - 1 && (n - 1) % 2 == 1;
    if x == 0 {
      assert And(0, m - 1) == 0;
    }
  }

  lemma {:induction false} HalfRemainder(x: nat, m: nat, n: nat)
    requires m > 0 && n == 2 * m
    ensures x % n == 2 * (x / 2 % m) + x % 2
  {
    var q, r := x / 2 / m, x / 2 % m;
    assert x / 2 == q * m + r;
    assert q * n == 2 * (q * m);
    Quotient(x, n, q, 2 * r + x % 2);
  }

  lemma {:induction false} NotPowerLeavesBits(n: nat)
    requires n > 1 && !PowerOfTwo(n)
    ensures And(n, n - 1) != 0
    decreases n
  {
    if n % 2 == 0 {
      NotPowerLeavesBits(n / 2);
      assert (n - 1) / 2 == n / 2 - 1;
    } else {
      AndSelf(n / 2);
      assert (n - 1) / 2 == n / 2;
    }
  }

  /** A mask does the work of the remainder exactly for powers of two. */
  lemma {:induction false} MaskWorksIff(n: nat)
    requires n > 0
    ensures (forall x: nat :: And(x, n - 1) == x % n) <==> PowerOfTwo(n)
  {
    if PowerOfTwo(n) {
      forall x: nat
        ensures And(x, n - 1) == x % n
      {
        MaskIsRemainder(x, n);
      }
    } else {
      NotPowerLeavesBits(n);
      assert And(n, n - 1) != n % n;
    }
  }

  // ---------- Python slices ----------

  function Clamp(i: nat, n: nat): nat { if i <= n then i else n }

  /** s[start:end] = item[:end - start] on a bytearray: a shorter item shortens the array. */
  function Splice(s: seq<Byte>, start: nat, end: nat, item: seq<Byte>): seq<Byte>
    requires start <= end
  {
    s[..Clamp(start, |s|)] + item[..Clamp(end - start, |item|)] + s[Clamp(end, |s|)..]
  }

  function SlotOf(s: seq<Byte>, k: nat, size: nat): seq<Byte>
    requires (k + 1) * size <= |s|
  {
    SlotBounds(k, size);
    s[k * size..(k + 1) * size]
  }

  lemma {:induction false} SlotBounds(k: nat, size: nat)
    ensures 0 <= k * size && (k + 1) * size == k * size + size
  {
  }

  lemma {:induction false} SlotOrder(j: nat, k: nat, size: nat)
    requires j < k
    ensures (j + 1) * size <= k * size
  {
    assert k * size == (j + 1) * size + (k - j - 1) * size;
    assert (k - j - 1) * size >= 0;
  }

  /** Writing a full item changes its own slot only. */
  lemma {:induction false} SpliceSlots(s: seq<Byte>, slots: nat, size: nat, k: nat, item: seq<Byte>, j: nat)
    requires |s| == slots * size && k < slots && j < slots && |item| >= size && k * size >= 0
    ensures var s' := Splice(s, k * size, k * size + size, item);
            && |s'| == |s| && (j + 1) * size <= |s|
            && SlotOf(s', j, size) == if j == k then item[..size] else SlotOf(s, j, size)
  {
    SlotBounds(k, size);
    SlotBounds(j, size);
    SlotWithin(k, slots, size);
    SlotWithin(j, slots, size);
    if j < k {
      SlotOrder(j, k, size);
    } else if k < j {
      SlotOrder(k, j, size);
    }
  }

  lemma {:induction false} SlotWithin(k: nat, slots: nat, size: nat)
    requires k < slots
    ensures (k + 1) * size <= slots * size
  {
    assert slots * size == (k + 1) * size + (slots - k - 1) * size;
    assert (slots - k - 1) * size >= 0;
  }

  // ---------- the ring, one call at a time ----------

  class SPSCRingBuffer {
    const capacity: nat
    const mask: nat
    const itemSize: nat
    /** Items ever put in and ever taken out. */
    var head: nat
    var tail: nat
    var buffer: seq<Byte>

    constructor (wanted: nat, itemSize: nat)
      ensures Valid() && Contents() == [] && this.itemSize == itemSize
      ensures PowerOfTwo(capacity) && capacity >= 2 && capacity >= wanted
      ensures if wanted >= 2 then capacity < 2 * wanted else capacity == 2
    {
      var cap := 1;
      var least := if wanted >= 2 then wanted else 2;
      while cap < least
        invariant PowerOfTwo(cap) && (cap == 1 || (cap < 2 * least && cap % 2 == 0))
        decreases least - cap
      {
        cap := 2 * cap;
      }
      capacity, mask, this.itemSize := cap, cap - 1, itemSize;
      head, tail := 0, 0;
      buffer := seq(cap * itemSize, i => 0);
    }

    ghost predicate Valid()
      reads this
    {
      && capacity >= 2 && PowerOfTwo(capacity) && mask == capacity - 1
      && tail <= head <= tail + capacity && |buffer| == capacity * itemSize
    }

    ghost function Slot(counter: nat): seq<Byte>
      requires Valid()
      reads this
    {
      SlotWithin(counter % capacity, capacity, itemSize);
      SlotOf(buffer, counter % capacity, itemSize)
    }

    /** The items between the counters, oldest first. */
    ghost function Contents(): (items: seq<seq<Byte>>)
      requires Valid()
      reads this
      ensures |items| == head - tail
      ensures forall i :: 0 <= i < |items| ==> items[i] == Slot(tail + i)
    {
      seq(head - tail, i requires 0 <= i < head - tail && Valid() reads this => Slot(tail + i))
    }

    /** Write one item, or report that there is no room. An item too short shortens the buffer under the ring. */
    method Put(item: seq<Byte>) returns (accepted: bool)
      requires Valid()
      modifies `head, `buffer
      ensures accepted <==> old(head) - tail < capacity
      ensures !accepted ==> head == old(head) && buffer == old(buffer)
      ensures accepted ==> head == old(head) + 1 && (Valid() <==> |item| >= itemSize)
      ensures accepted && |item| >= itemSize ==> Contents() == old(Contents()) + [item[..itemSize]]
    {
      hide And, Splice, SPSCRingBuffer.Slot, PowerOfTwo, Laid;
      if head - tail >= capacity {
        return false;
      }
      MaskIsRemainder(head, capacity);
      var slot := And(head, mask);
      var start := slot * itemSize;
      ghost var was, items := buffer, Contents();
      SpliceLength(buffer, capacity, slot, itemSize, item);
      ContentsLaid(this);
      buffer := Splice(buffer, start, start + itemSize, item);
      head := head + 1;
      accepted := true;
      if |item| >= itemSize {
        SlotsAfterPut(this, was, items, slot, item);
      }
    }

    /** Take out the oldest item, if there is one. */
    method Get() returns (item: Option<seq<Byte>>)
      requires Valid()
      modifies `tail
      ensures Valid() && buffer == old(buffer)
      ensures item == if old(Contents()) == [] then None else Some(old(Contents())[0])
      ensures Contents() == if old(Contents()) == [] then [] else old(Contents())[1..]
    {
      item := Peek();
      if item.Some? {
        tail := tail + 1;
      }
    }

    /** The oldest item, left where it is. */
    method Peek() returns (item: Option<seq<Byte>>)
      requires Valid()
      ensures item == if Contents() == [] then None else Some(Contents()[0])
    {
      if tail == head {
        return None;
      }
      MaskIsRemainder(tail, capacity);
      var slot := And(tail, mask);
      SlotBounds(slot, itemSize);
      SlotWithin(slot, capacity, itemSize);
      item := Some(buffer[slot * itemSize..slot * itemSize + itemSize]);
    }
  }

  const FRAME: nat := 64

  /** Typed frames in one ring: a tag byte and 64 frame bytes to a slot. */
  class BinaryEventRing {
    const ring: SPSCRingBuffer

    constructor (capacity: nat)
      ensures ring.Valid() && ring.itemSize == 65 && ring.Contents() == [] && fresh(ring)
    {
      ring := new SPSCRingBuffer(capacity, FRAME + 1);
    }

    ghost predicate Valid()
      reads this, ring
    {
      ring.Valid() && ring.itemSize == FRAME + 1
    }

    ghost function Frames(): (frames: seq<(Byte, seq<Byte>)>)
      requires Valid()
      reads this, ring
      ensures |frames| == |ring.Contents()| == ring.head - ring.tail
      ensures forall i :: 0 <= i < |frames| ==> |ring.Contents()[i]| == FRAME + 1 && frames[i] == (ring.Contents()[i][0], ring.Contents()[i][1..])
    {
      ContentsSized(ring);
      var items := ring.Contents();
      seq(|items|, i requires 0 <= i < |items| && |items[i]| == FRAME + 1 => (items[i][0], items[i][1..]))
    }

    /** Queue a frame under its tag; a frame that is too short damages the ring, as any short item does. */
    method PutFrame(tag: Byte, frame: seq<Byte>) returns (accepted: bool)
      requires Valid()
      modifies ring
      ensures accepted == (|old(Frames())| < ring.capacity)
      ensures Valid() <==> !accepted || |frame| >= 64
      ensures Valid() ==> Frames() == if accepted then old(Frames()) + [(tag, frame[..64])] else old(Frames())
    {
      var slot := [tag] + frame[..Clamp(FRAME, |frame|)];
      ghost var frames := Frames();
      accepted := ring.Put(slot);
      assert |frame| >= FRAME ==> slot[..FRAME + 1] == slot && slot[1..] == frame[..FRAME];
    }

    method GetFrame() returns (frame: Option<(Byte, seq<Byte>)>)
      requires Valid()
      modifies ring
      ensures Valid()
      ensures frame == if old(Frames()) == [] then None else Some(old(Frames())[0])
      ensures Frames() == if old(Frames()) == [] then [] else old(Frames())[1..]
    {
      ghost var frames := Frames();
      var raw := ring.Get();
      frame := if raw.None? then None else Some((raw.value[0], raw.value[1..]));
    }
  }

  lemma {:induction false} ContentsSized(r: SPSCRingBuffer)
    requires r.Valid()
    ensures forall i :: 0 <= i < |r.Contents()| ==> |r.Contents()[i]| == r.itemSize
  {
    forall i | 0 <= i < |r.Contents()|
      ensures |r.Contents()[i]| == r.itemSize
    {
      assert r.Contents()[i] == r.Slot(r.tail + i);
      SlotBounds((r.tail + i) % r.capacity, r.itemSize);
      SlotWithin((r.tail + i) % r.capacity, r.capacity, r.itemSize);
    }
  }

  /** `items` lie in consecutive slots of the plain buffer, from counter `first` on. */
  ghost predicate Laid(s: seq<Byte>, slots: nat, size: nat, first: nat, items: seq<seq<Byte>>) {
    slots > 0
    && forall i :: 0 <= i < |items| ==>
         ((first + i) % slots + 1) * size <= |s| && items[i] == SlotOf(s, (first + i) % slots, size)
  }

  lemma {:induction false} ContentsLaid(r: SPSCRingBuffer)
    requires r.Valid()
    ensures Laid(r.buffer, r.capacity, r.itemSize, r.tail, r.Contents())
  {
    forall i | 0 <= i < r.head - r.tail
      ensures ((r.tail + i) % r.capacity + 1) * r.itemSize <= |r.buffer|
      ensures r.Contents()[i] == SlotOf(r.buffer, (r.tail + i) % r.capacity, r.itemSize)
    {
      SlotWithin((r.tail + i) % r.capacity, r.capacity, r.itemSize);
      assert r.Contents()[i] == r.Slot(r.tail + i);
    }
  }

  lemma {:induction false} SlotsAfterPut(r: SPSCRingBuffer, was: seq<Byte>, items: seq<seq<Byte>>, slot: nat, item: seq<Byte>)
    requires r.Valid() && r.tail < r.head && |was| == |r.buffer| && |items| == r.head - 1 - r.tail && |item| >= r.itemSize
    requires slot == (r.head - 1) % r.capacity && slot * r.itemSize >= 0
    requires r.buffer == Splice(was, slot * r.itemSize, slot * r.itemSize + r.itemSize, item)
    requires Laid(was, r.capacity, r.itemSize, r.tail, items)
    ensures r.Contents() == items + [item[..r.itemSize]]
  {
    hide Splice, SlotOf;
    forall i | 0 <= i < r.head - r.tail
      ensures r.Contents()[i] == (items + [item[..r.itemSize]])[i]
    {
      assert r.Contents()[i] == r.Slot(r.tail + i);
      SpliceSlots(was, r.capacity, r.itemSize, slot, item, (r.tail + i) % r.capacity);
      if i < r.head - r.tail - 1 {
        SlotsApart(r.tail + i, r.head - 1, r.capacity);
      }
    }
  }

  lemma {:induction false} SpliceLength(s: seq<Byte>, slots: nat, k: nat, size: nat, item: seq<Byte>)
    requires k < slots && |s| == slots * size
    ensures k * size >= 0
    ensures |Splice(s, k * size, k * size + size, item)| == if |item| >= size then |s| else |s| - (size - |item|)
  {
    SlotBounds(k, size);
    SlotWithin(k, slots, size);
  }

  /** Counters less than a capacity apart use different slots. */
  lemma {:induction false} SlotsApart(a: nat, b: nat, capacity: nat)
    requires a < b < a + capacity
    ensures a % capacity != b % capacity
  {
    var qa, qb := a / capacity, b / capacity;
    var turns: int := qb - qa;
    assert a == qa * capacity + a % capacity;
    assert b == qb * capacity + b % capacity;
    assert turns * capacity == qb * capacity - qa * capacity;
    assert turns >= 1 ==> turns * capacity >= capacity;
    assert turns <= 0 ==> turns * capacity <= 0;
  }

  // ---------- one producer and one consumer, step by step ----------

  /** A producer has looked at the counters, and is copying `item` byte by byte; `copied` bytes are in place. */
  datatype Producer = Idle | Looked(item: seq<Byte>, seen: nat) | Copying(item: seq<Byte>, copied: nat)

  /** A consumer has looked at the counters, and is copying the slot out byte by byte. */
  datatype Consumer = Resting | Reading(copy: seq<Byte>)

  /**
   The shared memory, cut into slots, the two counters, and where each thread is.
   `accepted` and `got` are all items ever published and ever handed out.
   */
  datatype Ring = Ring(size: nat, memory: seq<seq<Byte>>, head: nat, tail: nat, producer: Producer, consumer: Consumer,
                       accepted: seq<seq<Byte>>, got: seq<seq<Byte>>)
  {
    function Capacity(): nat { |memory| }
  }

  datatype Action =
    | Offer(item: seq<Byte>)   // read head and tail
    | CheckRoom                // compare them: give up, or start copying
    | WriteByte
    | PublishHead
    | LookForItem              // read tail and head: give up, or start copying
    | ReadByte
    | PublishTail

  predicate Enabled(r: Ring, a: Action) {
    match a
    case Offer(item) => r.producer.Idle? && |item| >= r.size
    case CheckRoom => r.producer.Looked?
    case WriteByte => r.producer.Copying? && r.producer.copied < r.size <= |r.producer.item| && r.Capacity() > 0
                      && r.producer.copied < |r.memory[r.head % r.Capacity()]|
    case PublishHead => r.producer.Copying? && r.producer.copied == r.size <= |r.producer.item|
    case LookForItem => r.consumer.Resting?
    case ReadByte => r.consumer.Reading? && |r.consumer.copy| < r.size && r.Capacity() > 0
                     && |r.memory[r.tail % r.Capacity()]| > |r.consumer.copy|
    case PublishTail => r.consumer.Reading? && |r.consumer.copy| == r.size
  }

  function Do(r: Ring, a: Action): Ring
    requires Enabled(r, a)
  {
    match a
    case Offer(item) => r.(producer := Looked(item, r.tail))
    case CheckRoom =>
      if r.head - r.producer.seen >= r.Capacity() then r.(producer := Idle) else r.(producer := Copying(r.producer.item, 0))
    case WriteByte =>
      var k, j := r.head % r.Capacity(), r.producer.copied;
      r.(memory := r.memory[k := r.memory[k][j := r.producer.item[j]]], producer := Copying(r.producer.item, j + 1))
    case PublishHead =>
      r.(head := r.head + 1, producer := Idle, accepted := r.accepted + [r.producer.item[..r.size]])
    case LookForItem =>
      if r.tail == r.head then r else r.(consumer := Reading([]))
    case ReadByte =>
      r.(consumer := Reading(r.consumer.copy + [r.memory[r.tail % r.Capacity()][|r.consumer.copy|]]))
    case PublishTail =>
      r.(tail := r.tail + 1, consumer := Resting, got := r.got + [r.consumer.copy])
  }

  ghost predicate Counters(r: Ring) {
    && r.Capacity() > 0 && r.tail <= r.head <= r.tail + r.Capacity()
    && |r.accepted| == r.head && |r.got| == r.tail && r.got == r.accepted[..r.tail]
    && (forall k :: 0 <= k < |r.memory| ==> |r.memory[k]| == r.size)
    && (forall i :: 0 <= i < |r.accepted| ==> |r.accepted[i]| == r.size)
  }

  /** Every published and unread item is in its slot. */
  ghost predicate Stored(r: Ring)
    requires Counters(r)
  {
    forall i :: r.tail <= i < r.head ==> r.memory[i % r.Capacity()] == r.accepted[i]
  }

  ghost predicate ProducerOk(r: Ring)
    requires Counters(r)
  {
    match r.producer
    case Idle => true
    case Looked(item, seen) => |item| >= r.size && seen <= r.tail
    case Copying(item, copied) =>
      |item| >= r.size && copied <= r.size && r.head < r.tail + r.Capacity() && r.memory[r.head % r.Capacity()][..copied] == item[..copied]
  }

  ghost predicate ConsumerOk(r: Ring)
    requires Counters(r)
  {
    r.consumer.Reading? ==> r.tail < r.head && |r.consumer.copy| <= r.size && r.consumer.copy == r.accepted[r.tail][..|r.consumer.copy|]
  }

  ghost predicate Safe(r: Ring) {
    Counters(r) && Stored(r) && ProducerOk(r) && ConsumerOk(r)
  }

  lemma {:induction false} WriteKeeps(r: Ring)
    requires Safe(r) && Enabled(r, WriteByte)
    ensures Safe(Do(r, WriteByte))
  {
    var r' := Do(r, WriteByte);
    var n, k, j := r.Capacity(), r.head % r.Capacity(), r.producer.copied;
    forall i | r.tail <= i < r.head
      ensures r'.memory[i % n] == r.accepted[i]
    {
      SlotsApart(i, r.head, n);
    }
    assert r'.memory[k][..j + 1] == r.memory[k][..j] + [r.producer.item[j]];
    assert r.producer.item[..j + 1] == r.producer.item[..j] + [r.producer.item[j]];
  }

  lemma {:induction false} PublishKeeps(r: Ring)
    requires Safe(r) && Enabled(r, PublishHead)
    ensures Safe(Do(r, PublishHead))
  {
    var k := r.head % r.Capacity();
    assert r.memory[k] == r.memory[k][..r.size];
  }

  lemma {:induction false} ReadKeeps(r: Ring)
    requires Safe(r) && Enabled(r, ReadByte)
    ensures Safe(Do(r, ReadByte))
  {
    var n := |r.consumer.copy|;
    assert r.accepted[r.tail][..n + 1] == r.accepted[r.tail][..n] + [r.accepted[r.tail][n]];
  }

  lemma {:induction false} TakeKeeps(r: Ring)
    requires Safe(r) && Enabled(r, PublishTail)
    ensures Safe(Do(r, PublishTail))
  {
    assert r.consumer.copy == r.accepted[r.tail];
    assert r.accepted[..r.tail + 1] == r.accepted[..r.tail] + [r.accepted[r.tail]];
  }

  /** Every step of either thread keeps the ring safe. */
  lemma {:induction false} StepKeeps(r: Ring, a: Action)
    requires Safe(r) && Enabled(r, a)
    ensures Safe(Do(r, a))
  {
    match a
    case Offer(_) =>
    case CheckRoom =>
      assert r.memory[r.head % r.Capacity()][..0] == [];
    case WriteByte => WriteKeeps(r);
    case PublishHead => PublishKeeps(r);
    case LookForItem =>
    case ReadByte => ReadKeeps(r);
    case PublishTail => TakeKeeps(r);
  }

  /** A schedule: the two threads' steps in any order that each one allows. */
  ghost predicate Schedule(r: Ring, actions: seq<Action>)
    decreases |actions|
  {
    actions == [] || (Enabled(r, actions[0]) && Schedule(Do(r, actions[0]), actions[1..]))
  }

  ghost function Outcome(r: Ring, actions: seq<Action>): Ring
    requires Schedule(r, actions)
    decreases |actions|
  {
    if actions == [] then r else Outcome(Do(r, actions[0]), actions[1..])
  }

  function Fresh(size: nat, memory: seq<seq<Byte>>): Ring {
    Ring(size, memory, 0, 0, Idle, Resting, [], [])
  }

  lemma {:induction false} AlwaysSafe(r: Ring, actions: seq<Action>)
    requires Safe(r) && Schedule(r, actions)
    ensures Safe(Outcome(r, actions))
    decreases |actions|
  {
    if actions != [] {
      StepKeeps(r, actions[0]);
      AlwaysSafe(Do(r, actions[0]), actions[1..]);
    }
  }

  /**
   Under every interleaving: what was handed out is a prefix of what was accepted, at
   most a capacity of items is in flight, and while one thread reads a slot the other
   never writes it.
   */
  lemma {:induction false} EveryInterleavingIsFifo(size: nat, memory: seq<seq<Byte>>, actions: seq<Action>)
    requires |memory| > 0 && (forall k :: 0 <= k < |memory| ==> |memory[k]| == size)
    requires Schedule(Fresh(size, memory), actions)
    ensures var r := Outcome(Fresh(size, memory), actions);
            && r.got <= r.accepted && |r.accepted| - |r.got| == r.head - r.tail && 0 <= r.head - r.tail <= r.Capacity()
            && (r.producer.Copying? && r.consumer.Reading? ==> r.Capacity() > 0 && r.head % r.Capacity() != r.tail % r.Capacity())
  {
    AlwaysSafe(Fresh(size, memory), actions);
    var r := Outcome(Fresh(size, memory), actions);
    if r.producer.Copying? && r.consumer.Reading? {
      SlotsApart(r.tail, r.head, r.Capacity());
    }
  }

  /** In every reachable state, a thread that is past its check has a next step: neither waits for the other. */
  lemma {:induction false} NeverStuck(size: nat, memory: seq<seq<Byte>>, actions: seq<Action>)
    requires |memory| > 0 && (forall k :: 0 <= k < |memory| ==> |memory[k]| == size)
    requires Schedule(Fresh(size, memory), actions)
    ensures var r := Outcome(Fresh(size, memory), actions);
            && (r.producer.Looked? ==> Enabled(r, CheckRoom))
            && (r.producer.Copying? ==> Enabled(r, WriteByte) || Enabled(r, PublishHead))
            && (r.consumer.Reading? ==> Enabled(r, ReadByte) || Enabled(r, PublishTail))
  {
    AlwaysSafe(Fresh(size, memory), actions);
    var r := Outcome(Fresh(size, memory), actions);
    if r.consumer.Reading? {
      assert r.memory[r.tail % r.Capacity()] == r.accepted[r.tail];
    }
  }
}
