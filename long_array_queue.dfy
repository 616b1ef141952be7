/** An unboxed FIFO of Java `long`s kept in a power-of-two circular buffer.
    A sentinel `nullValue` marks empty slots and can never be stored; the buffer
    doubles, keeping head-to-tail order, the moment the tail catches the head. */
module LongArrayQueues {
  import opened Wrappers
  import opened WasmTypes

  /** `Long.MIN_VALUE`, the default sentinel. */
  const DefaultNullValue: int64 := -0x8000_0000_0000_0000
  const MinCapacity: int := 8
  /** The largest power of two a Java `int` holds. */
  const MaxCapacity: int := 0x4000_0000

  /** The exceptions the queue raises. */
  datatype QueueError =
    | NullElement       // NullPointerException: the sentinel was offered
    | IllegalArgument   // IllegalArgumentException: bad initial capacity
    | IllegalState      // IllegalStateException: max capacity reached
    | NoSuchElement     // NoSuchElementException: empty queue or exhausted iterator

  predicate IsPowerOfTwo(n: int)
    decreases if n < 0 then 0 else n
  {
    n == 1 || (n > 1 && n % 2 == 0 && IsPowerOfTwo(n / 2))
  }

  function Pow2(k: nat): (p: nat)
    ensures p >= 1
  {
    if k == 0 then 1 else 2 * Pow2(k - 1)
  }

  /** The number of significant bits of `v`. */
  function BitLength(v: nat): nat {
    if v == 0 then 0 else 1 + BitLength(v / 2)
  }

  /** `Integer.numberOfLeadingZeros`. */
  function NumberOfLeadingZeros(v: int32): int {
    if v < 0 then 0 else 32 - BitLength(v as nat)
  }

  /** The Java `int` expression `1 << d`: the distance is taken modulo 32. */
  function ShiftOne(d: int): int32 {
    var s := d % 32;
    if s == 31 then I32Min as int32
    else
      PowMono(s, 30);
      Pow2Thirty();
      Pow2(s) as int32
  }

  /** The Java `int` expression `x << 1`, wrapping at 32 bits. */
  function DoubleInt32(x: int32): int32 {
    var w := (2 * x as int) % 0x1_0000_0000;
    if w < 0x8000_0000 then w as int32 else (w - 0x1_0000_0000) as int32
  }

  /** `findNextPositivePowerOfTwo`: `1 << (32 - numberOfLeadingZeros(value - 1))`. */
  function FindNextPositivePowerOfTwo(value: int32): (r: int32)
    ensures r as int == I32Min || (IsPowerOfTwo(r as int) && r as int <= MaxCapacity)
  {
    var v: int32 := if value == I32Min as int32 then I32Max as int32 else value - 1;
    var d := 32 - NumberOfLeadingZeros(v);
    if d % 32 == 31 then ShiftOne(d)
    else
      Pow2Bounds(d % 32);
      PowMono(d % 32, 30);
      Pow2Thirty();
      ShiftOne(d)
  }

  /** `x & (capacity - 1)`, which for a power-of-two capacity is `x` modulo `capacity`. */
  function Mask(x: int, capacity: int): (r: int)
    requires IsPowerOfTwo(capacity)
    ensures 0 <= r < capacity
    ensures 0 <= x < capacity ==> r == x
    ensures capacity <= x < 2 * capacity ==> r == x - capacity
    ensures -capacity <= x < 0 ==> r == x + capacity
  {
    if -capacity <= x < 2 * capacity then
      ModCases(x, capacity);
      x % capacity
    else
      x % capacity
  }

  /** The Euclidean remainder on the three ranges the ring indices fall into. */
  lemma ModCases(x: int, c: int)
    requires c >= 1 && -c <= x < 2 * c
    ensures 0 <= x < c ==> x % c == x
    ensures c <= x < 2 * c ==> x % c == x - c
    ensures -c <= x < 0 ==> x % c == x + c
  {
    var q := x / c;
    assert x == q * c + x % c;
    MulOrder(q, -2, c);
    MulOrder(q, -1, c);
    MulOrder(q, 0, c);
    MulOrder(q, 1, c);
    MulOrder(q, 2, c);
  }

  lemma MulOrder(q: int, k: int, c: int)
    requires c >= 1
    ensures q >= k ==> q * c >= k * c
    ensures q <= k ==> q * c <= k * c
  {
    assert q * c - k * c == (q - k) * c;
  }

  /** The slot `k` places after slot `h` in a ring of `capacity` slots. */
  function Slot(h: int, k: int, capacity: int): int {
    if h + k < capacity then h + k else h + k - capacity
  }

  lemma Pow2Bounds(k: nat)
    ensures IsPowerOfTwo(Pow2(k))
  {
    if k > 0 {
      Pow2Bounds(k - 1);
      assert Pow2(k) / 2 == Pow2(k - 1);
    }
  }

  lemma {:induction false} Pow2Add(a: nat, b: nat)
    ensures Pow2(a + b) == Pow2(a) * Pow2(b)
  {
    if a > 0 {
      Pow2Add(a - 1, b);
    }
  }

  lemma Pow2Thirty()
    ensures Pow2(30) == MaxCapacity && Pow2(31) == 2 * MaxCapacity
  {
    assert Pow2(5) == 32;
    Pow2Add(5, 5);
    Pow2Add(10, 10);
    Pow2Add(20, 10);
  }

  lemma {:induction false} BitLengthBounds(v: nat)
    ensures v < Pow2(BitLength(v))
    ensures v > 0 ==> Pow2(BitLength(v) - 1) <= v
  {
    if v > 0 {
      BitLengthBounds(v / 2);
    }
  }

  lemma {:induction false} BitLengthMono(v: nat, k: nat)
    requires v < Pow2(k)
    ensures BitLength(v) <= k
  {
    if v > 0 {
      BitLengthMono(v / 2, k - 1);
    }
  }

  /** For every initial capacity in `1..2^30`, `findNextPositivePowerOfTwo` gives the
      least power of two that is at least that capacity. */
  lemma NextPowerOfTwoIsLeast(value: int32)
    requires 1 <= value as int <= MaxCapacity
    ensures var r := FindNextPositivePowerOfTwo(value) as int;
      IsPowerOfTwo(r) && value as int <= r && r < 2 * value as int && r <= MaxCapacity
  {
    var v := (value - 1) as nat;
    var b := BitLength(v);
    BitLengthBounds(v);
    Pow2Thirty();
    BitLengthMono(v, 30);
    PowMono(b, 30);
    Pow2Bounds(b);
    assert NumberOfLeadingZeros(value - 1) == 32 - b;
    assert b % 32 == b;
    var r := FindNextPositivePowerOfTwo(value) as int;
    assert r == Pow2(b);
    if v > 0 {
      assert Pow2(b) == 2 * Pow2(b - 1);
    }
  }

  /** Above `2^30` the shift overflows to `Integer.MIN_VALUE`. */
  lemma NextPowerOfTwoOverflows(value: int32)
    requires value as int > MaxCapacity
    ensures FindNextPositivePowerOfTwo(value) as int == I32Min
  {
    var v := (value - 1) as nat;
    BitLengthBounds(v);
    Pow2Thirty();
    if BitLength(v) <= 30 {
      PowMono(BitLength(v), 30);
    }
    BitLengthMono(v, 31);
  }

  /** At or below zero: `Integer.MIN_VALUE` gives `Integer.MIN_VALUE` (since
      `value - 1` wraps to `Integer.MAX_VALUE`), and every other value gives 1
      (since `value - 1` is negative and the shift distance 32 wraps to 0). */
  lemma NextPowerOfTwoNonPositive(value: int32)
    requires value as int <= 0
    ensures value as int == I32Min ==> FindNextPositivePowerOfTwo(value) as int == I32Min
    ensures value as int > I32Min ==> FindNextPositivePowerOfTwo(value) as int == 1
  {
    if value as int == I32Min {
      NextPowerOfTwoOfMin();
    } else {
      assert NumberOfLeadingZeros(value - 1) == 0;
    }
  }

  /** `value - 1` wraps `Integer.MIN_VALUE` to `Integer.MAX_VALUE`, whose 31 bits
      make the shift distance 31. */
  lemma NextPowerOfTwoOfMin()
    ensures FindNextPositivePowerOfTwo(I32Min as int32) as int == I32Min
  {
    MaxIntBitLength();
    assert NumberOfLeadingZeros(I32Max as int32) == 1;
  }

  /** `Integer.MAX_VALUE` has 31 significant bits. */
  lemma MaxIntBitLength()
    ensures BitLength(I32Max as nat) == 31
  {
    var v := I32Max as nat;
    BitLengthBounds(v);
    Pow2Thirty();
    if BitLength(v) <= 30 {
      PowMono(BitLength(v), 30);
    }
    BitLengthMono(v, 31);
  }

  lemma {:induction false} PowMono(a: nat, b: nat)
    requires a <= b
    ensures Pow2(a) <= Pow2(b)
  {
    if a < b {
      PowMono(a, b - 1);
    }
  }

  lemma DoubleBelowMax(n: int, m: int)
    requires IsPowerOfTwo(n) && IsPowerOfTwo(m) && n < m
    ensures 2 * n <= m
  {
    if n > 1 {
      DoubleBelowMax(n / 2, m / 2);
    }
  }

  /** `Arrays.fill(a, from, to, v)`. */
  method Fill(a: array<int64>, from: int, to: int, v: int64)
    requires 0 <= from <= to <= a.Length
    modifies a
    ensures forall j :: from <= j < to ==> a[j] == v
    ensures forall j :: 0 <= j < a.Length && !(from <= j < to) ==> a[j] == old(a[j])
  {
    var i := from;
    while i < to
      invariant from <= i <= to
      invariant forall j :: from <= j < i ==> a[j] == v
      invariant forall j :: 0 <= j < a.Length && !(from <= j < i) ==> a[j] == old(a[j])
    {
      a[i] := v;
      i := i + 1;
    }
  }

  /** `System.arraycopy(src, srcPos, dst, dstPos, len)` between two distinct arrays. */
  method ArrayCopy(src: array<int64>, srcPos: int, dst: array<int64>, dstPos: int, len: int)
    requires src != dst
    requires 0 <= len && 0 <= srcPos && srcPos + len <= src.Length
    requires 0 <= dstPos && dstPos + len <= dst.Length
    modifies dst
    ensures forall j :: dstPos <= j < dstPos + len ==> dst[j] == src[srcPos + (j - dstPos)]
    ensures forall j :: 0 <= j < dst.Length && !(dstPos <= j < dstPos + len) ==> dst[j] == old(dst[j])
  {
    var i := 0;
    while i < len
      invariant 0 <= i <= len
      invariant forall j :: dstPos <= j < dstPos + i ==> dst[j] == src[srcPos + (j - dstPos)]
      invariant forall j :: 0 <= j < dst.Length && !(dstPos <= j < dstPos + i) ==> dst[j] == old(dst[j])
    {
      dst[dstPos + i] := src[srcPos + i];
      i := i + 1;
    }
  }

  /** The copy at the heart of `increaseCapacity`: a fresh array of twice the length
      holding `src`'s ring, read from slot `h`, in its lower half and `nullValue` above. */
  method Relocate(src: array<int64>, h: int, nullValue: int64) returns (dst: array<int64>)
    requires 0 <= h < src.Length && 2 * src.Length <= I32Max
    ensures fresh(dst) && dst.Length == 2 * src.Length
    ensures forall k :: 0 <= k < src.Length ==> dst[k] == src[Slot(h, k, src.Length)]
    ensures forall j :: src.Length <= j < dst.Length ==> dst[j] == nullValue
  {
    var oldCapacity := src.Length;
    var toEndOfArray := oldCapacity - h;
    dst := new int64[2 * oldCapacity];
    Fill(dst, oldCapacity, 2 * oldCapacity, nullValue);
    ArrayCopy(src, h, dst, 0, toEndOfArray);
    ArrayCopy(src, 0, dst, toEndOfArray, h);
  }

  class LongArrayQueue {
    const nullValue: int64
    var head: int
    var tail: int
    var elements: array<int64>

    /** The queued values, oldest first. */
    ghost var Contents: seq<int64>
    ghost var Repr: set<object>

    /** The buffer layout, allowing the transient full state that exists inside
        `offerLong` between the write and the doubling. */
    ghost predicate Layout()
      reads this, Repr
    {
      && this in Repr && elements in Repr
      && IsPowerOfTwo(elements.Length)
      && MinCapacity <= elements.Length <= MaxCapacity
      && 0 <= head < elements.Length && 0 <= tail < elements.Length
      && |Contents| <= elements.Length
      && tail == Slot(head, |Contents|, elements.Length)
      && (forall k :: 0 <= k < |Contents| ==> elements[Slot(head, k, elements.Length)] == Contents[k])
      && (forall k :: 0 <= k < |Contents| ==> Contents[k] != nullValue)
      && (forall j :: 0 <= j < elements.Length && !Occupied(j) ==> elements[j] == nullValue)
    }

    /** Slot `j` lies in `[head, tail)`, read circularly. */
    ghost predicate Occupied(j: int)
      reads this, Repr
      requires this in Repr && elements in Repr && 0 <= head < elements.Length
    {
      (if j >= head then j - head else j - head + elements.Length) < |Contents|
    }

    /** The queue at rest: consistent and never full. */
    ghost predicate Valid()
      reads this, Repr
      ensures Valid() ==> this in Repr
    {
      Layout() && |Contents| < elements.Length
    }

    constructor Default(nullValue: int64)
      ensures Valid() && fresh(Repr)
      ensures this.nullValue == nullValue && Contents == [] && elements.Length == MinCapacity
      ensures forall j :: 0 <= j < elements.Length ==> elements[j] == nullValue
    {
      this.nullValue := nullValue;
      var a := new int64[MinCapacity];
      Fill(a, 0, a.Length, nullValue);
      elements := a;
      head, tail := 0, 0;
      Contents := [];
      Repr := {this, a};
      new;
      assert IsPowerOfTwo(8) by { assert IsPowerOfTwo(1); assert IsPowerOfTwo(2); assert IsPowerOfTwo(4); }
    }

    /** The main constructor once its argument checks have passed; `Create` performs them. */
    constructor WithCapacity(initialCapacity: int32, nullValue: int64)
      requires MinCapacity <= initialCapacity as int <= MaxCapacity
      ensures Valid() && fresh(Repr)
      ensures this.nullValue == nullValue && Contents == []
      ensures elements.Length == FindNextPositivePowerOfTwo(initialCapacity) as int
      ensures forall j :: 0 <= j < elements.Length ==> elements[j] == nullValue
    {
      NextPowerOfTwoIsLeast(initialCapacity);
      var capacity := FindNextPositivePowerOfTwo(initialCapacity);
      this.nullValue := nullValue;
      var a := new int64[capacity as int];
      Fill(a, 0, a.Length, nullValue);
      elements := a;
      head, tail := 0, 0;
      Contents := [];
      Repr := {this, a};
    }

    /** The constructor `LongArrayQueue(initialCapacity, nullValue)` with its two checks:
        below `MIN_CAPACITY`, or a rounded capacity that overflowed below it, throws. */
    static method Create(initialCapacity: int32, nullValue: int64) returns (r: Result<LongArrayQueue, QueueError>)
      ensures r.Failure? <==> initialCapacity as int < MinCapacity || initialCapacity as int > MaxCapacity
      ensures r.Failure? ==> r.error == IllegalArgument
      ensures r.Success? ==>
                (fresh(r.value.Repr) && r.value.Valid() && r.value.Contents == []
                 && r.value.nullValue == nullValue
                 && r.value.elements.Length == FindNextPositivePowerOfTwo(initialCapacity) as int)
    {
      if initialCapacity as int < MinCapacity {
        return Failure(IllegalArgument);
      }
      var capacity := FindNextPositivePowerOfTwo(initialCapacity);
      if capacity as int < MinCapacity {
        if initialCapacity as int <= MaxCapacity {
          NextPowerOfTwoIsLeast(initialCapacity);
        }
        return Failure(IllegalArgument);
      }
      if initialCapacity as int > MaxCapacity {
        NextPowerOfTwoOverflows(initialCapacity);
      }
      var q := new LongArrayQueue.WithCapacity(initialCapacity, nullValue);
      return Success(q);
    }

    function Capacity(): (c: int)
      reads this, Repr
      requires Valid()
      ensures IsPowerOfTwo(c) && c > |Contents|
    {
      elements.Length
    }

    /** `size()`: `(tail - head) & (capacity - 1)`. */
    method Size() returns (n: int32)
      requires Valid()
      ensures n as int == |Contents|
    {
      n := Mask(tail - head, elements.Length) as int32;
    }

    /** `isEmpty()`: `head == tail`. */
    method IsEmpty() returns (b: bool)
      requires Valid()
      ensures b <==> Contents == []
    {
      b := head == tail;
    }

    /** `clear()`: refill with the sentinel and reset both indices, unless already empty. */
    method Clear()
      requires Valid()
      modifies Repr
      ensures Valid() && Repr == old(Repr) && elements == old(elements)
      ensures Contents == []
      ensures old(Contents) == [] ==> head == old(head) && tail == old(tail) && unchanged(elements)
      ensures old(Contents) != [] ==> head == 0 && tail == 0
      ensures forall j :: 0 <= j < elements.Length ==> elements[j] == nullValue
    {
      if head != tail {
        Fill(elements, 0, elements.Length, nullValue);
        head := 0;
        tail := 0;
      }
      Contents := [];
    }

    /** `peekLong()`: the head slot, which holds the sentinel when empty. */
    method PeekLong() returns (r: int64)
      requires Valid()
      ensures r == if Contents == [] then nullValue else Contents[0]
    {
      r := elements[head];
    }

    /** `peek()`: the boxed head, `null` (here `None`) when empty. */
    method Peek() returns (r: Option<int64>)
      requires Valid()
      ensures r == if Contents == [] then None else Some(Contents[0])
    {
      var element := elements[head];
      r := if element == nullValue then None else Some(element);
    }

    /** `elementLong()`: the head, or `NoSuchElementException` when empty. */
    method ElementLong() returns (r: Result<int64, QueueError>)
      requires Valid()
      ensures r == if Contents == [] then Failure(NoSuchElement) else Success(Contents[0])
    {
      var element := elements[head];
      if nullValue == element {
        return Failure(NoSuchElement);
      }
      return Success(element);
    }

    /** `offerLong(element)`: append at the tail; the sentinel throws. When the tail
        catches the head the buffer doubles; at the largest capacity doubling throws,
        leaving the queue full. */
    method OfferLong(element: int64) returns (r: Result<bool, QueueError>)
      requires Valid()
      modifies Repr
      ensures r == if element == nullValue then Failure(NullElement)
                   else if |old(Contents)| + 1 == old(elements.Length) == MaxCapacity then Failure(IllegalState)
                   else Success(true)
      ensures r.Success? ==> Valid() && fresh(Repr - old(Repr)) && Contents == old(Contents) + [element]
      ensures r.Success? && |old(Contents)| + 1 == old(elements.Length) ==>
        elements.Length == 2 * old(elements.Length) && head == 0 && tail == old(elements.Length)
      ensures r.Success? && |old(Contents)| + 1 < old(elements.Length) ==> elements == old(elements)
      ensures r == Failure(NullElement) ==>
        Valid() && Contents == old(Contents) && Repr == old(Repr) && unchanged(this) && unchanged(elements)
      ensures r == Failure(IllegalState) ==>
        Layout() && |Contents| == elements.Length && Contents == old(Contents) + [element] && Repr == old(Repr)
    {
      if nullValue == element {
        return Failure(NullElement);
      }
      PutAtTail(element);
      if tail == head {
        var grown := IncreaseCapacity();
        if !grown {
          return Failure(IllegalState);
        }
      }
      return Success(true);
    }

    /** The store and the tail move of `offerLong`: the element takes the slot at
        `tail`, which may leave the buffer full. */
    method PutAtTail(element: int64)
      requires Valid() && element != nullValue
      modifies this, elements
      ensures Layout() && Contents == old(Contents) + [element]
      ensures elements == old(elements) && head == old(head) && Repr == old(Repr)
      ensures tail == head <==> |Contents| == elements.Length
    {
      elements[tail] := element;
      tail := Mask(tail + 1, elements.Length);
      Contents := Contents + [element];
      assert Layout() by {
        forall j | 0 <= j < elements.Length && !Occupied(j) ensures elements[j] == nullValue {
          assert old(elements[j]) == elements[j];
        }
      }
    }

    /** `increaseCapacity()`: double the buffer, moving the elements to `0..oldCapacity-1`
        in head-to-tail order and filling the new upper half with the sentinel. */
    method IncreaseCapacity() returns (grown: bool)
      requires Layout() && |Contents| == elements.Length
      modifies this
      ensures grown <==> old(elements.Length) < MaxCapacity
      ensures grown ==>
                (Valid() && fresh(elements) && Repr == {this, elements} && Contents == old(Contents)
                 && elements.Length == 2 * old(elements.Length) && head == 0 && tail == old(elements.Length))
      ensures !grown ==> unchanged(this)
    {
      var oldCapacity := elements.Length;
      var newCapacity := DoubleInt32(oldCapacity as int32);
      if newCapacity as int < MinCapacity {
        return false;
      }
      assert oldCapacity < MaxCapacity;
      Pow2Thirty();
      Pow2Bounds(30);
      DoubleBelowMax(oldCapacity, MaxCapacity);
      assert newCapacity as int == 2 * oldCapacity;
      var grownArray := Relocate(elements, head, nullValue);
      ghost var oldElements := elements;
      ghost var oldHead := head;
      elements := grownArray;
      head := 0;
      tail := oldCapacity;
      Repr := {this, grownArray};
      assert IsPowerOfTwo(2 * oldCapacity) by { assert (2 * oldCapacity) / 2 == oldCapacity; }
      assert forall k :: 0 <= k < oldCapacity ==> elements[k] == Contents[k] by {
        assert forall k :: 0 <= k < |Contents| ==> oldElements[Slot(oldHead, k, oldCapacity)] == Contents[k];
      }
      GrownValid(oldCapacity);
      return true;
    }

    /** The state `increaseCapacity` leaves: the `n` elements at the front of a
        buffer twice as large, the sentinel above them, is a valid queue. */
    lemma GrownValid(n: int)
      requires Repr == {this, elements} && |Contents| == n
      requires IsPowerOfTwo(elements.Length) && MinCapacity <= n && elements.Length == 2 * n <= MaxCapacity
      requires head == 0 && tail == n
      requires forall k :: 0 <= k < n ==> elements[k] == Contents[k]
      requires forall k :: 0 <= k < n ==> Contents[k] != nullValue
      requires forall j :: n <= j < elements.Length ==> elements[j] == nullValue
      ensures Valid()
    {
      assert forall k :: 0 <= k < n ==> Slot(0, k, elements.Length) == k;
    }

    /** `pollLong()`: remove and return the head, or return the sentinel, changing
        nothing, when the queue is empty. */
    method PollLong() returns (r: int64)
      requires Valid()
      modifies Repr
      ensures Valid() && Repr == old(Repr) && elements == old(elements)
      ensures old(Contents) == [] ==> r == nullValue && Contents == [] && unchanged(this) && unchanged(elements)
      ensures old(Contents) != [] ==> r == old(Contents)[0] && Contents == old(Contents)[1..]
    {
      var element := elements[head];
      if nullValue == element {
        return nullValue;
      }
      elements[head] := nullValue;
      ghost var h := head;
      head := Mask(head + 1, elements.Length);
      Contents := Contents[1..];
      forall k | 0 <= k < |Contents| ensures elements[Slot(head, k, elements.Length)] == Contents[k] {
        assert Slot(head, k, elements.Length) == Slot(h, k + 1, elements.Length);
      }
      forall j | 0 <= j < elements.Length && !Occupied(j) ensures elements[j] == nullValue {
        if j != h {
          assert old(elements[j]) == elements[j];
        }
      }
      return element;
    }

    /** `poll()`: the boxed head, `null` (here `None`) when empty. */
    method Poll() returns (r: Option<int64>)
      requires Valid()
      modifies Repr
      ensures Valid() && Repr == old(Repr) && elements == old(elements)
      ensures old(Contents) == [] ==> r == None && Contents == []
      ensures old(Contents) != [] ==> r == Some(old(Contents)[0]) && Contents == old(Contents)[1..]
    {
      var element := PollLong();
      r := if element == nullValue then None else Some(element);
    }

    /** `removeLong()`: like `pollLong` but an empty queue throws. */
    method RemoveLong() returns (r: Result<int64, QueueError>)
      requires Valid()
      modifies Repr
      ensures Valid() && Repr == old(Repr) && elements == old(elements)
      ensures old(Contents) == [] ==> r == Failure(NoSuchElement) && Contents == []
      ensures old(Contents) != [] ==> r == Success(old(Contents)[0]) && Contents == old(Contents)[1..]
    {
      var element := PollLong();
      if nullValue == element {
        return Failure(NoSuchElement);
      }
      return Success(element);
    }

    lemma SlotInjective(k1: int, k2: int)
      requires Valid() && 0 <= k1 <= |Contents| && 0 <= k2 <= |Contents|
      requires Slot(head, k1, elements.Length) == Slot(head, k2, elements.Length)
      ensures k1 == k2
    {
    }

    /** `forEachLong(action)`: the values handed to `action`, in order. */
    method ForEachLong() returns (visited: seq<int64>)
      requires Valid()
      ensures visited == Contents
    {
      visited := [];
      var i := head;
      while i != tail
        invariant 0 <= |visited| <= |Contents|
        invariant i == Slot(head, |visited|, elements.Length)
        invariant visited == Contents[..|visited|]
        decreases |Contents| - |visited|
      {
        if |visited| == |Contents| {
          assert false;
        }
        visited := visited + [elements[i]];
        i := Mask(i + 1, elements.Length);
      }
      if |visited| < |Contents| {
        SlotInjective(|visited|, |Contents|);
      }
    }
  }

  /** `LongArrayQueue.LongIterator`: walks the slots from head to tail without removing them. */
  class LongIterator {
    const queue: LongArrayQueue
    var index: int
    /** How many values this iterator has returned since its last reset. */
    ghost var Position: nat

    ghost predicate Valid()
      reads this, queue, queue.Repr
    {
      && queue.Valid()
      && Position <= |queue.Contents|
      && index == Slot(queue.head, Position, queue.elements.Length)
    }

    /** `iterator()` on a fresh iterator: `reset()` places it at the head. */
    constructor (queue: LongArrayQueue)
      requires queue.Valid()
      ensures this.queue == queue && Valid() && Position == 0
    {
      this.queue := queue;
      index := queue.head;
      Position := 0;
    }

    /** `reset()`. */
    method Reset()
      requires queue.Valid()
      modifies this
      ensures Valid() && Position == 0
    {
      index := queue.head;
      Position := 0;
    }

    /** `hasNext()`: false exactly when every queued value has been returned. */
    method HasNext() returns (b: bool)
      requires Valid()
      ensures b <==> Position < |queue.Contents|
    {
      b := index != queue.tail;
      if !b && Position < |queue.Contents| {
        queue.SlotInjective(Position, |queue.Contents|);
      }
    }

    /** `nextValue()`: the next queued value in insertion order. */
    method NextValue() returns (r: Result<int64, QueueError>)
      requires Valid()
      modifies this
      ensures Valid()
      ensures old(Position) == |queue.Contents| ==> r == Failure(NoSuchElement) && Position == old(Position)
      ensures old(Position) < |queue.Contents| ==>
        r == Success(queue.Contents[old(Position)]) && Position == old(Position) + 1
    {
      if index == queue.tail {
        if Position < |queue.Contents| {
          queue.SlotInjective(Position, |queue.Contents|);
        }
        return Failure(NoSuchElement);
      }
      var element := queue.elements[index];
      index := Mask(index + 1, queue.elements.Length);
      Position := Position + 1;
      return Success(element);
    }
  }
}
