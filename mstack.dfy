/** The interpreter's operand stack: a thin wrapper over a `LongArrayQueue` with the
    default sentinel `Long.MIN_VALUE`. Because `pop` is the queue's `pollLong`, values
    come back in the order they were pushed. */
module MStacks {
  import opened Wrappers
  import opened WasmTypes
  import opened LongArrayQueues

  class MStack {
    const stack: LongArrayQueue

    ghost predicate Valid()
      reads this, stack, stack.Repr
    {
      stack.Valid() && stack.nullValue == DefaultNullValue
    }

    /** The pushed values not yet popped, earliest first. */
    ghost function Values(): seq<int64>
      reads this, stack
    {
      stack.Contents
    }

    /** `new MStack()`: an empty stack over a default queue of capacity 8. */
    constructor ()
      ensures Valid() && fresh(stack) && fresh(stack.Repr)
      ensures Values() == []
    {
      stack := new LongArrayQueue.Default(DefaultNullValue);
    }

    /** `push(v)`: `offerLong(v)`, which throws for the sentinel and at the largest capacity. */
    method Push(v: int64) returns (r: Outcome<QueueError>)
      requires Valid()
      modifies stack.Repr
      ensures r != Fail(IllegalState) ==> Valid() && fresh(stack.Repr - old(stack.Repr))
      ensures r == if v == DefaultNullValue then Fail(NullElement)
                   else if |old(Values())| + 1 == old(stack.elements.Length) == MaxCapacity then Fail(IllegalState)
                   else Pass
      ensures r.Pass? ==> Values() == old(Values()) + [v]
      ensures r == Fail(NullElement) ==> Values() == old(Values())
    {
      var offered := stack.OfferLong(v);
      if offered.Failure? {
        return Fail(offered.error);
      }
      return Pass;
    }

    /** `pop()`: `pollLong()`, the EARLIEST pushed value still held, or the sentinel
        `Long.MIN_VALUE` when empty (no underflow error). */
    method Pop() returns (v: int64)
      requires Valid()
      modifies stack.Repr
      ensures Valid() && stack.Repr == old(stack.Repr)
      ensures old(Values()) == [] ==> v == DefaultNullValue && Values() == []
      ensures old(Values()) != [] ==> v == old(Values())[0] && Values() == old(Values())[1..]
    {
      v := stack.PollLong();
    }

    /** `peek()`: what the next `pop` would return, removing nothing. */
    method Peek() returns (v: int64)
      requires Valid()
      ensures v == if Values() == [] then DefaultNullValue else Values()[0]
    {
      v := stack.PeekLong();
    }

    /** `size()`. */
    method Size() returns (n: int32)
      requires Valid()
      ensures n as int == |Values()|
    {
      n := stack.Size();
    }
  }

  /** Two pushes followed by a pop on a fresh stack give back the FIRST value pushed:
      the stack behaves first-in first-out. */
  method PushPushPop(a: int64, b: int64) returns (popped: int64, remaining: int32)
    ensures a != DefaultNullValue && b != DefaultNullValue ==> popped == a && remaining == 1
    ensures a == DefaultNullValue && b != DefaultNullValue ==> popped == b && remaining == 0
    ensures a == DefaultNullValue && b == DefaultNullValue ==> popped == DefaultNullValue && remaining == 0
  {
    var s := new MStack();
    var _ := s.Push(a);
    var _ := s.Push(b);
    popped := s.Pop();
    remaining := s.Size();
  }

  /** `peek` agrees with the following `pop`, and the size changes by one per operation. */
  method PeekThenPop(s: MStack) returns (peeked: int64, popped: int64)
    requires s.Valid()
    modifies s.stack.Repr
    ensures s.Valid()
    ensures peeked == popped
    ensures |old(s.Values())| > 0 ==> |s.Values()| == |old(s.Values())| - 1
    ensures |old(s.Values())| == 0 ==> popped == DefaultNullValue && s.Values() == []
  {
    peeked := s.Peek();
    popped := s.Pop();
  }
}
