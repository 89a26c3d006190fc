/** What the collections promise over many calls: the order in which pops give back
    what was pushed, and which elements a capped collection keeps. */
module QrLaws {
  import opened Wrappers
  import opened Sequences
  import opened RedisList
  import Qr

  /** The list after pushing `vs` one by one with LPUSH (push of Queue and Stack,
      pushback of Deque). */
  function PushAll<T>(s: seq<T>, vs: seq<T>): (r: seq<T>)
    decreases |vs|
  {
    if vs == [] then s else PushAll(LPush(s, vs[0]), vs[1..])
  }

  /** The list after pushing `vs` one by one onto a capped collection of `size`. */
  function CappedPushAll<T>(s: seq<T>, size: int, vs: seq<T>): (r: seq<T>)
    decreases |vs|
  {
    if vs == [] then s else CappedPushAll(Qr.CappedPush(s, size, vs[0]), size, vs[1..])
  }

  /** What RPOP gives back, call after call, until it returns None
      (Queue.pop, CappedCollection.pop, Deque.popfront). */
  function DrainTail<T>(s: seq<T>): (r: seq<T>)
    decreases |s|
  {
    var p := RPop(s);
    if p.value.None? then [] else [p.value.value] + DrainTail(p.rest)
  }

  /** What LPOP gives back, call after call, until it returns None
      (Stack.pop, Deque.popback). */
  function DrainHead<T>(s: seq<T>): (r: seq<T>)
    decreases |s|
  {
    var p := LPop(s);
    if p.value.None? then [] else [p.value.value] + DrainHead(p.rest)
  }

  lemma {:induction false} PushAllPrepends<T>(s: seq<T>, vs: seq<T>)
    ensures PushAll(s, vs) == Reversed(vs) + s
    decreases |vs|
  {
    if vs != [] {
      PushAllPrepends(LPush(s, vs[0]), vs[1..]);
      assert Reversed(vs) == Reversed(vs[1..]) + [vs[0]];
    }
  }

  lemma {:induction false} DrainTailReverses<T>(s: seq<T>)
    ensures DrainTail(s) == Reversed(s)
    decreases |s|
  {
    var p := RPop(s);
    if p.value.Some? {
      DrainTailReverses(p.rest);
      ReversedSnoc(p.rest, p.value.value);
    }
  }

  lemma {:induction false} DrainHeadKeepsOrder<T>(s: seq<T>)
    ensures DrainHead(s) == s
    decreases |s|
  {
    var p := LPop(s);
    if p.value.Some? {
      DrainHeadKeepsOrder(p.rest);
    }
  }

  /** Queue is FIFO: popping until empty gives back what was already queued, then the
      pushed elements in the order they were pushed. */
  lemma QueueIsFifo<T>(s: seq<T>, vs: seq<T>)
    ensures DrainTail(PushAll(s, vs)) == DrainTail(s) + vs
    ensures DrainTail(PushAll([], vs)) == vs
  {
    PushAllPrepends(s, vs);
    DrainTailReverses(PushAll(s, vs));
    DrainTailReverses(s);
    ReversedConcat(Reversed(vs), s);
    ReversedReversed(vs);
    PushAllPrepends([], vs);
    DrainTailReverses(PushAll([], vs));
    assert Reversed(vs) + [] == Reversed(vs);
  }

  /** Stack is LIFO: popping until empty gives back the pushed elements newest first,
      then what was already on the stack. */
  lemma StackIsLifo<T>(s: seq<T>, vs: seq<T>)
    ensures DrainHead(PushAll(s, vs)) == Reversed(vs) + DrainHead(s)
    ensures DrainHead(PushAll([], vs)) == Reversed(vs)
  {
    PushAllPrepends(s, vs);
    DrainHeadKeepsOrder(PushAll(s, vs));
    DrainHeadKeepsOrder(s);
    PushAllPrepends([], vs);
    DrainHeadKeepsOrder(PushAll([], vs));
    assert Reversed(vs) + [] == Reversed(vs);
  }

  /** The law below for a list already within the size, proved by induction on the pushes. */
  lemma {:induction false} CappedKeepsNewestWithin<T>(s: seq<T>, size: int, vs: seq<T>)
    requires size >= 1 && |s| <= size
    ensures Reversed(CappedPushAll(s, size, vs)) == Newest(Reversed(s) + vs, size)
    ensures |CappedPushAll(s, size, vs)| == if |s| + |vs| < size then |s| + |vs| else size
    decreases |vs|
  {
    if vs == [] {
      assert Reversed(s) + vs == Reversed(s);
    } else {
      var next := Qr.CappedPush(s, size, vs[0]);
      CappedKeepsNewestWithin(next, size, vs[1..]);
      NewestAbsorbs(Reversed(s) + [vs[0]], vs[1..], size);
      assert Reversed(s) + [vs[0]] + vs[1..] == Reversed(s) + vs;
    }
  }

  /** A capped collection of `size` at least one keeps the `size` most recently pushed
      elements, oldest evicted first. This holds from any list once something is pushed,
      even one longer than the size (the constructor does not clear the key), and
      without a push from a list already within the size. */
  lemma CappedKeepsNewest<T>(s: seq<T>, size: int, vs: seq<T>)
    requires size >= 1 && (|s| <= size || vs != [])
    ensures Reversed(CappedPushAll(s, size, vs)) == Newest(Reversed(s) + vs, size)
    ensures |CappedPushAll(s, size, vs)| == if |s| + |vs| < size then |s| + |vs| else size
  {
    if |s| <= size {
      CappedKeepsNewestWithin(s, size, vs);
    } else {
      var next := Qr.CappedPush(s, size, vs[0]);
      assert |next| == size;
      CappedKeepsNewestWithin(next, size, vs[1..]);
      NewestAbsorbs(Reversed(s) + [vs[0]], vs[1..], size);
      assert Reversed(s) + [vs[0]] + vs[1..] == Reversed(s) + vs;
    }
  }

  /** Pushing `vs` onto an empty capped collection of `size` at least one and popping
      until empty gives back the newest `size` of them in push order. */
  lemma CappedDrainsNewest<T>(size: int, vs: seq<T>)
    requires size >= 1
    ensures DrainTail(CappedPushAll([], size, vs)) == Newest(vs, size)
  {
    CappedKeepsNewestWithin([], size, vs);
    DrainTailReverses(CappedPushAll([], size, vs));
    assert Reversed<T>([]) + vs == vs;
  }

  /** Pushing one element onto an empty Queue, CappedCollection of positive size, or
      Stack and popping it gives it back and leaves the list empty. */
  lemma RoundTrip<T>(x: T, size: int)
    requires size >= 1
    ensures RPop(LPush([], x)) == Popped(Some(x), [])
    ensures RPop(Qr.CappedPush([], size, x)) == Popped(Some(x), [])
    ensures LPop(LPush([], x)) == Popped(Some(x), [])
  {
  }

  /** With a size of zero, `LTRIM key 0 -1` keeps the whole list: every push grows the
      collection by one and nothing is ever evicted. */
  lemma {:induction false} ZeroSizeHasNoCap<T>(s: seq<T>, vs: seq<T>)
    ensures CappedPushAll(s, 0, vs) == PushAll(s, vs)
    ensures |CappedPushAll(s, 0, vs)| == |s| + |vs|
    decreases |vs|
  {
    if vs != [] {
      ZeroSizeHasNoCap(Qr.CappedPush(s, 0, vs[0]), vs[1..]);
    }
    PushAllPrepends(s, vs);
  }
}
