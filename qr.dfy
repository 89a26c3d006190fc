/** The four collections of qr. Each is a handle on one Redis list, named by its key;
    nothing is kept in the handle, so two handles on the same key see the same list.
    For all four the head of the list (index 0) is where LPUSH puts an element. */
module Qr {
  import opened Wrappers
  import opened Sequences
  import RedisList
  import opened RedisStore

  /** The list after CappedCollection.push: LPUSH, then `LTRIM key 0 size-1`.
      With a size of at least one the newest `size` elements survive and the oldest
      are evicted; below the cap nothing is evicted. A size of zero or less makes the
      stop index count from the tail: zero keeps the whole list, so there is no cap. */
  function CappedPush<T>(s: seq<T>, size: int, x: T): (r: seq<T>)
    ensures size >= 1 ==> |r| <= size
    ensures size >= 1 ==> r == ([x] + s)[..if size < |s| + 1 then size else |s| + 1]
    ensures size >= 1 && |s| < size ==> r == [x] + s
    ensures size >= 1 ==> Reversed(r) == Newest(Reversed(s) + [x], size)
    ensures size <= 0 ==> r == ([x] + s)[..if |s| + 1 + size < 0 then 0 else |s| + 1 + size]
  {
    var pushed := RedisList.LPush(s, x);
    RedisList.RangeHead(pushed, size);
    ReversedCons(x, s);
    if size >= 1 then
      var k := if size < |pushed| then size else |pushed|;
      ReversedPrefix(pushed, k);
      RedisList.Range(pushed, 0, size - 1)
    else
      RedisList.Range(pushed, 0, size - 1)
  }

  /** A double-ended queue. Its front is the TAIL of the Redis list: pushfront is RPUSH
      and popfront is RPOP, while pushback is LPUSH and popback is LPOP. */
  class Deque<T> {
    const store: Store<T>
    const key: string

    constructor(store: Store<T>, key: string)
      ensures this.store == store && this.key == key
    {
      this.store := store;
      this.key := key;
    }

    /** The Redis list, head first. */
    function Contents(): (r: seq<T>)
      reads store
    {
      store.List(key)
    }

    /** The deque as its methods name its ends: front first, back last. */
    ghost function FrontToBack(): (r: seq<T>)
      reads store
    {
      Reversed(Contents())
    }

    method PushBack(element: T)
      modifies store
      ensures Contents() == RedisList.LPush(old(Contents()), element)
      ensures FrontToBack() == old(FrontToBack()) + [element]
      ensures store.lists == RedisList.Assign(old(store.lists), key, Contents())
    {
      var length := store.LPush(key, element);
      ReversedCons(element, old(Contents()));
    }

    method PushFront(element: T)
      modifies store
      ensures Contents() == RedisList.RPush(old(Contents()), element)
      ensures FrontToBack() == [element] + old(FrontToBack())
      ensures store.lists == RedisList.Assign(old(store.lists), key, Contents())
    {
      var length := store.RPush(key, element);
      ReversedSnoc(old(Contents()), element);
    }

    method PopFront() returns (popped: Option<T>)
      modifies store
      ensures RedisList.Popped(popped, Contents()) == RedisList.RPop(old(Contents()))
      ensures old(FrontToBack()) == [] ==> popped == None && FrontToBack() == []
      ensures old(FrontToBack()) != [] ==>
                popped == Some(old(FrontToBack())[0]) && FrontToBack() == old(FrontToBack())[1..]
      ensures store.lists == RedisList.Assign(old(store.lists), key, Contents())
    {
      popped := store.RPop(key);
      if popped.Some? {
        ReversedSnoc(Contents(), popped.value);
      }
    }

    method PopBack() returns (popped: Option<T>)
      modifies store
      ensures RedisList.Popped(popped, Contents()) == RedisList.LPop(old(Contents()))
      ensures old(FrontToBack()) == [] ==> popped == None && FrontToBack() == []
      ensures old(FrontToBack()) != [] ==>
                var n := |old(FrontToBack())|;
                popped == Some(old(FrontToBack())[n - 1]) && FrontToBack() == old(FrontToBack())[..n - 1]
      ensures store.lists == RedisList.Assign(old(store.lists), key, Contents())
    {
      popped := store.LPop(key);
      if popped.Some? {
        ReversedCons(popped.value, Contents());
      }
    }

    /** LRANGE key 0 -1: the whole list, head first, changing nothing. */
    method Elements() returns (all: seq<T>)
      ensures all == Contents()
    {
      all := store.LRange(key, 0, -1);
      RedisList.RangeWhole(Contents());
    }
  }

  /** A first-in first-out queue: push is LPUSH and pop is RPOP, so the oldest element
      sits at the tail of the Redis list. */
  class Queue<T> {
    const store: Store<T>
    const key: string

    constructor(store: Store<T>, key: string)
      ensures this.store == store && this.key == key
    {
      this.store := store;
      this.key := key;
    }

    /** The Redis list, head first: newest first. */
    function Contents(): (r: seq<T>)
      reads store
    {
      store.List(key)
    }

    /** The queue in the order its elements were pushed, oldest first. */
    ghost function Arrivals(): (r: seq<T>)
      reads store
    {
      Reversed(Contents())
    }

    method Push(element: T)
      modifies store
      ensures Contents() == RedisList.LPush(old(Contents()), element)
      ensures Arrivals() == old(Arrivals()) + [element]
      ensures store.lists == RedisList.Assign(old(store.lists), key, Contents())
    {
      var length := store.LPush(key, element);
      ReversedCons(element, old(Contents()));
    }

    method Pop() returns (popped: Option<T>)
      modifies store
      ensures RedisList.Popped(popped, Contents()) == RedisList.RPop(old(Contents()))
      ensures old(Arrivals()) == [] ==> popped == None && Arrivals() == []
      ensures old(Arrivals()) != [] ==>
                popped == Some(old(Arrivals())[0]) && Arrivals() == old(Arrivals())[1..]
      ensures store.lists == RedisList.Assign(old(store.lists), key, Contents())
    {
      popped := store.RPop(key);
      if popped.Some? {
        ReversedSnoc(Contents(), popped.value);
      }
    }

    /** LRANGE key 0 -1: the whole list, head first, changing nothing. The empty reply
        for a missing key is already the empty list. */
    method Elements() returns (all: seq<T>)
      ensures all == Contents()
    {
      all := store.LRange(key, 0, -1);
      RedisList.RangeWhole(Contents());
    }
  }

  /** A queue that never holds more than `size` elements once pushed to: push is LPUSH
      followed by `LTRIM key 0 size-1`, sent together, and pop is RPOP. */
  class CappedCollection<T> {
    const store: Store<T>
    const key: string
    const size: int

    constructor(store: Store<T>, key: string, size: int)
      ensures this.store == store && this.key == key && this.size == size
    {
      this.store := store;
      this.key := key;
      this.size := size;
    }

    /** The Redis list, head first: newest first. */
    function Contents(): (r: seq<T>)
      reads store
    {
      store.List(key)
    }

    /** The surviving elements in the order they were pushed, oldest first. */
    ghost function Arrivals(): (r: seq<T>)
      reads store
    {
      Reversed(Contents())
    }

    /** The pipelined LPUSH and LTRIM, taken as one step. */
    method Push(element: T)
      modifies store
      ensures Contents() == CappedPush(old(Contents()), size, element)
      ensures size >= 1 ==> |Contents()| <= size
      ensures size >= 1 && |old(Contents())| < size ==> Contents() == [element] + old(Contents())
      ensures size >= 1 ==> Arrivals() == Newest(old(Arrivals()) + [element], size)
      ensures store.lists == RedisList.Assign(old(store.lists), key, Contents())
    {
      var length := store.LPush(key, element);
      store.LTrim(key, 0, size - 1);
      RedisList.AssignTwice(old(store.lists), key, RedisList.LPush(old(Contents()), element), Contents());
    }

    method Pop() returns (popped: Option<T>)
      modifies store
      ensures RedisList.Popped(popped, Contents()) == RedisList.RPop(old(Contents()))
      ensures old(Arrivals()) == [] ==> popped == None && Arrivals() == []
      ensures old(Arrivals()) != [] ==>
                popped == Some(old(Arrivals())[0]) && Arrivals() == old(Arrivals())[1..]
      ensures store.lists == RedisList.Assign(old(store.lists), key, Contents())
    {
      popped := store.RPop(key);
      if popped.Some? {
        ReversedSnoc(Contents(), popped.value);
      }
    }

    /** LRANGE key 0 -1: the whole list, head first, changing nothing. */
    method Elements() returns (all: seq<T>)
      ensures all == Contents()
    {
      all := store.LRange(key, 0, -1);
      RedisList.RangeWhole(Contents());
    }
  }

  /** A last-in first-out stack: push is LPUSH and pop is LPOP, so the head of the Redis
      list is the top of the stack. */
  class Stack<T> {
    const store: Store<T>
    const key: string

    constructor(store: Store<T>, key: string)
      ensures this.store == store && this.key == key
    {
      this.store := store;
      this.key := key;
    }

    /** The Redis list, head first: the top of the stack first. */
    function Contents(): (r: seq<T>)
      reads store
    {
      store.List(key)
    }

    method Push(element: T)
      modifies store
      ensures Contents() == [element] + old(Contents())
      ensures store.lists == RedisList.Assign(old(store.lists), key, Contents())
    {
      var length := store.LPush(key, element);
    }

    method Pop() returns (popped: Option<T>)
      modifies store
      ensures RedisList.Popped(popped, Contents()) == RedisList.LPop(old(Contents()))
      ensures old(Contents()) == [] ==> popped == None && Contents() == []
      ensures old(Contents()) != [] ==>
                popped == Some(old(Contents())[0]) && Contents() == old(Contents())[1..]
      ensures store.lists == RedisList.Assign(old(store.lists), key, Contents())
    {
      popped := store.LPop(key);
    }

    /** LRANGE key 0 -1: the whole list, head first, changing nothing. */
    method Elements() returns (all: seq<T>)
      ensures all == Contents()
    {
      all := store.LRange(key, 0, -1);
      RedisList.RangeWhole(Contents());
    }
  }
}
