/** The unit tests' scenarios for Queue, CappedCollection and Stack, followed through the
    collections' contracts alone, and one Deque scenario that the tests do not have. */
module QrScenarios {
  import opened Wrappers
  import opened RedisStore
  import opened Qr

  method QueueRoundTrip()
  {
    var store := new Store<string>();
    var q := new Queue(store, "qrtestqueue");
    q.Push("foo");
    assert |q.Contents()| == 1;
    var popped := q.Pop();
    assert popped == Some("foo") && q.Contents() == [];
  }

  method CappedRoundTrip()
  {
    var store := new Store<string>();
    var aq := new CappedCollection(store, "qrtestcc", 3);
    aq.Push("foo");
    assert |aq.Contents()| == 1;
    var popped := aq.Pop();
    assert popped == Some("foo") && aq.Contents() == [];
  }

  method StackRoundTrip()
  {
    var store := new Store<string>();
    var stack := new Stack(store, "qrteststack");
    stack.Push("foo");
    assert |stack.Contents()| == 1;
    var popped := stack.Pop();
    assert popped == Some("foo") && stack.Contents() == [];
  }

  method QueueOrder()
  {
    var store := new Store<string>();
    var q := new Queue(store, "qrtestqueue");
    q.Push("foo");
    q.Push("bar");
    var first := q.Pop();
    assert first == Some("foo");
    var second := q.Pop();
    assert second == Some("bar");
    var none := q.Pop();
    assert none == None && q.Contents() == [];
  }

  method StackOrder()
  {
    var store := new Store<string>();
    var stack := new Stack(store, "qrteststack");
    stack.Push("foo");
    stack.Push("bar");
    var first := stack.Pop();
    assert first == Some("bar");
    var second := stack.Pop();
    assert second == Some("foo");
    var none := stack.Pop();
    assert none == None;
  }

  method CappedLimit()
  {
    var store := new Store<string>();
    var aq := new CappedCollection(store, "qrtestcc", 3);
    aq.Push("a");
    aq.Push("b");
    aq.Push("c");
    assert |aq.Contents()| == 3;
    aq.Push("d");
    aq.Push("e");
    assert aq.Contents() == ["e", "d", "c"];
    var all := aq.Elements();
    assert |all| == 3;
    var p1 := aq.Pop();
    var p2 := aq.Pop();
    var p3 := aq.Pop();
    assert p1 == Some("c") && p2 == Some("d") && p3 == Some("e");
    assert aq.Contents() == [];
  }

  /** Not from the tests: both ends of a deque, and a second handle on the same key
      seeing the same list. */
  method DequeEnds()
  {
    var store := new Store<string>();
    var d := new Deque(store, "qrtestdeque");
    d.PushBack("b");
    d.PushFront("a");
    d.PushBack("c");
    var all := d.Elements();
    assert all == ["c", "b", "a"];
    var other := new Deque(store, "qrtestdeque");
    var front := other.PopFront();
    assert front == Some("a");
    var back := d.PopBack();
    assert back == Some("c");
    assert d.Contents() == ["b"];
  }
}
