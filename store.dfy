/** The Redis database qr talks to through its one global redis-py client: a list per
    key, changed in place by each command. */
module RedisStore {
  import opened Wrappers
  import RedisList

  class Store<T> {
    var lists: RedisList.Lists<T>

    /** A database with no keys. */
    constructor()
      ensures lists == map[]
    {
      lists := map[];
    }

    /** The list stored at `key`; the empty list when the key does not exist. */
    function List(key: string): (r: seq<T>)
      reads this
    {
      RedisList.Lookup(lists, key)
    }

    /** LPUSH key element: returns the new length of the list. */
    method LPush(key: string, element: T) returns (length: nat)
      modifies this
      ensures lists == RedisList.Assign(old(lists), key, RedisList.LPush(old(List(key)), element))
      ensures length == |List(key)| == |old(List(key))| + 1
    {
      lists := RedisList.Assign(lists, key, RedisList.LPush(List(key), element));
      length := |List(key)|;
    }

    /** RPUSH key element: returns the new length of the list. */
    method RPush(key: string, element: T) returns (length: nat)
      modifies this
      ensures lists == RedisList.Assign(old(lists), key, RedisList.RPush(old(List(key)), element))
      ensures length == |List(key)| == |old(List(key))| + 1
    {
      lists := RedisList.Assign(lists, key, RedisList.RPush(List(key), element));
      length := |List(key)|;
    }

    /** LPOP key: the head, or None when the list is empty. */
    method LPop(key: string) returns (popped: Option<T>)
      modifies this
      ensures RedisList.Popped(popped, List(key)) == RedisList.LPop(old(List(key)))
      ensures lists == RedisList.Assign(old(lists), key, List(key))
    {
      var p := RedisList.LPop(List(key));
      lists := RedisList.Assign(lists, key, p.rest);
      popped := p.value;
    }

    /** RPOP key: the tail, or None when the list is empty. */
    method RPop(key: string) returns (popped: Option<T>)
      modifies this
      ensures RedisList.Popped(popped, List(key)) == RedisList.RPop(old(List(key)))
      ensures lists == RedisList.Assign(old(lists), key, List(key))
    {
      var p := RedisList.RPop(List(key));
      lists := RedisList.Assign(lists, key, p.rest);
      popped := p.value;
    }

    /** LTRIM key start stop: keep only that inclusive range of the list. */
    method LTrim(key: string, start: int, stop: int)
      modifies this
      ensures lists == RedisList.Assign(old(lists), key, RedisList.Range(old(List(key)), start, stop))
    {
      lists := RedisList.Assign(lists, key, RedisList.Range(List(key), start, stop));
    }

    /** LRANGE key start stop: read that inclusive range of the list. The whole list
        for `0 -1`; the first `stop + 1` elements, or all when there are fewer, for
        `0 stop` with a stop that is not negative. */
    method LRange(key: string, start: int, stop: int) returns (elements: seq<T>)
      ensures elements == RedisList.Range(List(key), start, stop)
      ensures |elements| <= |List(key)|
      ensures start == 0 && stop == -1 ==> elements == List(key)
      ensures start == 0 && stop >= 0 ==>
                elements == List(key)[..if stop + 1 < |List(key)| then stop + 1 else |List(key)|]
    {
      elements := RedisList.Range(List(key), start, stop);
      RedisList.RangeWhole(List(key));
      RedisList.RangeHead(List(key), stop + 1);
    }
  }
}
