/** The Redis list commands that qr issues, as functions on the list value.
    Index 0 is the head of the list: the end LPUSH and LPOP work on. */
module RedisList {
  import opened Wrappers

  /** The lists of a Redis database, by key. A key that is absent holds the empty list. */
  type Lists<T> = map<string, seq<T>>

  function Lookup<T>(m: Lists<T>, key: string): (r: seq<T>)
  {
    if key in m then m[key] else []
  }

  /** The database after the list at `key` becomes `s`. Redis deletes a key whose
      list becomes empty. */
  function Assign<T>(m: Lists<T>, key: string, s: seq<T>): (m': Lists<T>)
    ensures Lookup(m', key) == s
    ensures key in m' <==> s != []
    ensures forall k :: k != key ==> Lookup(m', k) == Lookup(m, k)
    ensures forall k :: k != key ==> (k in m' <==> k in m)
  {
    if s == [] then m - {key} else m[key := s]
  }

  /** Assigning the same key twice keeps only the second value. */
  lemma AssignTwice<T>(m: Lists<T>, key: string, s: seq<T>, t: seq<T>)
    ensures Assign(Assign(m, key, s), key, t) == Assign(m, key, t)
  {
    var left, right := Assign(Assign(m, key, s), key, t), Assign(m, key, t);
    assert left.Keys == right.Keys;
    forall k | k in left
      ensures left[k] == right[k]
    {
      assert Lookup(left, k) == Lookup(right, k);
    }
  }

  /** LPUSH: insert at the head, where LPOP takes it back off. */
  function LPush<T>(s: seq<T>, x: T): (r: seq<T>)
    ensures |r| == |s| + 1
    ensures LPop(r) == Popped(Some(x), s)
  {
    [x] + s
  }

  /** RPUSH: insert at the tail, where RPOP takes it back off. */
  function RPush<T>(s: seq<T>, x: T): (r: seq<T>)
    ensures |r| == |s| + 1
    ensures RPop(r) == Popped(Some(x), s)
  {
    s + [x]
  }

  /** What a pop returns, and the list it leaves. */
  datatype Popped<T> = Popped(value: Option<T>, rest: seq<T>)

  /** LPOP: remove and return the head, or nothing on an empty list. */
  function LPop<T>(s: seq<T>): (p: Popped<T>)
    ensures p.value.None? <==> s == []
    ensures p.value.None? ==> p.rest == s
    ensures p.value.Some? ==> s == [p.value.value] + p.rest
  {
    if s == [] then Popped(None, s) else Popped(Some(s[0]), s[1..])
  }

  /** RPOP: remove and return the tail, or nothing on an empty list. */
  function RPop<T>(s: seq<T>): (p: Popped<T>)
    ensures p.value.None? <==> s == []
    ensures p.value.None? ==> p.rest == s
    ensures p.value.Some? ==> s == p.rest + [p.value.value]
  {
    if s == [] then Popped(None, s) else Popped(Some(s[|s| - 1]), s[..|s| - 1])
  }

  /** An index as Redis reads it: a negative index counts from the tail, -1 being the last. */
  function Offset(i: int, n: nat): (r: int)
  {
    if i < 0 then n + i else i
  }

  /** The elements from `start` to `stop`, both inclusive, as LRANGE returns them and as
      LTRIM keeps them. A start before the head is clamped to the head and a stop past
      the tail to the tail; a start past the tail or past the stop gives the empty list. */
  function Range<T>(s: seq<T>, start: int, stop: int): (r: seq<T>)
    ensures |r| <= |s|
    ensures start == 0 ==> r == s[..|r|]
    ensures stop == -1 ==> r == s[|s| - |r|..]
  {
    var n := |s|;
    var lo := if Offset(start, n) < 0 then 0 else Offset(start, n);
    var hi := Offset(stop, n);
    if lo > hi || lo >= n then []
    else if hi >= n then s[lo..]
    else s[lo..hi + 1]
  }

  /** `LRANGE key 0 -1` reads the whole list. */
  lemma RangeWhole<T>(s: seq<T>)
    ensures Range(s, 0, -1) == s
  {
  }

  /** `LTRIM key 0 n-1` keeps the first `n` elements when `n` is at least one, and the
      whole list is kept when `n` is not smaller than its length. When `n` is zero or
      negative the stop counts from the tail instead, and all but the last `-n`
      elements are kept. */
  lemma RangeHead<T>(s: seq<T>, n: int)
    ensures n >= 1 ==> Range(s, 0, n - 1) == s[..if n < |s| then n else |s|]
    ensures n <= 0 ==> Range(s, 0, n - 1) == s[..if |s| + n < 0 then 0 else |s| + n]
  {
  }
}
