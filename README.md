# qr: Redis-backed collections, modelled in Dafny

qr (version 0.2.0) offers four collections, each a thin handle on one Redis list named
by a key: `Deque`, `Queue`, `Stack` and `CappedCollection`. A handle stores only its key
(and, for a capped collection, its size); the elements live in Redis, and every push or
pop is one Redis command that edits that list in place. `CappedCollection.push` sends
LPUSH and `LTRIM key 0 size-1` together in one pipeline, so that the list never holds
more than `size` elements after a push.

The model:

- `RedisList` gives the Redis list commands qr uses as functions on a `seq`, index 0
  being the head (the LPUSH end): `LPush`, `RPush`, `LPop`, `RPop` (a `Popped` value:
  the optional element and the remaining list) and `Range`, which is both what
  `LRANGE start stop` reads and what `LTRIM start stop` keeps (inclusive bounds,
  negative indices counted from the tail, out-of-range bounds clamped). `Assign` is the
  database after one key's list changes; Redis deletes a key whose list empties.
- `RedisStore.Store` is the Redis database behind qr's single global client: a class
  whose `lists: map<string, seq<T>>` field each command method updates. An absent key
  holds the empty list.
- `Qr` has the four collections as classes holding the store and their key as
  constants, so two handles on the same key share one list. Each mutating method states
  the new list in terms of the old one, states that no other key changes, and states
  the collection's own view: `Queue` and `CappedCollection` in arrival order (oldest
  first, the reversal of the Redis list), `Deque` front to back (its front is the tail
  of the Redis list), `Stack` top first (the list itself).
- `QrLaws` states what happens over many calls: pushes then pops until empty come back
  in push order from a queue and in reverse order from a stack; a capped collection of
  size `k >= 1` keeps exactly the `k` most recent pushes and evicts the oldest; with
  size zero there is no cap at all.
- `QrScenarios` follows the unit tests' scenarios for Queue, CappedCollection and
  Stack (single-push round trip, order, the size-3 limit returning `c, d, e`) through
  the contracts only, plus one Deque scenario of its own, since the tests have none.
- `Sequences` holds the facts about reversal and suffixes that these proofs use.

Notes on the source:

- The docstring of `Queue` calls it "FILO"; the code (LPUSH then RPOP) is first-in
  first-out, and the tests expect that. The model follows the code.
- `CappedCollection` does not check its size. A size of zero makes the trim
  `LTRIM key 0 -1`, which keeps the whole list, so the collection grows without bound
  (`QrLaws.ZeroSizeHasNoCap`); a negative size counts the stop from the tail. The model
  takes `size` as any integer and states the bound for `size >= 1` only.
- The constructor does not clear the key, so a capped collection built over a longer
  existing list is over its size until its first push; the bound is therefore a
  postcondition of `Push`, not an invariant of the object.
- `Queue.elements` reads `lrange(...) or [ ]`, the other `elements` methods plain
  `lrange(...)`. The model reads a missing key as the empty list (see "## Left out"),
  under which the `or [ ]` changes nothing.
- The unit tests use `len`, `extend`, `clear`, indexing, `dump`/`load` and expect
  values to come back as Python objects; qr.py 0.2.0 defines none of these and does no
  encoding, so they are not part of this model.

## Model

| member | source | states |
|---|---|---|
| RedisList.Assign | qr.py:25 | after a command on one key, that key holds the new list, no other key changes, and a key whose list is empty is absent |
| RedisList.AssignTwice | qr.py:123-125 | two commands on the same key in a row leave what the second alone would leave |
| RedisList.LPush | qr.py:47 | LPUSH adds one element, and LPOP then gives it back and leaves the list as it was |
| RedisList.RPush | qr.py:53 | RPUSH adds one element, and RPOP then gives it back and leaves the list as it was |
| RedisList.LPop | qr.py:65 | LPOP gives nothing exactly when the list is empty, and then leaves it as it was; otherwise it removes exactly the head and the rest keeps its order |
| RedisList.RPop | qr.py:59 | RPOP gives nothing exactly when the list is empty, and then leaves it as it was; otherwise it removes exactly the tail and the rest keeps its order |
| RedisList.Range | qr.py:124 | a range is never longer than the list; one starting at 0 is a prefix of it and one stopping at -1 a suffix |
| RedisList.RangeWhole | qr.py:71 | `LRANGE key 0 -1` is the whole list |
| RedisList.RangeHead | qr.py:124 | `LTRIM key 0 n-1` keeps the first `min(n, length)` elements for `n >= 1`, and all but the last `-n` for `n <= 0` |
| RedisStore.Store.constructor | qr.py:25 | a fresh database holds no keys |
| RedisStore.Store.LPush | qr.py:47 | the element is added at the head of the key's list, nothing else changes, and the new length is returned |
| RedisStore.Store.RPush | qr.py:53 | the element is added at the tail of the key's list, nothing else changes, and the new length is returned |
| RedisStore.Store.LPop | qr.py:65 | returns and removes the head as LPOP does, changing no other key |
| RedisStore.Store.RPop | qr.py:59 | returns and removes the tail as RPOP does, changing no other key |
| RedisStore.Store.LTrim | qr.py:124 | the key's list becomes the given inclusive range of itself, nothing else changes |
| RedisStore.Store.LRange | qr.py:71 | returns the inclusive range of the key's list, never longer than it: the whole list for `0 -1`, the first `min(stop+1, length)` elements for `0 stop` with `stop >= 0`; changes nothing |
| Qr.CappedPush | qr.py:120-125 | for `size >= 1`: at most `size` elements remain, the newest `size` of the pushed list, the oldest evicted; below the cap nothing is evicted; for `size <= 0` the stop counts from the tail, so size 0 keeps everything |
| Qr.Deque.constructor | qr.py:41-42 | the handle is bound to the given store and key |
| Qr.Deque.PushBack | qr.py:44-48 | LPUSH: the element joins at the back (the head of the list); no other key changes |
| Qr.Deque.PushFront | qr.py:50-54 | RPUSH: the element joins at the front (the tail of the list); no other key changes |
| Qr.Deque.PopFront | qr.py:56-60 | RPOP: returns and removes the front element, or None on an empty deque leaving it empty |
| Qr.Deque.PopBack | qr.py:62-66 | LPOP: returns and removes the back element, or None on an empty deque leaving it empty |
| Qr.Deque.Elements | qr.py:68-72 | returns the whole list head first and changes nothing |
| Qr.Queue.constructor | qr.py:84-85 | the handle is bound to the given store and key |
| Qr.Queue.Push | qr.py:87-91 | LPUSH: the element joins the end of the arrival order; no other key changes |
| Qr.Queue.Pop | qr.py:93-97 | RPOP: returns and removes the oldest element, or None on an empty queue leaving it empty |
| Qr.Queue.Elements | qr.py:99-103 | returns the whole list head first (newest first) and changes nothing |
| Qr.CappedCollection.constructor | qr.py:116-118 | the handle is bound to the given store, key and size |
| Qr.CappedCollection.Push | qr.py:120-125 | LPUSH then `LTRIM 0 size-1` as one step: for `size >= 1` the list holds at most `size`, nothing is evicted below the cap, and the survivors are the newest `size` in arrival order |
| Qr.CappedCollection.Pop | qr.py:127-131 | RPOP: returns and removes the oldest surviving element, or None when empty leaving it empty |
| Qr.CappedCollection.Elements | qr.py:133-137 | returns the whole list head first (newest first) and changes nothing |
| Qr.Stack.constructor | qr.py:149-150 | the handle is bound to the given store and key |
| Qr.Stack.Push | qr.py:152-156 | LPUSH: the element becomes the top; no other key changes |
| Qr.Stack.Pop | qr.py:158-162 | LPOP: returns and removes the top, or None on an empty stack leaving it empty |
| Qr.Stack.Elements | qr.py:164-168 | returns the whole list top first and changes nothing |
| QrLaws.PushAllPrepends | qr.py:87-91 | pushing `v1..vn` with LPUSH puts them at the head in reverse order, newest first |
| QrLaws.DrainTailReverses | qr.py:93-97 | popping with RPOP until None gives the list tail first |
| QrLaws.DrainHeadKeepsOrder | qr.py:158-162 | popping with LPOP until None gives the list head first |
| QrLaws.QueueIsFifo | qr.py:87-97 | pops after pushes `v1..vn` give what was queued before, then `v1..vn` in push order |
| QrLaws.StackIsLifo | qr.py:152-162 | pops after pushes `v1..vn` give `vn..v1`, then what was on the stack before |
| QrLaws.CappedKeepsNewest | qr.py:120-131 | for size `k >= 1`, after at least one push from any list (or none, from a list within `k`), the survivors in arrival order are the newest `k` of the old arrivals followed by the pushes, and their number is `min(k, count)` |
| QrLaws.CappedDrainsNewest | qr.py:120-131 | pushing onto an empty capped collection and popping until None yields the newest `size` pushes, oldest first (size 3 with `a..e` yields `c, d, e`) |
| QrLaws.RoundTrip | qr.py:87-162 | one push onto an empty Queue, CappedCollection or Stack, then a pop, returns that element and leaves the list empty |
| QrLaws.ZeroSizeHasNoCap | qr.py:124 | with size 0 every push adds one element and nothing is ever evicted, exactly as uncapped LPUSH |

## Left out

- The redis-py client and its connection (qr.py:16, 25): network I/O. The model passes an explicit `Store` to each handle instead of the module-level global.
- Logging (qr.py:27-35 and the `log.debug` calls): side effects only.
- `elements_as_json` (qr.py:74-79, 105-110, 139-144): it reads the same LRANGE as `elements` and hands it to the JSON library, which is not modelled.
- Atomicity of the MULTI/EXEC pipeline in `CappedCollection.push` against other clients (qr.py:123-125): the model has one client, and takes the LPUSH and LTRIM as one sequential step.
- How redis-py turns a pushed value into a Redis string: elements are of an opaque type `T` and come back exactly as pushed.
- The lengths LPUSH and RPUSH return: kept by `Store.LPush`/`Store.RPush` but, as in the source, discarded by the collections.
- Redis facts the model fixes without a source to check them against, taken from Redis's documented behaviour:
  - a key that does not exist reads as the empty list (LRANGE gives an empty reply, LPOP and RPOP give nil), and a list that becomes empty deletes its key;
  - every key holds a list, so the WRONGTYPE error every list command raises on a key of another type is not modelled;
  - the LTRIM and LRANGE indices are unbounded integers here, while Redis reads them as 64-bit integers, so a `size` outside that range is not modelled;
  - out-of-range and negative indices are clamped as current Redis versions do.
- Connection and transport errors raised by redis-py: every command here succeeds.
