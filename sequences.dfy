/** Facts about sequences that the collection proofs rest on. */
module Sequences {

  /** The elements of `s` in the opposite order. */
  function Reversed<T>(s: seq<T>): (r: seq<T>)
    ensures |r| == |s|
  {
    if s == [] then [] else Reversed(s[1..]) + [s[0]]
  }

  /** The last `k` elements of `t`, or all of `t` when it is shorter. */
  function Newest<T>(t: seq<T>, k: nat): (r: seq<T>)
    ensures |r| == if k < |t| then k else |t|
  {
    if k < |t| then t[|t| - k..] else t
  }

  lemma {:induction false} ReversedConcat<T>(a: seq<T>, b: seq<T>)
    ensures Reversed(a + b) == Reversed(b) + Reversed(a)
  {
    if a == [] {
      assert a + b == b;
    } else {
      assert (a + b)[1..] == a[1..] + b;
      ReversedConcat(a[1..], b);
    }
  }

  /** Adding at the head of `s` adds at the tail of its reversal. */
  lemma ReversedCons<T>(x: T, s: seq<T>)
    ensures Reversed([x] + s) == Reversed(s) + [x]
  {
    ReversedConcat([x], s);
  }

  /** Adding at the tail of `s` adds at the head of its reversal. */
  lemma ReversedSnoc<T>(s: seq<T>, x: T)
    ensures Reversed(s + [x]) == [x] + Reversed(s)
  {
    ReversedConcat(s, [x]);
    assert Reversed([x]) == [x];
  }

  lemma {:induction false} ReversedReversed<T>(s: seq<T>)
    ensures Reversed(Reversed(s)) == s
  {
    if s != [] {
      ReversedReversed(s[1..]);
      ReversedSnoc(Reversed(s[1..]), s[0]);
      assert [s[0]] + s[1..] == s;
    }
  }

  /** Keeping the first `k` elements of `s` keeps the last `k` of its reversal. */
  lemma ReversedPrefix<T>(s: seq<T>, k: nat)
    requires k <= |s|
    ensures Reversed(s[..k]) == Reversed(s)[|s| - k..]
  {
    assert s == s[..k] + s[k..];
    ReversedConcat(s[..k], s[k..]);
  }

  /** When `t` ends `p + t` and holds at least `k` elements, both end in the same `k`. */
  lemma NewestOfSuffix<T>(p: seq<T>, t: seq<T>, k: nat)
    requires k <= |t|
    ensures Newest(p + t, k) == Newest(t, k)
  {
    assert (p + t)[|p + t| - k..] == t[|t| - k..];
  }

  /** Keeping the newest `k`, then adding `b`, then keeping the newest `k` again
      is the same as adding `b` and keeping the newest `k` once. */
  lemma NewestAbsorbs<T>(a: seq<T>, b: seq<T>, k: nat)
    ensures Newest(Newest(a, k) + b, k) == Newest(a + b, k)
  {
    if k < |a| {
      assert a + b == a[..|a| - k] + (Newest(a, k) + b);
      NewestOfSuffix(a[..|a| - k], Newest(a, k) + b, k);
    }
  }
}
