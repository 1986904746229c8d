/** The shared Redis list `prompts`, reduced to the three list commands the handlers
    issue: LPUSH, LTRIM and LRANGE. Elements are kept front (most recently pushed)
    to back. */
module ListStore {

  /** The cap both handlers apply after every push with `LTRIM prompts 0 999`. */
  const Capacity: nat := 1000

  function Min(a: int, b: int): int {
    if a <= b then a else b
  }

  /** The elements that `LRANGE key start stop` returns and `LTRIM key start stop`
      keeps: indexes are inclusive, a negative index counts from the back (-1 is the
      last element), a start past the end or after the stop selects nothing, and a
      stop past the end means the last element. */
  function Range<T>(s: seq<T>, start: int, stop: int): (r: seq<T>)
    ensures |r| <= |s|
  {
    var len := |s|;
    var lo := if start < 0 then start + len else start;
    var hi := if stop < 0 then stop + len else stop;
    var lo := if lo < 0 then 0 else lo;
    if lo > hi || lo >= len then []
    else
      var hi := if hi >= len then len - 1 else hi;
      s[lo..hi + 1]
  }

  /** `LRANGE key 0 -1` is the whole list. */
  lemma RangeWhole<T>(s: seq<T>)
    ensures Range(s, 0, -1) == s
  {
  }

  /** A range from the front keeps a prefix: `LTRIM key 0 n` keeps the first n + 1. */
  lemma RangePrefix<T>(s: seq<T>, stop: nat)
    ensures Range(s, 0, stop) == s[..Min(stop + 1, |s|)]
  {
  }

  /** The list after `LPUSH key x` followed by `LTRIM key 0 999`: it starts with `x`
      and grows by one until it holds `Capacity` elements. */
  function PushCapped<T>(s: seq<T>, x: T): (r: seq<T>)
    ensures |r| == Min(Capacity, |s| + 1)
    ensures r[0] == x
  {
    RangePrefix([x] + s, Capacity - 1);
    Range([x] + s, 0, Capacity - 1)
  }

  /** The capped push keeps the old list's front after `x`, and on a full list drops
      exactly the old list's last (oldest) element. */
  lemma PushCappedShape<T>(s: seq<T>, x: T)
    ensures PushCapped(s, x) == ([x] + s)[..Min(Capacity, |s| + 1)]
    ensures PushCapped(s, x)[1..] == s[..|PushCapped(s, x)| - 1]
    ensures |s| < Capacity ==> PushCapped(s, x) == [x] + s
    ensures |s| == Capacity ==> PushCapped(s, x) == [x] + s[..Capacity - 1]
  {
    RangePrefix([x] + s, Capacity - 1);
  }

  /** The list after one capped push per element of `xs`, in order. */
  function PushAll<T>(s: seq<T>, xs: seq<T>): seq<T>
    decreases |xs|
  {
    if xs == [] then s else PushAll(PushCapped(s, xs[0]), xs[1..])
  }

  function Reversed<T>(xs: seq<T>): (r: seq<T>)
    ensures |r| == |xs|
  {
    if xs == [] then [] else Reversed(xs[1..]) + [xs[0]]
  }

  /** After any run of capped pushes, the list is every pushed element, newest first,
      followed by the original list, cut to the first `Capacity`: what is evicted is
      always the oldest. With no push at all the list is unchanged, so the cut form
      holds then only for a list already within the cap. */
  lemma {:induction false} PushAllKeepsNewest<T>(s: seq<T>, xs: seq<T>)
    ensures xs != [] || |s| <= Capacity ==>
      PushAll(s, xs) == (Reversed(xs) + s)[..Min(Capacity, |xs| + |s|)]
    ensures xs != [] || |s| <= Capacity ==> |PushAll(s, xs)| <= Capacity
    decreases |xs|
  {
    if xs != [] {
      var x, rest := xs[0], xs[1..];
      var s' := PushCapped(s, x);
      PushCappedShape(s, x);
      PushAllKeepsNewest(s', rest);
      var a, b := Reversed(rest), [x] + s;
      var m := Min(Capacity, |b|);
      var k := Min(Capacity, |xs| + |s|);
      assert Reversed(xs) + s == a + b;
      assert s' == b[..m];
      assert Min(Capacity, |rest| + |s'|) == k;
      assert (a + b[..m])[..k] == (a + b)[..k];
    }
  }

  /** The `prompts` list as the handlers see it. */
  class RedisList<T> {
    var items: seq<T>

    constructor (initial: seq<T>)
      ensures items == initial
    {
      items := initial;
    }

    /** `LPUSH key x`: puts `x` at the front and answers the new length. */
    method LPush(x: T) returns (length: nat)
      modifies this
      ensures items == [x] + old(items)
      ensures length == |items|
    {
      items := [x] + items;
      length := |items|;
    }

    /** `LTRIM key start stop`: keeps only the selected range. */
    method LTrim(start: int, stop: int)
      modifies this
      ensures items == Range(old(items), start, stop)
    {
      items := Range(items, start, stop);
    }

    /** `LRANGE key start stop`: reads the selected range, front to back. */
    method LRange(start: int, stop: int) returns (r: seq<T>)
      ensures r == Range(items, start, stop)
      ensures |r| <= |items|
    {
      r := Range(items, start, stop);
    }
  }
}
