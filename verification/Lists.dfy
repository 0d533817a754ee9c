/** Redis lists: `LPUSH` adds at the left end, `BLMOVE ... RIGHT LEFT` takes from the right end, and
    `LREM key 1 x` removes the leftmost occurrence. */
module Lists {

  function Count<T(==)>(s: seq<T>, x: T): nat {
    if s == [] then 0 else (if s[0] == x then 1 else 0) + Count(s[1..], x)
  }

  function LPush<T>(s: seq<T>, x: T): seq<T> { [x] + s }

  /** `LREM s 1 x`. */
  function LRem1<T(==)>(s: seq<T>, x: T): seq<T> {
    if s == [] then [] else if s[0] == x then s[1..] else [s[0]] + LRem1(s[1..], x)
  }

  /** The ids pushed one after the other. */
  function PushAll<T>(s: seq<T>, xs: seq<T>): seq<T>
    decreases |xs|
  {
    if xs == [] then s else PushAll(LPush(s, xs[0]), xs[1..])
  }

  /** The order in which a list is emptied from its right end. */
  function DequeueOrder<T>(s: seq<T>): seq<T> {
    if s == [] then [] else DequeueOrder(s[1..]) + [s[0]]
  }

  lemma {:induction false} CountIn<T>(s: seq<T>, x: T)
    ensures x in s <==> Count(s, x) > 0
  {
    if s != [] {
      CountIn(s[1..], x);
      assert s == [s[0]] + s[1..];
    }
  }

  lemma CountLPush<T>(s: seq<T>, y: T, x: T)
    ensures Count(LPush(s, y), x) == Count(s, x) + (if x == y then 1 else 0)
  {
    assert LPush(s, y)[1..] == s;
  }

  lemma {:induction false} CountLRem1<T>(s: seq<T>, y: T, x: T)
    ensures y !in s ==> LRem1(s, y) == s
    ensures Count(LRem1(s, y), x) == Count(s, x) - (if x == y && y in s then 1 else 0)
  {
    if s != [] {
      CountLRem1(s[1..], y, x);
      assert s == [s[0]] + s[1..];
      if s[0] != y {
        assert ([s[0]] + LRem1(s[1..], y))[1..] == LRem1(s[1..], y);
      }
    }
  }

  lemma {:induction false} CountLast<T>(s: seq<T>, x: T)
    requires s != []
    ensures Count(s, x) == Count(s[..|s| - 1], x) + (if s[|s| - 1] == x then 1 else 0)
  {
    if |s| > 1 {
      CountLast(s[1..], x);
      assert s[1..][..|s| - 2] == s[..|s| - 1][1..];
    }
  }

  lemma {:induction false} CountPushAll<T>(s: seq<T>, xs: seq<T>, x: T)
    ensures Count(PushAll(s, xs), x) == Count(s, x) + Count(xs, x)
    decreases |xs|
  {
    if xs != [] {
      CountPushAll(LPush(s, xs[0]), xs[1..], x);
      CountLPush(s, xs[0], x);
    }
  }

  /** Ids pushed in a batch are dequeued in batch order, after everything that was queued before. */
  lemma {:induction false} PushedLeaveLast<T>(s: seq<T>, xs: seq<T>)
    ensures DequeueOrder(PushAll(s, xs)) == DequeueOrder(s) + xs
    decreases |xs|
  {
    if xs == [] {
      assert DequeueOrder(s) + xs == DequeueOrder(s);
    } else {
      var s' := LPush(s, xs[0]);
      PushedLeaveLast(s', xs[1..]);
      assert s'[1..] == s;
      assert DequeueOrder(s') == DequeueOrder(s) + [xs[0]];
      assert DequeueOrder(s) + [xs[0]] + xs[1..] == DequeueOrder(s) + xs;
    }
  }

  lemma {:induction false} PushAllAppend<T>(s: seq<T>, xs: seq<T>, ys: seq<T>)
    ensures PushAll(PushAll(s, xs), ys) == PushAll(s, xs + ys)
    decreases |xs|
  {
    if xs == [] {
      assert xs + ys == ys;
    } else {
      PushAllAppend(LPush(s, xs[0]), xs[1..], ys);
      assert (xs + ys)[1..] == xs[1..] + ys;
    }
  }

  /** The right end of a list is the first to go. */
  lemma {:induction false} RightEndLeavesFirst<T>(s: seq<T>)
    requires s != []
    ensures var last := |s| - 1; DequeueOrder(s) == [s[last]] + DequeueOrder(s[..last])
  {
    var last := |s| - 1;
    if last > 0 {
      RightEndLeavesFirst(s[1..]);
      assert s[1..][..last - 1] == s[..last][1..];
      assert DequeueOrder(s) == [s[last]] + DequeueOrder(s[..last][1..]) + [s[0]];
    }
  }

  /** What `LPUSH` adds leaves last. */
  lemma PushedLeavesLast<T>(s: seq<T>, x: T)
    ensures DequeueOrder(LPush(s, x)) == DequeueOrder(s) + [x]
  {
    assert LPush(s, x)[1..] == s;
  }

  /** `LREM` with a count of 1 takes the leftmost occurrence and leaves the rest in order. */
  lemma {:induction false} RemovesLeftmost<T>(a: seq<T>, x: T, b: seq<T>)
    requires x !in a
    ensures LRem1(a + [x] + b, x) == a + b
  {
    if a == [] {
      assert [] + [x] + b == [x] + b && ([x] + b)[1..] == b;
      assert a + b == b;
    } else {
      RemovesLeftmost(a[1..], x, b);
      assert (a + [x] + b)[1..] == a[1..] + [x] + b;
      assert a + b == [a[0]] + (a[1..] + b);
    }
  }
}
