/** Redis sorted sets, as maps from member to score. Members are ranged over by (score, member). */
module SortedSets {
  import opened Base

  type ZSet = map<Id, int>

  predicate Before(z: ZSet, a: Id, b: Id) {
    a in z && b in z && (z[a] < z[b] || (z[a] == z[b] && a < b))
  }

  function Members(s: seq<Id>): set<Id> {
    set a | a in s
  }

  /** The members a `ZRANGEBYSCORE z 0 now` without a limit would return. */
  function Due(z: ZSet, now: int): set<Id> {
    set a | a in z && 0 <= z[a] <= now
  }

  predicate Least(z: ZSet, s: set<Id>, m: Id) {
    m in s && forall b :: b in s ==> b == m || Before(z, m, b)
  }

  lemma {:induction false} FirstExists(z: ZSet, s: set<Id>)
    requires s != {} && s <= z.Keys
    ensures exists m :: Least(z, s, m)
    decreases s
  {
    var a :| a in s;
    var rest := s - {a};
    if rest == {} {
      assert Least(z, s, a) by {
        forall b | b in s ensures b == a { assert b !in rest; }
      }
    } else {
      FirstExists(z, rest);
      var m :| Least(z, rest, m);
      FirstOfTwo(z, s, a, m);
    }
  }

  lemma FirstOfTwo(z: ZSet, s: set<Id>, a: Id, m: Id)
    requires a in s && s <= z.Keys && Least(z, s - {a}, m)
    ensures Least(z, s, if Before(z, m, a) then m else a)
  {
    forall b | b in s && b != a ensures b == m || Before(z, m, b) {
      assert b in s - {a};
    }
  }

  function First(z: ZSet, s: set<Id>): (m: Id)
    requires s != {} && s <= z.Keys
    ensures Least(z, s, m)
  {
    FirstExists(z, s);
    var m :| Least(z, s, m);
    m
  }

  /** The members of `s` in increasing (score, member) order. */
  function Sorted(z: ZSet, s: set<Id>): seq<Id>
    requires s <= z.Keys
    decreases |s|
  {
    if s == {} then [] else
      var m := First(z, s);
      [m] + Sorted(z, s - {m})
  }

  /** `Sorted` lists every member once, in order. */
  lemma {:induction false} SortedIsSorted(z: ZSet, s: set<Id>)
    requires s <= z.Keys
    ensures var r := Sorted(z, s);
            && |r| == |s|
            && Members(r) == s
            && forall i, j :: 0 <= i < j < |r| ==> Before(z, r[i], r[j])
    decreases |s|
  {
    if s != {} {
      var m := First(z, s);
      var rest := Sorted(z, s - {m});
      SortedIsSorted(z, s - {m});
      MembersCons(m, rest);
      forall j | 0 <= j < |rest| ensures Before(z, m, rest[j]) {
        assert rest[j] in Members(rest);
      }
    }
  }

  /** `ZRANGEBYSCORE z 0 now LIMIT 0 limit`. */
  function ZRange(z: ZSet, now: int, limit: nat): seq<Id> {
    var all := Sorted(z, Due(z, now));
    all[..Min(limit, |all|)]
  }

  /** `ZREM z ids...`. */
  function ZRem(z: ZSet, ids: seq<Id>): (r: ZSet)
    ensures forall a :: a in r <==> a in z && a !in ids
    ensures forall a :: a in r ==> r[a] == z[a]
  {
    map a | a in z && a !in ids :: z[a]
  }

  /** The order of a set of members depends only on their own scores. */
  lemma {:induction false} SortedFrame(z: ZSet, z': ZSet, s: set<Id>)
    requires s <= z.Keys && s <= z'.Keys
    requires forall a :: a in s ==> z[a] == z'[a]
    ensures Sorted(z, s) == Sorted(z', s)
    decreases |s|
  {
    if s != {} {
      var m, m' := First(z, s), First(z', s);
      if m != m' {
        assert false;
      }
      SortedFrame(z, z', s - {m});
    }
  }

  /** Taking the first `k` members away leaves the rest in the same order. */
  lemma {:induction false} SortedDrop(z: ZSet, s: set<Id>, k: nat)
    requires s <= z.Keys && k <= |Sorted(z, s)|
    ensures Sorted(z, s - Members(Sorted(z, s)[..k])) == Sorted(z, s)[k..]
    decreases k
  {
    var r := Sorted(z, s);
    if k == 0 {
      assert s - Members(r[..0]) == s;
    } else {
      var m := First(z, s);
      var rest := Sorted(z, s - {m});
      SortedDrop(z, s - {m}, k - 1);
      assert r[k..] == rest[k - 1..];
      assert s - Members(r[..k]) == (s - {m}) - Members(rest[..k - 1]) by {
        assert r[..k] == [m] + rest[..k - 1];
        MembersCons(m, rest[..k - 1]);
      }
    }
  }

  lemma MembersCons(m: Id, s: seq<Id>)
    ensures Members([m] + s) == {m} + Members(s)
  {
    forall a ensures a in Members([m] + s) <==> a in {m} + Members(s) {
      assert a in [m] + s <==> a == m || a in s;
    }
  }

  /** A batch leaves in the set exactly the due members that come later, in the same order. */
  lemma ZRemRange(z: ZSet, now: int, limit: nat)
    ensures var all := Sorted(z, Due(z, now));
            var k := Min(limit, |all|);
            var z' := ZRem(z, ZRange(z, now, limit));
            Sorted(z', Due(z', now)) == all[k..]
  {
    var due := Due(z, now);
    var all := Sorted(z, due);
    var k := Min(limit, |all|);
    var z' := ZRem(z, ZRange(z, now, limit));
    SortedDrop(z, due, k);
    assert Due(z', now) == due - Members(all[..k]);
    SortedFrame(z, z', Due(z', now));
  }
}
