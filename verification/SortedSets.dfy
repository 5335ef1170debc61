/** The ordered reads of Redis sorted sets that the queue script relies on. */
module SortedSets {
  import opened QueueTypes

  /** Redis order: by score, ties by member. */
  predicate Before(z: map<Id, int>, a: Id, b: Id)
    requires a in z && b in z
  {
    z[a] < z[b] || (z[a] == z[b] && a <= b)
  }

  lemma {:induction false} FirstExists(z: map<Id, int>, s: set<Id>) returns (first: Id)
    requires s != {} && s <= z.Keys
    ensures first in s && forall o :: o in s ==> Before(z, first, o)
    decreases |s|
  {
    var x :| x in s;
    if s == {x} {
      first := x;
    } else {
      assert s - {x} != {};
      var y := FirstExists(z, s - {x});
      first := if Before(z, x, y) then x else y;
      forall o | o in s ensures Before(z, first, o) {
        assert o == x || o in s - {x};
      }
    }
  }

  /** ZRANGE 0 limit-1: the first members in order, all of them when they fit. */
  method Front(z: map<Id, int>, limit: nat) returns (ids: seq<Id>)
    ensures |ids| == Min(limit, |z|) && (forall i :: 0 <= i < |ids| ==> ids[i] in z)
    ensures forall i, j :: 0 <= i < j < |ids| ==> ids[i] != ids[j] && Before(z, ids[i], ids[j])
    ensures forall o, i :: o in z && o !in ids && 0 <= i < |ids| ==> Before(z, ids[i], o)
    ensures |z| <= limit ==> forall o :: o in z ==> o in ids
  {
    ids := [];
    var rest := z.Keys;
    while |ids| < limit && rest != {}
      invariant |ids| <= limit && |ids| + |rest| == |z|
      invariant rest <= z.Keys && (forall i :: 0 <= i < |ids| ==> ids[i] in z && ids[i] !in rest)
      invariant forall o :: o in z ==> o in rest || o in ids
      invariant forall i, j :: 0 <= i < j < |ids| ==> ids[i] != ids[j] && Before(z, ids[i], ids[j])
      invariant forall o, i :: o in rest && 0 <= i < |ids| ==> Before(z, ids[i], o)
      decreases |rest|
    {
      ghost var f := FirstExists(z, rest);
      var first :| first in rest && forall o :: o in rest ==> Before(z, first, o);
      ids := ids + [first];
      rest := rest - {first};
    }
  }

  /** The first members of a sorted set, as many as the limit lets through. */
  ghost predicate FirstOf(z: map<Id, int>, batch: set<Id>, limit: nat) {
    && batch <= z.Keys && |batch| == Min(limit, |z|)
    && forall a, o :: a in batch && o in z && o !in batch ==> Before(z, a, o)
  }

  lemma {:induction false} SetOfSize(ids: seq<Id>, s: set<Id>)
    requires (forall i, j :: 0 <= i < j < |ids| ==> ids[i] != ids[j]) && forall id :: id in s <==> id in ids
    ensures |s| == |ids|
    decreases |ids|
  {
    if ids != [] {
      var init, last := ids[..|ids| - 1], ids[|ids| - 1];
      assert ids == init + [last];
      SetOfSize(init, s - {last});
    }
  }

  /** A scan that fits its limit sees everything. */
  lemma FirstOfAll(z: map<Id, int>, batch: set<Id>, limit: nat)
    requires FirstOf(z, batch, limit) && |z| <= limit
    ensures batch == z.Keys
  {
    SameSize(batch, z.Keys);
  }

  lemma {:induction false} SameSize(a: set<Id>, b: set<Id>)
    requires a <= b && |a| == |b|
    ensures a == b
    decreases |a|
  {
    if a != {} {
      var x :| x in a;
      SameSize(a - {x}, b - {x});
      assert a == a - {x} + {x} && b == b - {x} + {x};
    }
  }
}
