/** Walking along a ring while members drop out of it. */
module RingWalk {
  import opened Base
  import opened Lists

  type Bh = nat

  function IndexOf(ring: seq<Bh>, b: Bh): (k: nat)
    requires b in ring
    ensures k < |ring| && ring[k] == b
  {
    if ring[0] == b then 0 else 1 + IndexOf(ring[1..], b)
  }

  function NextFree(ring: seq<Bh>, b: Bh): (x: Bh)
    requires b in ring
    ensures x in ring
  {
    var k := IndexOf(ring, b);
    ring[if k + 1 < |ring| then k + 1 else 0]
  }

  function PrevFree(ring: seq<Bh>, b: Bh): (x: Bh)
    requires b in ring
    ensures x in ring
  {
    var k := IndexOf(ring, b);
    ring[if k > 0 then k - 1 else |ring| - 1]
  }

  /** Once around, beginning at `b`. */
  function Round(ring: seq<Bh>, b: Bh): seq<Bh>
    requires b in ring
  {
    var k := IndexOf(ring, b);
    ring[k..] + ring[..k]
  }

  /** Once around, beginning after `b`. */
  function Follow(ring: seq<Bh>, b: Bh): seq<Bh>
    requires b in ring
  {
    var k := IndexOf(ring, b);
    ring[k + 1..] + ring[..k + 1]
  }

  lemma FollowNext(ring: seq<Bh>, b: Bh)
    requires b in ring && NoDup(ring)
    ensures Round(ring, NextFree(ring, b)) == Follow(ring, b)
    ensures Follow(ring, b) == Round(ring, b)[1..] + [b] && Round(ring, b)[0] == b
  {
    var k := IndexOf(ring, b);
    var n := NextFree(ring, b);
    assert IndexOf(ring, n) == if k + 1 < |ring| then k + 1 else 0;
    assert ring[..k + 1] == ring[..k] + [b];
  }

  lemma AloneOnRing(ring: seq<Bh>, b: Bh)
    requires b in ring && NoDup(ring)
    ensures NextFree(ring, b) == b <==> ring == [b]
    ensures PrevFree(ring, b) == b <==> ring == [b]
  {
  }

  lemma FollowOf(a: seq<Bh>, b: Bh, z: seq<Bh>)
    requires NoDup(a + [b] + z)
    ensures b in a + [b] + z && Follow(a + [b] + z, b) == z + a + [b]
  {
    var ring := a + [b] + z;
    assert ring[|a|] == b;
    assert b in ring;
    assert IndexOf(ring, b) == |a|;
    assert ring[..|a| + 1] == a + [b];
  }

  /** A member that is not `b` drops out. */
  lemma FollowWithout(ring: seq<Bh>, b: Bh, p: Bh)
    requires NoDup(ring) && b in ring && p != b
    ensures b in Without(ring, p) && Follow(Without(ring, p), b) == Without(Follow(ring, b), p)
  {
    var k := IndexOf(ring, b);
    var a, z := ring[..k], ring[k + 1..];
    assert ring == a + [b] + z;
    FollowOf(a, b, z);
    Three(a, b, z, p);
    Three(z, b, [], p);
    WithoutConcat(z + a, [b], p);
    WithoutConcat(z, a, p);
    WithoutNoDup(ring, p);
    FollowOf(Without(a, p), b, Without(z, p));
    assert Without([b], p) == [b];
  }

  lemma Three(a: seq<Bh>, b: Bh, z: seq<Bh>, p: Bh)
    requires p != b
    ensures Without(a + [b] + z, p) == Without(a, p) + [b] + Without(z, p)
  {
    WithoutConcat(a + [b], z, p);
    WithoutConcat(a, [b], p);
    assert Without([b], p) == [b];
  }

  function Last(s: seq<Bh>): Bh
    requires s != []
  {
    s[|s| - 1]
  }

  lemma FollowJoin(a: seq<Bh>, z: seq<Bh>)
    requires NoDup(a + z) && a + z != []
    ensures var q := if a != [] then Last(a) else Last(z); q in a + z && Follow(a + z, q) == z + a
  {
    if a != [] {
      var h := a[..|a| - 1];
      assert a == h + [Last(a)] && a + z == h + [Last(a)] + z;
      FollowOf(h, Last(a), z);
      assert z + h + [Last(a)] == z + a;
    } else {
      var h := z[..|z| - 1];
      assert z == h + [Last(z)] && a + z == h + [Last(z)] + [];
      FollowOf(h, Last(z), []);
      assert [] + h + [Last(z)] == z + a;
    }
  }

  lemma NoDupSwap(a: seq<Bh>, b: Bh, z: seq<Bh>)
    requires NoDup(a + [b] + z)
    ensures NoDup(a + z) && NoDup(z + a + [b])
  {
    var s := a + [b] + z;
    forall i, j | 0 <= i < j < |a + z| ensures (a + z)[i] != (a + z)[j] {
      assert (a + z)[i] == s[if i < |a| then i else i + 1] && (a + z)[j] == s[if j < |a| then j else j + 1];
    }
    var t := z + a + [b];
    forall i, j | 0 <= i < j < |t| ensures t[i] != t[j] {
      assert t[i] == s[if i < |z| then |a| + 1 + i else i - |z|];
      assert t[j] == s[if j < |z| then |a| + 1 + j else j - |z|];
    }
  }

  /** `b` itself drops out: the walk goes on from the one before it. */
  lemma FollowWithoutSelf(ring: seq<Bh>, b: Bh)
    requires NoDup(ring) && b in ring && |ring| > 1
    ensures var q := PrevFree(ring, b);
            q != b && q in Without(ring, b) && Follow(Without(ring, b), q) == Without(Follow(ring, b), b)
  {
    var k := IndexOf(ring, b);
    var a, z := ring[..k], ring[k + 1..];
    WithoutOne(ring, b, k);
    assert ring == a + [b] + z;
    NoDupSwap(a, b, z);
    FollowOf(a, b, z);
    FollowJoin(a, z);
    assert (z + a + [b])[|z + a|] == b;
    WithoutOne(z + a + [b], b, |z + a|);
    assert (z + a + [b])[..|z + a|] == z + a;
    hide NoDup, Without, Follow;
    assert PrevFree(ring, b) == if a != [] then Last(a) else Last(z);
  }

  lemma RoundOf(a: seq<Bh>, b: Bh, z: seq<Bh>)
    requires NoDup(a + [b] + z)
    ensures b in a + [b] + z && Round(a + [b] + z, b) == [b] + z + a
  {
    var ring := a + [b] + z;
    assert ring[|a|] == b;
    assert b in ring;
    assert IndexOf(ring, b) == |a|;
  }

  lemma RoundJoin(a: seq<Bh>, z: seq<Bh>)
    requires NoDup(a + z) && a + z != []
    ensures var n := if z != [] then z[0] else a[0]; n in a + z && Round(a + z, n) == z + a
  {
    if z != [] {
      assert z == [z[0]] + z[1..] && a + z == a + [z[0]] + z[1..];
      RoundOf(a, z[0], z[1..]);
    } else {
      assert a == [a[0]] + a[1..] && a + z == [] + [a[0]] + a[1..];
      RoundOf([], a[0], a[1..]);
      assert [a[0]] + a[1..] + [] == z + a;
    }
  }

  /** The first of the round drops out. */
  lemma RoundWithout(ring: seq<Bh>, b: Bh)
    requires NoDup(ring) && b in ring && |ring| > 1
    ensures var next := NextFree(ring, b);
            next in Without(ring, b) && Round(Without(ring, b), next) == Round(ring, b)[1..] && Round(ring, b)[0] == b
  {
    hide NoDup, Without, Round, NextFree;
    var k := IndexOf(ring, b);
    var a, z := ring[..k], ring[k + 1..];
    WithoutOne(ring, b, k);
    assert ring == a + [b] + z;
    NoDupSwap(a, b, z);
    RoundOf(a, b, z);
    NextOf(a, b, z);
    RoundJoin(a, z);
    assert ([b] + z + a)[1..] == z + a;
  }

  lemma NextOf(a: seq<Bh>, b: Bh, z: seq<Bh>)
    requires NoDup(a + [b] + z)
    ensures b in a + [b] + z
    ensures NextFree(a + [b] + z, b) == if z != [] then z[0] else if a != [] then a[0] else b
  {
    var ring := a + [b] + z;
    assert ring[|a|] == b;
    assert b in ring;
    assert IndexOf(ring, b) == |a|;
  }

  /** All of `p` drop out. */
  function WithoutAll(s: seq<Bh>, p: seq<Bh>): seq<Bh> {
    if p == [] then s else Without(WithoutAll(s, p[..|p| - 1]), p[|p| - 1])
  }

  lemma {:induction false} WithoutAllFront(s: seq<Bh>, p: seq<Bh>, n: nat, y: Bh)
    requires y in Front(s, n) && y !in p
    ensures y in Front(WithoutAll(s, p), n)
  {
    if p != [] {
      WithoutAllFront(s, p[..|p| - 1], n, y);
      WithoutFront(WithoutAll(s, p[..|p| - 1]), p[|p| - 1], n, y);
    }
  }
}
