/** The rings of the buffer cache at the level of `b_next_free` and `b_prev_free` (fs/buffer.c:328-447,
    1390-1411): circular, doubly linked, with a head that may be NULL. */
module BufferRings {
  import opened Base
  import opened Lists

  type Bh = nat

  /** Number `i` of the ring and its successor point to each other. */
  predicate Joined(order: seq<Bh>, next: map<Bh, Bh>, prev: map<Bh, Bh>, i: nat)
    requires i < |order|
  {
    var a, b := order[i], order[After(i, |order|)];
    a in next && next[a] == b && b in prev && prev[b] == a
  }

  ghost predicate Linked(order: seq<Bh>, next: map<Bh, Bh>, prev: map<Bh, Bh>) {
    NoDup(order) && forall i :: 0 <= i < |order| ==> Joined(order, next, prev, i)
  }

  function HeadOf(order: seq<Bh>): Option<Bh> { if order == [] then None else Some(order[0]) }

  /** Everything outside the ring keeps its links. */
  ghost predicate Apart(order: seq<Bh>, m: map<Bh, Bh>, m': map<Bh, Bh>) {
    forall b :: b !in order ==> (b in m' <==> b in m) && (b in m ==> m'[b] == m[b])
  }

  lemma ApartMore(order: seq<Bh>, order': seq<Bh>, m: map<Bh, Bh>, m': map<Bh, Bh>, m'': map<Bh, Bh>)
    requires Apart(order, m, m') && Apart(order', m', m'') && forall b :: b in order ==> b in order'
    ensures Apart(order', m, m'')
  {
  }

  lemma ApartRotated(order: seq<Bh>, m: map<Bh, Bh>, m': map<Bh, Bh>)
    requires order != [] && Apart(order, m, m')
    ensures Apart(order[1..] + [order[0]], m, m')
  {
  }

  lemma InsertedAll(order: seq<Bh>, k: nat, x: Bh)
    requires k <= |order|
    ensures forall b :: b in order ==> b in InsertedAt(order, k, x)
  {
    assert order == order[..k] + order[k..];
  }

  lemma ApartSelf(order: seq<Bh>, m: map<Bh, Bh>)
    ensures Apart(order, m, m)
  {
  }

  lemma WithoutAt1(order: seq<Bh>, k: nat, i: nat)
    requires NoDup(order) && k < |order| && i < |order| - 1
    ensures |Without(order, order[k])| == |order| - 1
    ensures Without(order, order[k])[i] == if i < k then order[i] else order[i + 1]
  {
    WithoutOne(order, order[k], k);
  }

  /** Taking number `k` out. */
  lemma Unlinked(order: seq<Bh>, next: map<Bh, Bh>, prev: map<Bh, Bh>, k: nat, next': map<Bh, Bh>, prev': map<Bh, Bh>)
    requires Linked(order, next, prev) && k < |order| && order[k] in next && order[k] in prev
    requires var b := order[k];
             next' == next[prev[b] := next[b]] - {b} && prev' == prev[next[b] := prev[b]] - {b}
    ensures Linked(Without(order, order[k]), next', prev')
  {
    var r := Without(order, order[k]);
    WithoutNoDup(order, order[k]);
    hide NoDup;
    forall i | 0 <= i < |r| ensures Joined(r, next', prev', i) {
      UnlinkedAt(order, next, prev, k, next', prev', i);
    }
  }

  lemma UnlinkedAt(order: seq<Bh>, next: map<Bh, Bh>, prev: map<Bh, Bh>, k: nat,
                   next': map<Bh, Bh>, prev': map<Bh, Bh>, i: nat)
    requires Linked(order, next, prev) && k < |order| && order[k] in next && order[k] in prev && i < |order| - 1
    requires var b := order[k];
             next' == next[prev[b] := next[b]] - {b} && prev' == prev[next[b] := prev[b]] - {b}
    ensures |Without(order, order[k])| == |order| - 1 && Joined(Without(order, order[k]), next', prev', i)
  {
    hide NoDup, Without;
    var n := |order|;
    assert Joined(order, next, prev, k) && Joined(order, next, prev, if k > 0 then k - 1 else n - 1);
    WithoutAt1(order, k, i);
    WithoutAt1(order, k, After(i, n - 1));
    var j := if i < k then i else i + 1;
    assert Joined(order, next, prev, j) && Joined(order, next, prev, After(j, n));
    Different(order, j, k);
    Different(order, After(j, n), k);
  }

  lemma Different(order: seq<Bh>, i: nat, k: nat)
    requires NoDup(order) && i < |order| && k < |order|
    ensures order[i] == order[k] <==> i == k
  {
  }

  /** Putting `b` between number `k - 1` and number `k` (with 0: at the end, before the head). */
  function InsertedAt(order: seq<Bh>, k: nat, b: Bh): seq<Bh>
    requires k <= |order|
  {
    order[..k] + [b] + order[k..]
  }

  lemma InsertedOk(order: seq<Bh>, next: map<Bh, Bh>, prev: map<Bh, Bh>, k: nat, b: Bh,
                   next': map<Bh, Bh>, prev': map<Bh, Bh>)
    requires Linked(order, next, prev) && b !in order && 0 < k <= |order|
    requires var a, z := order[k - 1], order[After(k - 1, |order|)];
             next' == next[b := z][a := b] && prev' == prev[b := a][z := b]
    ensures Linked(InsertedAt(order, k, b), next', prev')
  {
    var n, r := |order|, InsertedAt(order, k, b);
    assert NoDup(r);
    hide NoDup;
    forall i | 0 <= i < |r| ensures Joined(r, next', prev', i) {
      var j := if i < k then i else i - 1;
      assert Joined(order, next, prev, j);
      assert r[i] == if i < k then order[i] else if i == k then b else order[i - 1];
      Different(order, j, k - 1);
      Different(order, After(j, n), After(k - 1, n));
    }
  }

  /** Moving the head on makes the old head the last. */
  lemma Rotated(order: seq<Bh>, next: map<Bh, Bh>, prev: map<Bh, Bh>)
    requires Linked(order, next, prev) && order != []
    ensures Linked(order[1..] + [order[0]], next, prev) && order[1..] + [order[0]] == ToTail(order, order[0])
  {
    var n, r := |order|, order[1..] + [order[0]];
    WithoutOne(order, order[0], 0);
    assert NoDup(r);
    forall i | 0 <= i < n ensures Joined(r, next, prev, i) {
      assert Joined(order, next, prev, After(i, n));
      assert r[i] == order[After(i, n)];
      assert r[After(i, n)] == order[After(After(i, n), n)];
    }
  }

  class Ring {
    var next: map<Bh, Bh>
    var prev: map<Bh, Bh>
    var head: Option<Bh>
    ghost var order: seq<Bh>

    ghost predicate Valid()
      reads this
    {
      Linked(order, next, prev) && head == HeadOf(order)
    }

    /** `remove_from_lru_list`, and `remove_from_free_list`, which tells a ring of one apart beforehand
        (fs/buffer.c:328-361).  The links of `b` become NULL. */
    method Remove(b: Bh)
      requires Valid() && b in order
      modifies this
      ensures Valid() && order == Without(old(order), b) && b !in next && b !in prev
      ensures Apart(old(order), old(next), next) && Apart(old(order), old(prev), prev)
    {
      ghost var k :| 0 <= k < |order| && order[k] == b;
      ghost var n := |order|;
      assert Joined(order, next, prev, k) && Joined(order, next, prev, if k > 0 then k - 1 else n - 1);
      ghost var next0, prev0 := next, prev;
      var p, q := prev[b], next[b];
      next := next[p := q];
      prev := prev[q := p];
      if head == Some(b) { head := Some(next[b]); }
      if head == Some(b) { head := None; }
      next, prev := next - {b}, prev - {b};
      Unlinked(order, next0, prev0, k, next, prev);
      HeadWithout(order, k);
      order := Without(order, b);
    }

    /** The ring part of `insert_into_queues`, of `put_last_free` and of `put_last_lru`
        (fs/buffer.c:390-397, 408-417, 427-436). */
    method Append(b: Bh)
      requires Valid() && b !in order && b !in next
      modifies this
      ensures Valid() && order == old(order) + [b]
      ensures Apart(order, old(next), next) && Apart(order, old(prev), prev)
    {
      ghost var n := |order|;
      ghost var next0, prev0 := next, prev;
      if head.None? {
        head := Some(b);
        prev := prev[b := b];
      }
      var h := head.value;
      if n > 0 { assert Joined(order, next, prev, n - 1); }
      next := next[b := h];
      prev := prev[b := prev[h]];
      next := next[prev[h] := b];
      prev := prev[h := b];
      if n > 0 {
        InsertedOk(order, next0, prev0, n, b, next, prev);
        assert InsertedAt(order, n, b) == order + [b];
      } else {
        assert Joined([b], next, prev, 0);
      }
      order := order + [b];
    }

    /** `put_last_lru` (fs/buffer.c:376-398). */
    method PutLast(b: Bh)
      requires Valid() && b in order
      modifies this
      ensures Valid() && order == ToTail(old(order), b)
      ensures Apart(order, old(next), next) && Apart(order, old(prev), prev)
    {
      if head == Some(b) {
        Rotated(order, next, prev);
        assert Joined(order, next, prev, 0);
        head := Some(next[b]);
        order := order[1..] + [order[0]];
        return;
      }
      Remove(b);
      Append(b);
    }

    /** One buffer behind `point`, which is number `k - 1` (fs/buffer.c:1394-1402). */
    method LinkAfter(point: Option<Bh>, tmp: Bh, ghost k: nat)
      requires Linked(order, next, prev) && tmp !in order
      requires if point.None? then order == [] && k == 0 else 0 < k <= |order| && order[k - 1] == point.value
      modifies this`next, this`prev, this`order
      ensures Linked(order, next, prev) && order == InsertedAt(old(order), k, tmp)
      ensures Apart(order, old(next), next) && Apart(order, old(prev), prev)
    {
      ghost var next0, prev0 := next, prev;
      if point.Some? {
        var a := point.value;
        assert Joined(order, next, prev, k - 1);
        var z := next[a];
        next := next[tmp := z];
        prev := prev[tmp := a];
        prev := prev[z := tmp];
        next := next[a := tmp];
        InsertedOk(order, next0, prev0, k, tmp, next, prev);
      } else {
        next, prev := next[tmp := tmp], prev[tmp := tmp];
        assert Joined([tmp], next, prev, 0);
        assert InsertedAt(order, 0, tmp) == [tmp];
      }
      order := InsertedAt(order, k, tmp);
    }

    /** The loop of `grow_buffers` (fs/buffer.c:1390-1411): the buffers of a new page go in behind the head,
        and the first of them becomes the head. */
    method Splice(page: seq<Bh>)
      requires Valid() && page != [] && NoDup(page + order)
      modifies this
      ensures Valid()
      ensures order == if old(order) == [] then page else page + old(order)[1..] + [old(order)[0]]
      ensures Apart(order, old(next), next) && Apart(order, old(prev), prev)
    {
      hide Linked, NoDup, Spliced, InsertedAt, Apart;
      ghost var was := order;
      ApartSelf(order, next);
      ApartSelf(order, prev);
      SplicedEnds(page, was);
      var point := head;
      var i := 0;
      while i < |page|
        invariant i <= |page| && Linked(order, next, prev) && order == Spliced(page, was, i)
        invariant point == if i == 0 then HeadOf(was) else Some(page[i - 1])
        invariant Apart(order, old(next), next) && Apart(order, old(prev), prev)
      {
        SplicedStep(page, was, i);
        ghost var next0, prev0, order0 := next, prev, order;
        LinkAfter(point, page[i], if was == [] then i else i + 1);
        InsertedAll(order0, if was == [] then i else i + 1, page[i]);
        ApartMore(order0, order, old(next), next0, next);
        ApartMore(order0, order, old(prev), prev0, prev);
        point := Some(page[i]);
        i := i + 1;
      }
      if was != [] {
        Rotated(order, next, prev);
        ApartRotated(order, old(next), next);
        ApartRotated(order, old(prev), prev);
        order := order[1..] + [order[0]];
      }
      head := Some(page[0]);
    }
  }

  /** The ring when `i` buffers of the page are in, seen from its old head. */
  function Spliced(page: seq<Bh>, was: seq<Bh>, i: nat): seq<Bh>
    requires i <= |page|
  {
    if was == [] then page[..i] else [was[0]] + page[..i] + was[1..]
  }

  lemma NotYet(page: seq<Bh>, was: seq<Bh>, i: nat)
    requires NoDup(page + was) && i < |page|
    ensures page[i] !in page[..i] && page[i] !in was
  {
    assert page[i] == (page + was)[i];
    forall j | 0 <= j < |was| ensures was[j] != page[i] { assert was[j] == (page + was)[|page| + j]; }
    forall j | 0 <= j < i ensures page[j] != page[i] { assert page[j] == (page + was)[j]; }
  }

  lemma SplicedStep(page: seq<Bh>, was: seq<Bh>, i: nat)
    requires NoDup(page + was) && i < |page|
    ensures page[i] !in Spliced(page, was, i)
    ensures var k, r := if was == [] then i else i + 1, Spliced(page, was, i);
            && k <= |r| && InsertedAt(r, k, page[i]) == Spliced(page, was, i + 1)
            && if was == [] && i == 0 then r == [] else k > 0 && r[k - 1] == if i == 0 then was[0] else page[i - 1]
  {
    hide NoDup, Spliced, InsertedAt;
    NotYet(page, was, i);
    if was == [] { SplicedAlone(page, i); } else { SplicedBehind(page, was, i); }
  }

  lemma SplicedAlone(page: seq<Bh>, i: nat)
    requires i < |page|
    ensures Spliced(page, [], i) == page[..i] && InsertedAt(page[..i], i, page[i]) == Spliced(page, [], i + 1)
  {
    assert page[..i][..i] == page[..i] && page[..i][i..] == [];
  }

  lemma SplicedBehind(page: seq<Bh>, was: seq<Bh>, i: nat)
    requires i < |page| && was != []
    ensures var r := Spliced(page, was, i);
            && |r| == i + |was| && r[i] == (if i == 0 then was[0] else page[i - 1])
            && (forall x :: x in r <==> x in page[..i] || x in was)
            && InsertedAt(r, i + 1, page[i]) == Spliced(page, was, i + 1)
  {
    var r := Spliced(page, was, i);
    assert was == [was[0]] + was[1..];
    assert r[..i + 1] == [was[0]] + page[..i] && r[i + 1..] == was[1..];
    assert page[..i + 1] == page[..i] + [page[i]];
  }

  lemma SplicedEnds(page: seq<Bh>, was: seq<Bh>)
    requires page != []
    ensures Spliced(page, was, 0) == was
    ensures var r := Spliced(page, was, |page|);
            r != [] && if was == [] then r == page else r[1..] + [r[0]] == page + was[1..] + [was[0]]
  {
  }

  lemma HeadWithout(order: seq<Bh>, k: nat)
    requires NoDup(order) && k < |order|
    ensures HeadOf(Without(order, order[k])) ==
            if k > 0 then Some(order[0]) else if |order| == 1 then None else Some(order[1])
  {
    WithoutOne(order, order[k], k);
  }
}
