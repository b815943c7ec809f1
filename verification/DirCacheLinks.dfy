/** The pointers behind the model of the name cache (fs/dcache.c:77-104, 144-162): the LRU rings as
    doubly linked circular lists with a moving head, and the walk along a hash queue. */
module DirCacheLinks {
  import opened Base
  import opened DirCache
  import opened Lists

  /** Every entry and every link names one of the `n` entries. */
  predicate InRange(s: seq<nat>, n: nat) {
    |s| == n && forall i :: 0 <= i < n ==> s[i] < n
  }

  /** Entry number `i` of the ring and its successor point to each other. */
  predicate Joined(order: seq<nat>, next: seq<nat>, prev: seq<nat>, i: nat)
    requires i < |order| && InRange(order, |order|) && |next| == |prev| == |order|
  {
    var a, b := order[i], order[After(i, |order|)];
    next[a] == b && prev[b] == a
  }

  /** `order` is the ring from its head, with the links of the entries in `next` and `prev`. */
  ghost predicate Linked(order: seq<nat>, next: seq<nat>, prev: seq<nat>) {
    var n := |order|;
    && n > 0 && NoDup(order) && InRange(order, n) && InRange(next, n) && InRange(prev, n)
    && forall i :: 0 <= i < n ==> Joined(order, next, prev, i)
  }

  /** `order` with the entry at position `k` moved to the end. */
  function Moved(order: seq<nat>, k: nat): (r: seq<nat>)
    requires k < |order|
    ensures |r| == |order|
  {
    order[..k] + order[k + 1..] + [order[k]]
  }

  lemma MovedAt(order: seq<nat>, k: nat, i: nat)
    requires k < |order| && i < |order|
    ensures Moved(order, k)[i] == if i < k then order[i] else if i == |order| - 1 then order[k] else order[i + 1]
  {
  }

  lemma MovedOk(order: seq<nat>, k: nat)
    requires k < |order| && NoDup(order) && InRange(order, |order|)
    ensures NoDup(Moved(order, k)) && InRange(Moved(order, k), |order|)
  {
    var m := Moved(order, k);
    forall i, j | 0 <= i < j < |m| ensures m[i] != m[j] {
      MovedAt(order, k, i);
      MovedAt(order, k, j);
    }
    forall i | 0 <= i < |m| ensures m[i] < |m| { MovedAt(order, k, i); }
  }

  /** Moving the head forward makes the old head the tail. */
  lemma AdvanceHead(order: seq<nat>, next: seq<nat>, prev: seq<nat>)
    requires Linked(order, next, prev)
    ensures Linked(Moved(order, 0), next, prev)
    ensures Moved(order, 0)[0] == next[order[0]]
  {
    var n, m := |order|, Moved(order, 0);
    MovedOk(order, 0);
    assert Joined(order, next, prev, 0);
    MovedAt(order, 0, 0);
    hide NoDup, InRange, Moved;
    forall i | 0 <= i < n ensures Joined(m, next, prev, i) {
      MovedAt(order, 0, i);
      MovedAt(order, 0, After(i, n));
      assert Joined(order, next, prev, After(i, n));
    }
  }

  /** Unlinking the entry at position `k`, which is not the last, and linking it in before the head. */
  lemma Relink(order: seq<nat>, next: seq<nat>, prev: seq<nat>, k: nat, next': seq<nat>, prev': seq<nat>)
    requires Linked(order, next, prev) && 0 < k < |order| - 1
    requires next' == next[order[k - 1] := order[k + 1]][order[k] := order[0]][order[|order| - 1] := order[k]]
    requires prev' == prev[order[k + 1] := order[k - 1]][order[k] := order[|order| - 1]][order[0] := order[k]]
    ensures Linked(Moved(order, k), next', prev')
  {
    var n, m := |order|, Moved(order, k);
    MovedOk(order, k);
    hide Moved;
    forall i | 0 <= i < n ensures Joined(m, next', prev', i) {
      MovedAt(order, k, i);
      MovedAt(order, k, After(i, n));
      assert Joined(order, next, prev, i) && Joined(order, next, prev, After(i, n));
    }
  }

  class Ring {
    var next: seq<nat>
    var prev: seq<nat>
    var head: nat
    ghost var order: seq<nat>

    ghost predicate Valid()
      reads this
    {
      Linked(order, next, prev) && head == order[0] && RingOk(order)
    }

    /** `name_cache_init`: entry i is followed by entry i + 1, the last by the first. */
    constructor ()
      ensures Valid() && order == Empty().lru1
    {
      next := seq(DCACHE_SIZE, i => if i + 1 < DCACHE_SIZE then i + 1 else 0);
      prev := seq(DCACHE_SIZE, i => if i > 0 then i - 1 else DCACHE_SIZE - 1);
      head := 0;
      order := Empty().lru1;
      EmptyInv();
    }

    /** `update_lru` */
    method UpdateLru(de: nat)
      requires Valid() && de < DCACHE_SIZE
      modifies this
      ensures Valid() && order == ToTail(old(order), de)
    {
      TailRing(order, de);
      ghost var k :| 0 <= k < |order| && order[k] == de;
      WithoutOne(order, de, k);
      assert ToTail(order, de) == Moved(order, k);
      hide Moved, ToTail, Without, RingOk;
      if de == head {
        AdvanceHead(order, next, prev);
        head := next[de];
      } else {
        Unlink(de, k);
      }
      order := ToTail(order, de);
    }

    /** `remove_lru` and `add_lru` on an entry that is not the head */
    method Unlink(de: nat, ghost k: nat)
      requires Linked(order, next, prev) && head == order[0] && 0 < k < |order| && de == order[k]
      modifies this`next, this`prev
      ensures Linked(Moved(order, k), next, prev) && Moved(order, k)[0] == head
    {
      ghost var n0, p0, n := next, prev, |order|;
      assert Joined(order, next, prev, k) && Joined(order, next, prev, k - 1) && Joined(order, next, prev, n - 1);
      // remove_lru
      var nxt, prv := next[de], prev[de];
      prev := prev[nxt := prv];
      next := next[prv := nxt];
      // add_lru
      prv := prev[head];
      next := next[de := head];
      prev := prev[de := prv];
      next := next[prv := de];
      prev := prev[head := de];
      MovedAt(order, k, 0);
      if k < n - 1 {
        Relink(order, n0, p0, k, next, prev);
      } else {
        // the entry was the last already, and its links come out as they were
        assert next == n0 && prev == p0;
        assert Moved(order, k) == order;
      }
    }
  }

  /** `find_entry`: the walk along the queue stops at the first match. */
  method FindEntry(chain: seq<Slot>, data: map<Slot, Entry>, k: Key) returns (r: Option<Slot>)
    ensures r == Find(chain, data, k)
  {
    var i := 0;
    while i < |chain|
      invariant 0 <= i <= |chain| && Find(chain, data, k) == Find(chain[i..], data, k)
    {
      var de := chain[i];
      if de in data && data[de].key.dev == k.dev && data[de].key.dir == k.dir &&
         data[de].key.version == k.version && |data[de].key.name| == |k.name| && data[de].key.name == k.name {
        return Some(de);
      }
      assert chain[i..][1..] == chain[i + 1..];
      i := i + 1;
    }
    r := None;
  }
}
