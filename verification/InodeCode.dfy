/** The stretches of code between two sleeps in fs/inode.c, over hash chains and the ring of all inodes, proved
    to be the steps of `InodeCache`. */
module InodeCode {
  import opened Base
  import opened Lists
  import opened InodeCache

  const NR_IHASH: nat := 512

  function Bucket(k: Key): (h: nat)
    ensures h < NR_IHASH
  {
    ((k.dev ^ k.ino) as nat) % NR_IHASH
  }

  /** Chain `h` holds the hashed inodes that belong there. */
  ghost predicate ChainOk(inodes: seq<Inode>, chain: seq<Ptr>, h: nat) {
    && NoDup(chain)
    && forall p: nat :: p in chain <==> p < |inodes| && inodes[p].hashed && Bucket(inodes[p].key) == h
  }

  /** The ring holds every inode once. */
  ghost predicate RingOk(ring: seq<Ptr>, n: nat) {
    NoDup(ring) && (forall p: nat :: p in ring <==> p < n) && forall i :: 0 <= i < |ring| ==> ring[i] < n
  }

  lemma Reordered(ring: seq<Ptr>, n: nat, p: Ptr)
    requires RingOk(ring, n) && p < n
    ensures RingOk(Without(ring, p) + [p], n) && RingOk([p] + Without(ring, p), n)
  {
    var r := Without(ring, p);
    WithoutNoDup(ring, p);
    forall i | 0 <= i < |r| ensures r[i] < n { assert r[i] in r; }
  }

  /** What `__iget` does from `repeat` to its next sleep. */
  datatype Found =
    | Asleep        // on the inode in teardown
    | Got(p: Ptr)   // waits for the inode to be unlocked
    | NeedEmpty     // goes on in get_empty_inode
    | Filled(p: Ptr) // reads the inode in

  class Icache {
    var inodes: seq<Inode>
    var chains: seq<seq<Ptr>>
    var ring: seq<Ptr>
    var nrFree: int

    ghost predicate Valid()
      reads this
    {
      && |chains| == NR_IHASH && (forall h :: 0 <= h < NR_IHASH ==> ChainOk(inodes, chains[h], h))
      && RingOk(ring, |inodes|)
    }

    /** The fields are those of a state of the protocol. */
    ghost predicate Is(s: State)
      reads this
    {
      inodes == s.inodes && nrFree == s.nrFree
    }

    /** fs/inode.c:78-102 */
    method InsertHash(p: Ptr, key: Key)
      requires Valid() && p < |inodes| && !inodes[p].hashed
      modifies this`inodes, this`chains
      ensures Valid() && inodes == old(inodes)[p := old(inodes[p]).(key := key, hashed := true)]
    {
      var h := Bucket(key);
      ghost var was := inodes;
      inodes := inodes[p := inodes[p].(key := key, hashed := true)];
      hide Bucket;
      assert ChainOk(was, chains[h], h);
      chains := chains[h := [p] + chains[h]];
      forall g | 0 <= g < NR_IHASH ensures ChainOk(inodes, chains[g], g) { assert ChainOk(was, old(chains)[g], g); }
    }

    /** fs/inode.c:90-102; an inode on no chain is left alone. */
    method RemoveHash(p: Ptr)
      requires Valid() && p < |inodes|
      modifies this`inodes, this`chains
      ensures Valid() && inodes == old(inodes)[p := old(inodes[p]).(hashed := false)]
    {
      hide Bucket;
      var h := Bucket(inodes[p].key);
      ghost var was := inodes;
      assert ChainOk(was, chains[h], h);
      WithoutNoDup(chains[h], p);
      chains := chains[h := Without(chains[h], p)];
      inodes := inodes[p := inodes[p].(hashed := false)];
      forall g | 0 <= g < NR_IHASH ensures ChainOk(inodes, chains[g], g) { assert ChainOk(was, old(chains)[g], g); }
    }

    /** `insert_inode_hash` on an inode that `get_empty_inode` gave (fs/ext2/ialloc.c:485). */
    method NameFresh(p: Ptr, key: Key, ghost s: State, ghost t: nat, ghost i: nat)
      requires Valid() && Is(s) && Inv(s) && CanName(s, t, i) && s.tasks[t].mine[i].p == p
      modifies this
      ensures Valid() && Is(Named(s, t, i, key))
    {
      Nameless(s, t, i);
      InsertHash(p, key);
    }

    /** `put_last_free` (fs/inode.c:104-111): last in line to be reused. */
    method PutLastFree(p: Ptr)
      requires Valid() && p < |inodes|
      modifies this`ring
      ensures Valid() && ring == ToTail(old(ring), p)
    {
      Reordered(ring, |inodes|, p);
      ring := Without(ring, p) + [p];
    }

    /** `__iget` from `repeat` (fs/inode.c:611-656). */
    method Repeat(key: Key, empty: Option<Ptr>, ghost s: State, ghost t: nat) returns (r: Found)
      requires Valid() && Is(s) && Inv(s)
      requires t < |s.tasks| && s.tasks[t].Looking? && s.tasks[t].key == key && s.tasks[t].empty == empty
      modifies this
      ensures Valid()
      ensures r.Asleep? ==> Is(s) && exists p :: 0 <= p < |inodes| && Matches(inodes[p], key) && inodes[p].condemned
      ensures r.Got? ==> Enabled(s, Hit(t, r.p)) && Is(Do(s, Hit(t, r.p)))
      ensures r.NeedEmpty? ==> empty.None? && Enabled(s, Miss(t)) && Is(Do(s, Miss(t)))
      ensures r.Filled? ==> empty == Some(r.p) && Enabled(s, Miss(t)) && Is(Do(s, Miss(t)))
    {
      OkTask1(s, t);
      var found := Walk(key);
      if found.Some? {
        var p := found.value;
        var x := inodes[p];
        if x.condemned { return Asleep; }
        if x.count == 0 { nrFree := nrFree - 1; }
        Recount(p, x.count + 1);
        return Got(p);
      }
      if empty.None? { return NeedEmpty; }
      PutLastFree(empty.value);
      InsertHash(empty.value, key);
      return Filled(empty.value);
    }

    /** The walk along the hash chain (fs/inode.c:611-615). */
    method Walk(key: Key) returns (found: Option<Ptr>)
      requires Valid()
      ensures if found.Some? then found.value < |inodes| && Matches(inodes[found.value], key) else Unnamed(inodes, key)
    {
      hide Bucket;
      var chain := chains[Bucket(key)];
      assert ChainOk(inodes, chain, Bucket(key));
      forall j | 0 <= j < |chain| ensures chain[j] < |inodes| { assert chain[j] in chain; }
      var i := 0;
      while i < |chain| && !(inodes[chain[i]].key == key)
        invariant i <= |chain| && forall j :: 0 <= j < i ==> inodes[chain[j]].key != key
      {
        i := i + 1;
      }
      if i < |chain| {
        assert chain[i] in chain;
        return Some(chain[i]);
      }
      forall p | 0 <= p < |inodes| ensures !Matches(inodes[p], key) {
        assert Matches(inodes[p], key) ==> p in chain;
      }
      return None;
    }

    method Recount(p: Ptr, n: nat)
      requires Valid() && p < |inodes|
      modifies this`inodes
      ensures Valid() && inodes == old(inodes)[p := old(inodes[p]).(count := n)]
    {
      hide Bucket;
      ghost var was := inodes;
      inodes := inodes[p := inodes[p].(count := n)];
      forall g | 0 <= g < NR_IHASH ensures ChainOk(inodes, chains[g], g) { assert ChainOk(was, chains[g], g); }
    }

    /** The end of `clear_inode` and of `get_empty_inode` (fs/inode.c:201-214, 558-571): the inode leaves its
        chain, goes to the head of the ring and belongs to the caller. */
    method Cleared(best: Ptr, ghost s: State, ghost t: nat)
      requires Valid() && Is(s) && Inv(s) && Enabled(s, Clear(t)) && s.tasks[t].best == best
      modifies this
      ensures Valid() && Is(Do(s, Clear(t))) && ring == [best] + Without(old(ring), best)
    {
      RemoveHash(best);
      Reordered(ring, |inodes|, best);
      ring := Without(ring, best);
      nrFree := nrFree + (if inodes[best].count - 1 != 0 then 1 else 0);
      Blank(best, 0);
      ring := [best] + ring;
      Blank(best, 1);
      nrFree := nrFree - 1;
      nrFree := if nrFree < 0 then 0 else nrFree;
    }

    /** memset on an inode that is on no chain */
    method Blank(p: Ptr, n: nat)
      requires |chains| == NR_IHASH && (forall h :: 0 <= h < NR_IHASH ==> ChainOk(inodes, chains[h], h))
      requires p < |inodes| && !inodes[p].hashed
      modifies this`inodes
      ensures forall h :: 0 <= h < NR_IHASH ==> ChainOk(inodes, chains[h], h)
      ensures inodes == old(inodes)[p := BLANK.(count := n)]
    {
      hide Bucket;
      ghost var was := inodes;
      inodes := inodes[p := BLANK.(count := n)];
      forall g | 0 <= g < NR_IHASH ensures ChainOk(inodes, chains[g], g) { assert ChainOk(was, chains[g], g); }
    }

    /** The scan of `get_empty_inode` (fs/inode.c:520-540) over half the ring.  `busy`: locked or dirty. */
    method Scan(busy: Ptr -> bool, pages: Ptr -> nat) returns (best: Option<Ptr>, good: bool)
      requires Valid()
      ensures best.Some? ==> best.value < |inodes| && inodes[best.value].count == 0
      ensures best.Some? ==> exists j :: 0 <= j < |inodes| / 2 && j < |ring| && ring[j] == best.value
      ensures good ==> best.Some? && !busy(best.value) && pages(best.value) == 0
      ensures !good ==> forall j :: 0 <= j < |inodes| / 2 && j < |ring| && inodes[ring[j]].count == 0 ==>
                Badness(busy, pages, ring[j]) >= if best.Some? then Badness(busy, pages, best.value) else 1000
    {
      best, good := None, false;
      var badness, i := 1000, 0;
      while i < |inodes| / 2 && i < |ring|
        invariant 0 <= i <= |ring|
        invariant best.Some? ==> best.value < |inodes| && inodes[best.value].count == 0
        invariant best.Some? ==> exists j :: 0 <= j < i && j < |inodes| / 2 && j < |ring| && ring[j] == best.value
        invariant badness == if best.Some? then Badness(busy, pages, best.value) else 1000
        invariant forall j :: 0 <= j < i && inodes[ring[j]].count == 0 ==> Badness(busy, pages, ring[j]) >= badness
      {
        var p := ring[i];
        if inodes[p].count == 0 {
          var b := if busy(p) then 999 else pages(p);
          if b < badness {
            best := Some(p);
            if b == 0 { return best, true; }
            badness := b;
          }
        }
        i := i + 1;
      }
    }

    /** `iput` from its `repeat` with nothing left to write or drop (fs/inode.c:459-509). */
    method PutRepeat(p: Ptr, ghost s: State, ghost t: nat)
      requires Valid() && Is(s) && Inv(s) && t < |s.tasks| && s.tasks[t].Putting? && s.tasks[t].gone == p
      modifies this
      ensures Valid()
      ensures var step := Put(t, s.inodes[p].count == 1); Enabled(s, step) && Is(Do(s, step))
    {
      OkTask1(s, t);
      AllRefsPut(s.tasks, t, s.tasks[t], p);
      var x := inodes[p];
      if x.count > 1 {
        Recount(p, x.count - 1);
        return;
      }
      Recount(p, x.count - 1);
      if inodes[p].count != 0 { return; }
      nrFree := nrFree + 1;
    }
  }

  function Badness(busy: Ptr -> bool, pages: Ptr -> nat, p: Ptr): nat { if busy(p) then 999 else pages(p) }
}
