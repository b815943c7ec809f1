/** The queues of the buffer cache (fs/buffer.c:314-475): hash chains, LRU rings and free rings over the same
    buffer heads, with their counters. */
module BufferCache {
  import opened Lists

  const NR_LIST: nat := 4
  const NR_SIZES: nat := 5
  const NR_HASH: nat := 4096

  const BUF_CLEAN: nat := 0
  const BUF_LOCKED: nat := 1
  const BUF_LOCKED1: nat := 2
  const BUF_DIRTY: nat := 3

  const NODEV: bv32 := 0
  const B_FREE: bv32 := 0xffff

  type Bh = nat

  datatype Key = Key(dev: bv32, block: bv32)

  datatype Buf = Buf(key: Key, size: nat, list: nat, count: nat, locked: bool, dirty: bool, prot: bool)

  /** The rings are listed from their heads, `lru_list[l]` and `free_list[i]`. */
  datatype Cache = Cache(bufs: map<Bh, Buf>, lru: seq<seq<Bh>>, free: seq<seq<Bh>>, chains: seq<seq<Bh>>,
                         nrType: seq<int>, nr: int)

  predicate ValidSize(size: nat) { size in {512, 1024, 2048, 4096, 8192} }

  /** `BUFSIZE_INDEX` */
  function SizeIndex(size: nat): (i: nat)
    ensures i < NR_SIZES && (ValidSize(size) ==> size == [512, 1024, 2048, 4096, 8192][i])
  {
    if size == 512 then 0 else if size == 1024 then 1 else if size == 2048 then 2 else if size == 4096 then 3 else 4
  }

  function Bucket(k: Key): (h: nat)
    ensures h < NR_HASH
  {
    ((k.dev ^ k.block) & 0xfff) as nat
  }

  predicate IsFree(x: Buf) { x.key.dev == B_FREE }

  /** The buffer belongs to a block of a device. */
  predicate Named(x: Buf) { x.key.dev != B_FREE && x.key.dev != NODEV }

  /** Unreferenced, unlocked, clean and unprotected. */
  predicate Unused(x: Buf) { x.count == 0 && !x.locked && !x.dirty && !x.prot }

  // ---------- well-formed caches ----------

  predicate Shape(c: Cache) {
    |c.lru| == |c.nrType| == NR_LIST && |c.free| == NR_SIZES && |c.chains| == NR_HASH
  }

  predicate OkBuf(x: Buf) { ValidSize(x.size) && x.list < NR_LIST && (IsFree(x) ==> Unused(x)) }

  ghost predicate LruOk(c: Cache, off: set<Bh>, l: nat)
    requires l < |c.lru|
  {
    && NoDup(c.lru[l])
    && forall b :: b in c.lru[l] <==> b in c.bufs && b !in off && !IsFree(c.bufs[b]) && c.bufs[b].list == l
  }

  ghost predicate FreeOk(c: Cache, off: set<Bh>, i: nat)
    requires i < |c.free|
  {
    && NoDup(c.free[i])
    && forall b :: b in c.free[i] <==> b in c.bufs && b !in off && IsFree(c.bufs[b]) && SizeIndex(c.bufs[b].size) == i
  }

  ghost predicate ChainOk(c: Cache, off: set<Bh>, h: nat)
    requires h < |c.chains|
  {
    && NoDup(c.chains[h])
    && forall b :: b in c.chains[h] <==> b in c.bufs && b !in off && Named(c.bufs[b]) && Bucket(c.bufs[b].key) == h
  }

  predicate Twins(x: Buf, y: Buf) { Named(x) && x.key == y.key }

  /** One buffer at most for each block of a device. */
  ghost predicate Unique(c: Cache, off: set<Bh>) {
    forall a, b :: a in c.bufs && b in c.bufs && a !in off && b !in off && Twins(c.bufs[a], c.bufs[b]) ==> a == b
  }

  /** The cache is well formed, the buffers in `off` being on no queue. */
  ghost predicate Ok(c: Cache, off: set<Bh>) {
    && Shape(c) && off <= c.bufs.Keys
    && (forall b :: b in c.bufs ==> OkBuf(c.bufs[b]))
    && (forall l :: 0 <= l < NR_LIST ==> LruOk(c, off, l) && c.nrType[l] == |c.lru[l]|)
    && (forall i :: 0 <= i < NR_SIZES ==> FreeOk(c, off, i))
    && (forall h :: 0 <= h < NR_HASH ==> ChainOk(c, off, h))
    && Unique(c, off)
    && c.nr == |c.bufs|
  }

  // ---------- the operations ----------

  /** fs/buffer.c:317-326 */
  function RemoveFromHash(c: Cache, b: Bh): Cache
    requires Shape(c) && b in c.bufs
  {
    var h := Bucket(c.bufs[b].key);
    c.(chains := c.chains[h := Without(c.chains[h], b)])
  }

  /** fs/buffer.c:328-342; the preconditions are what it panics without. */
  function RemoveFromLru(c: Cache, b: Bh): Cache
    requires Shape(c) && b in c.bufs && c.bufs[b].list < NR_LIST
    requires !IsFree(c.bufs[b]) && b in c.lru[c.bufs[b].list]
  {
    var l := c.bufs[b].list;
    c.(lru := c.lru[l := Without(c.lru[l], b)])
  }

  /** fs/buffer.c:344-361; the preconditions are what it panics without. */
  function RemoveFromFree(c: Cache, b: Bh): Cache
    requires Shape(c) && b in c.bufs && ValidSize(c.bufs[b].size)
    requires IsFree(c.bufs[b]) && b in c.free[SizeIndex(c.bufs[b].size)]
  {
    var i := SizeIndex(c.bufs[b].size);
    c.(free := c.free[i := Without(c.free[i], b)])
  }

  ghost predicate OnItsRing(c: Cache, b: Bh)
    requires Shape(c) && b in c.bufs && OkBuf(c.bufs[b])
  {
    if IsFree(c.bufs[b]) then b in c.free[SizeIndex(c.bufs[b].size)] else b in c.lru[c.bufs[b].list]
  }

  /** fs/buffer.c:364-374 */
  function RemoveFromQueues(c: Cache, b: Bh): Cache
    requires Shape(c) && b in c.bufs && OkBuf(c.bufs[b]) && OnItsRing(c, b)
  {
    if IsFree(c.bufs[b]) then RemoveFromFree(c, b)
    else
      var l := c.bufs[b].list;
      RemoveFromLru(RemoveFromHash(c.(nrType := c.nrType[l := c.nrType[l] - 1]), b), b)
  }

  /** fs/buffer.c:400-418 */
  function PutLastFree(c: Cache, b: Bh): Cache
    requires Shape(c) && b in c.bufs && ValidSize(c.bufs[b].size)
  {
    var x := c.bufs[b];
    var i := SizeIndex(x.size);
    c.(bufs := c.bufs[b := x.(key := x.key.(dev := B_FREE))], free := c.free[i := c.free[i] + [b]])
  }

  /** fs/buffer.c:420-447 */
  function InsertIntoQueues(c: Cache, b: Bh): Cache
    requires Shape(c) && b in c.bufs && OkBuf(c.bufs[b])
  {
    var x := c.bufs[b];
    if IsFree(x) then PutLastFree(c, b)
    else
      var c1 := c.(lru := c.lru[x.list := c.lru[x.list] + [b]], nrType := c.nrType[x.list := c.nrType[x.list] + 1]);
      if x.key.dev == NODEV then c1
      else
        var h := Bucket(x.key);
        c1.(chains := c.chains[h := [b] + c.chains[h]])
  }

  /** fs/buffer.c:376-398: to the end of the ring, also when it is the head that moves. */
  function PutLastLru(c: Cache, b: Bh): Cache
    requires Shape(c) && b in c.bufs && c.bufs[b].list < NR_LIST
    requires !IsFree(c.bufs[b]) && b in c.lru[c.bufs[b].list]
  {
    var l := c.bufs[b].list;
    c.(lru := c.lru[l := ToTail(c.lru[l], b)])
  }

  function SetBuf(c: Cache, b: Bh, x: Buf): Cache { c.(bufs := c.bufs[b := x]) }

  // ---------- they keep the cache well formed ----------

  lemma OnRing(c: Cache, off: set<Bh>, b: Bh)
    requires Ok(c, off) && b in c.bufs && b !in off
    ensures Shape(c) && OkBuf(c.bufs[b]) && OnItsRing(c, b)
  {
    var x := c.bufs[b];
    assert LruOk(c, off, x.list) && FreeOk(c, off, SizeIndex(x.size));
  }

  lemma RemoveLruOk(c: Cache, off: set<Bh>, b: Bh, l: nat)
    requires Shape(c) && b in c.bufs && b !in off && OkBuf(c.bufs[b]) && OnItsRing(c, b)
    requires l < NR_LIST && LruOk(c, off, l) && c.nrType[l] == |c.lru[l]|
    ensures var c' := RemoveFromQueues(c, b); LruOk(c', off + {b}, l) && c'.nrType[l] == |c'.lru[l]|
  {
    hide Bucket;
    WithoutNoDup(c.lru[l], b);
  }

  lemma RemoveFreeOk(c: Cache, off: set<Bh>, b: Bh, i: nat)
    requires Shape(c) && b in c.bufs && b !in off && OkBuf(c.bufs[b]) && OnItsRing(c, b)
    requires i < NR_SIZES && FreeOk(c, off, i)
    ensures FreeOk(RemoveFromQueues(c, b), off + {b}, i)
  {
    hide Bucket;
    WithoutNoDup(c.free[i], b);
  }

  lemma RemoveChainOk(c: Cache, off: set<Bh>, b: Bh, h: nat)
    requires Shape(c) && b in c.bufs && b !in off && OkBuf(c.bufs[b]) && OnItsRing(c, b)
    requires h < NR_HASH && ChainOk(c, off, h)
    ensures ChainOk(RemoveFromQueues(c, b), off + {b}, h)
  {
    hide Bucket;
    WithoutNoDup(c.chains[h], b);
  }

  lemma RemoveOk(c: Cache, off: set<Bh>, b: Bh)
    requires Ok(c, off) && b in c.bufs && b !in off
    ensures OnItsRing(c, b) && Ok(RemoveFromQueues(c, b), off + {b}) && RemoveFromQueues(c, b).bufs == c.bufs
  {
    hide LruOk, FreeOk, ChainOk, Bucket;
    OnRing(c, off, b);
    var c' := RemoveFromQueues(c, b);
    forall l | 0 <= l < NR_LIST ensures LruOk(c', off + {b}, l) && c'.nrType[l] == |c'.lru[l]| {
      RemoveLruOk(c, off, b, l);
    }
    forall i | 0 <= i < NR_SIZES ensures FreeOk(c', off + {b}, i) { RemoveFreeOk(c, off, b, i); }
    forall h | 0 <= h < NR_HASH ensures ChainOk(c', off + {b}, h) { RemoveChainOk(c, off, b, h); }
  }

  lemma InsertLruOk(c: Cache, off: set<Bh>, b: Bh, l: nat)
    requires Shape(c) && b in c.bufs && b in off && OkBuf(c.bufs[b])
    requires l < NR_LIST && LruOk(c, off, l) && c.nrType[l] == |c.lru[l]|
    ensures var c' := InsertIntoQueues(c, b); LruOk(c', off - {b}, l) && c'.nrType[l] == |c'.lru[l]|
  {
    hide Bucket;
  }

  lemma InsertFreeOk(c: Cache, off: set<Bh>, b: Bh, i: nat)
    requires Shape(c) && b in c.bufs && b in off && OkBuf(c.bufs[b])
    requires i < NR_SIZES && FreeOk(c, off, i)
    ensures FreeOk(InsertIntoQueues(c, b), off - {b}, i)
  {
    hide Bucket;
  }

  lemma InsertChainOk(c: Cache, off: set<Bh>, b: Bh, h: nat)
    requires Shape(c) && b in c.bufs && b in off && OkBuf(c.bufs[b])
    requires h < NR_HASH && ChainOk(c, off, h)
    ensures ChainOk(InsertIntoQueues(c, b), off - {b}, h)
  {
    hide Bucket;
  }

  lemma InsertOk(c: Cache, off: set<Bh>, b: Bh)
    requires Ok(c, off) && b in off
    requires forall a :: a in c.bufs && a !in off ==> !Twins(c.bufs[b], c.bufs[a])
    ensures Ok(InsertIntoQueues(c, b), off - {b}) && InsertIntoQueues(c, b).bufs == c.bufs
  {
    hide LruOk, FreeOk, ChainOk, Bucket;
    var c' := InsertIntoQueues(c, b);
    assert IsFree(c.bufs[b]) ==> c.bufs[b].(key := c.bufs[b].key.(dev := B_FREE)) == c.bufs[b];
    assert c'.bufs == c.bufs;
    forall l | 0 <= l < NR_LIST ensures LruOk(c', off - {b}, l) && c'.nrType[l] == |c'.lru[l]| {
      InsertLruOk(c, off, b, l);
    }
    forall i | 0 <= i < NR_SIZES ensures FreeOk(c', off - {b}, i) { InsertFreeOk(c, off, b, i); }
    forall h | 0 <= h < NR_HASH ensures ChainOk(c', off - {b}, h) { InsertChainOk(c, off, b, h); }
  }

  /** What a buffer on no queue says about itself does not matter to the queues. */
  lemma SetOk(c: Cache, off: set<Bh>, b: Bh, x: Buf)
    requires Ok(c, off) && b in off && OkBuf(x)
    ensures Ok(SetBuf(c, b, x), off)
  {
    hide Bucket;
    var c' := SetBuf(c, b, x);
    forall l | 0 <= l < NR_LIST ensures LruOk(c', off, l) { assert LruOk(c, off, l); }
    forall i | 0 <= i < NR_SIZES ensures FreeOk(c', off, i) { assert FreeOk(c, off, i); }
    forall h | 0 <= h < NR_HASH ensures ChainOk(c', off, h) { assert ChainOk(c, off, h); }
    assert c'.bufs.Keys == c.bufs.Keys;
    assert |c'.bufs| == |c'.bufs.Keys| == |c.bufs.Keys| == |c.bufs|;
  }

  predicate SameId(x: Buf, y: Buf) { x.key == y.key && x.size == y.size && x.list == y.list }

  lemma FlagsQueuesOk(c: Cache, off: set<Bh>, b: Bh, x: Buf, l: nat, i: nat, h: nat)
    requires Shape(c) && b in c.bufs && SameId(x, c.bufs[b]) && l < NR_LIST && i < NR_SIZES && h < NR_HASH
    ensures LruOk(c, off, l) == LruOk(SetBuf(c, b, x), off, l)
    ensures FreeOk(c, off, i) == FreeOk(SetBuf(c, b, x), off, i)
    ensures ChainOk(c, off, h) == ChainOk(SetBuf(c, b, x), off, h)
  {
    hide Bucket;
  }

  /** Nor do the use count and the flags of one on an LRU ring. */
  lemma FlagsOk(c: Cache, off: set<Bh>, b: Bh, x: Buf)
    requires Ok(c, off) && b in c.bufs && !IsFree(c.bufs[b]) && SameId(x, c.bufs[b])
    ensures Ok(SetBuf(c, b, x), off)
  {
    hide Bucket, LruOk, FreeOk, ChainOk;
    var c' := SetBuf(c, b, x);
    forall l | 0 <= l < NR_LIST ensures LruOk(c', off, l) { FlagsQueuesOk(c, off, b, x, l, 0, 0); }
    forall i | 0 <= i < NR_SIZES ensures FreeOk(c', off, i) { FlagsQueuesOk(c, off, b, x, 0, i, 0); }
    forall h | 0 <= h < NR_HASH ensures ChainOk(c', off, h) { FlagsQueuesOk(c, off, b, x, 0, 0, h); }
    assert c'.bufs.Keys == c.bufs.Keys;
    assert |c'.bufs| == |c'.bufs.Keys| == |c.bufs.Keys| == |c.bufs|;
  }

  lemma PutLastOk(c: Cache, off: set<Bh>, b: Bh)
    requires Ok(c, off) && b in c.bufs && b !in off && !IsFree(c.bufs[b])
    ensures OnItsRing(c, b) && Ok(PutLastLru(c, b), off)
  {
    hide Bucket;
    OnRing(c, off, b);
    var c', l := PutLastLru(c, b), c.bufs[b].list;
    assert LruOk(c, off, l);
    WithoutNoDup(c.lru[l], b);
    forall m | 0 <= m < NR_LIST ensures LruOk(c', off, m) && c'.nrType[m] == |c'.lru[m]| { assert LruOk(c, off, m); }
    forall i | 0 <= i < NR_SIZES ensures FreeOk(c', off, i) { assert FreeOk(c, off, i); }
    forall h | 0 <= h < NR_HASH ensures ChainOk(c', off, h) { assert ChainOk(c, off, h); }
  }

  // ---------- what they are used for ----------

  /** The ring that `refile_buffer` compares with the one the buffer is on (fs/buffer.c:842-848). */
  function Proper(x: Buf): (l: nat)
    ensures l < NR_LIST
  {
    if x.dirty then BUF_DIRTY else if x.locked then BUF_LOCKED else BUF_CLEAN
  }

  /** The ring it goes to when they differ; `recent` decides between the two rings for locked buffers. */
  function Dispose(x: Buf, recent: bool): (l: nat)
    ensures l < NR_LIST
  {
    if Proper(x) != x.list && Proper(x) == BUF_LOCKED && recent then BUF_LOCKED1 else Proper(x)
  }

  /** `refile_buffer` on a buffer that is not free (fs/buffer.c:834-871).  The rings are compared before `recent`
      is looked at, so a buffer on the second ring for locked ones may be put at the end of that same ring. */
  function Refile(c: Cache, b: Bh, recent: bool): Cache
    requires Shape(c) && b in c.bufs && OkBuf(c.bufs[b]) && OnItsRing(c, b) && !IsFree(c.bufs[b])
  {
    var x := c.bufs[b];
    if Proper(x) == x.list then c
    else InsertIntoQueues(SetBuf(RemoveFromQueues(c, b), b, x.(list := Dispose(x, recent))), b)
  }

  lemma RefileOk(c: Cache, b: Bh, recent: bool)
    requires Ok(c, {}) && b in c.bufs && !IsFree(c.bufs[b])
    ensures OnItsRing(c, b) && Ok(Refile(c, b, recent), {})
    ensures Refile(c, b, recent).bufs == c.bufs[b := c.bufs[b].(list := Dispose(c.bufs[b], recent))]
  {
    hide LruOk, FreeOk, ChainOk, Bucket;
    var x := c.bufs[b];
    OnRing(c, {}, b);
    if Proper(x) == x.list {
      assert x.(list := Dispose(x, recent)) == x && c.bufs == c.bufs[b := x];
    } else {
      var y := x.(list := Dispose(x, recent));
      RemoveOk(c, {}, b);
      assert {} + {b} == {b} && {b} - {b} == {};
      var c1 := RemoveFromQueues(c, b);
      SetOk(c1, {b}, b, y);
      var c2 := SetBuf(c1, b, y);
      forall a | a in c2.bufs && a !in {b} ensures !Twins(c2.bufs[b], c2.bufs[a]) {
        assert Twins(c.bufs[b], c.bufs[a]) ==> a == b;
      }
      InsertOk(c2, {b}, b);
    }
  }

  /** Either nothing moves, or the buffer leaves its ring and becomes the last of the one it goes to, which may be
      the same. */
  lemma RefileRings(c: Cache, b: Bh, recent: bool, l: nat)
    requires Ok(c, {}) && b in c.bufs && !IsFree(c.bufs[b]) && l < NR_LIST
    ensures Shape(c) && OkBuf(c.bufs[b]) && OnItsRing(c, b) && |Refile(c, b, recent).lru| == NR_LIST
    ensures Refile(c, b, recent).lru[l] ==
            if Proper(c.bufs[b]) == c.bufs[b].list then c.lru[l]
            else Without(c.lru[l], b) + if l == Dispose(c.bufs[b], recent) then [b] else []
  {
    hide Refile, OnItsRing, Dispose, Proper;
    OnRing(c, {}, b);
    assert LruOk(c, {}, l);
    if l != c.bufs[b].list { WithoutAbsent(c.lru[l], b); }
    RequeueRings(c, b, recent, l);
  }

  lemma RequeueRings(c: Cache, b: Bh, recent: bool, l: nat)
    requires Shape(c) && b in c.bufs && OkBuf(c.bufs[b]) && OnItsRing(c, b) && !IsFree(c.bufs[b]) && l < NR_LIST
    requires l != c.bufs[b].list ==> Without(c.lru[l], b) == c.lru[l]
    ensures |Refile(c, b, recent).lru| == NR_LIST
    ensures Refile(c, b, recent).lru[l] ==
            if Proper(c.bufs[b]) == c.bufs[b].list then c.lru[l]
            else Without(c.lru[l], b) + if l == Dispose(c.bufs[b], recent) then [b] else []
  {
    hide Bucket, Without, SizeIndex;
  }

  /** A buffer that may be taken for another block of the same size (fs/buffer.c:548-562). */
  predicate CanReclaim(x: Buf, size: nat) { Unused(x) && x.size == size }

  /** `refill_freelist` on one buffer (fs/buffer.c:704-706). */
  function Reclaim(c: Cache, b: Bh): Cache
    requires Shape(c) && b in c.bufs && OkBuf(c.bufs[b]) && OnItsRing(c, b)
  {
    PutLastFree(RemoveFromQueues(c, b), b)
  }

  lemma ReclaimOk(c: Cache, b: Bh)
    requires Ok(c, {}) && b in c.bufs && Unused(c.bufs[b])
    ensures OnItsRing(c, b) && Ok(Reclaim(c, b), {})
    ensures Reclaim(c, b).bufs == c.bufs[b := c.bufs[b].(key := c.bufs[b].key.(dev := B_FREE))]
  {
    hide LruOk, FreeOk, ChainOk, Bucket;
    var x := c.bufs[b];
    var y := x.(key := x.key.(dev := B_FREE));
    RemoveOk(c, {}, b);
    assert {} + {b} == {b} && {b} - {b} == {};
    var c1 := RemoveFromQueues(c, b);
    SetOk(c1, {b}, b, y);
    InsertOk(SetBuf(c1, b, y), {b}, b);
    assert y.(key := y.key.(dev := B_FREE)) == y;
    assert c.bufs[b := y] == c.bufs[b := y][b := y];
    assert Reclaim(c, b) == InsertIntoQueues(SetBuf(c1, b, y), b);
  }

  /** `getblk` with a free buffer (fs/buffer.c:792-803). */
  function Take(c: Cache, b: Bh, key: Key): Cache
    requires Shape(c) && b in c.bufs && OkBuf(c.bufs[b]) && OnItsRing(c, b) && IsFree(c.bufs[b]) && key.dev != B_FREE
  {
    var x := Buf(key, c.bufs[b].size, BUF_CLEAN, 1, false, false, false);
    InsertIntoQueues(SetBuf(RemoveFromFree(c, b), b, x), b)
  }

  lemma TakeOk(c: Cache, b: Bh, key: Key)
    requires Ok(c, {}) && b in c.bufs && IsFree(c.bufs[b]) && key.dev != B_FREE
    requires forall a :: a in c.bufs ==> !(Named(c.bufs[a]) && c.bufs[a].key == key)
    ensures OnItsRing(c, b) && Ok(Take(c, b, key), {})
    ensures Take(c, b, key).bufs == c.bufs[b := Buf(key, c.bufs[b].size, BUF_CLEAN, 1, false, false, false)]
  {
    hide LruOk, FreeOk, ChainOk, Bucket;
    var x := Buf(key, c.bufs[b].size, BUF_CLEAN, 1, false, false, false);
    RemoveOk(c, {}, b);
    assert {} + {b} == {b} && {b} - {b} == {};
    var c1 := RemoveFromQueues(c, b);
    SetOk(c1, {b}, b, x);
    InsertOk(SetBuf(c1, b, x), {b}, b);
  }

  function Nameless(x: Buf): Buf
    requires x.count > 0
  {
    x.(dirty := false, prot := false, count := x.count - 1, key := x.key.(dev := NODEV))
  }

  /** `bforget` (fs/buffer.c:896-905). */
  function Forget(c: Cache, b: Bh, recent: bool): Cache
    requires Shape(c) && b in c.bufs && OkBuf(c.bufs[b]) && OnItsRing(c, b) && !IsFree(c.bufs[b]) && c.bufs[b].count > 0
  {
    Refile(SetBuf(RemoveFromHash(c, b), b, Nameless(c.bufs[b])), b, recent)
  }

  lemma NamelessQueuesOk(c: Cache, b: Bh, l: nat, i: nat, h: nat)
    requires Shape(c) && b in c.bufs && !IsFree(c.bufs[b]) && c.bufs[b].count > 0
    requires l < NR_LIST && i < NR_SIZES && h < NR_HASH && LruOk(c, {}, l) && FreeOk(c, {}, i) && ChainOk(c, {}, h)
    ensures var c' := SetBuf(RemoveFromHash(c, b), b, Nameless(c.bufs[b]));
            LruOk(c', {}, l) && FreeOk(c', {}, i) && ChainOk(c', {}, h)
  {
    hide Bucket;
    WithoutNoDup(c.chains[h], b);
  }

  lemma NamelessOk(c: Cache, b: Bh)
    requires Ok(c, {}) && b in c.bufs && !IsFree(c.bufs[b]) && c.bufs[b].count > 0
    ensures Ok(SetBuf(RemoveFromHash(c, b), b, Nameless(c.bufs[b])), {})
  {
    hide Bucket, LruOk, FreeOk, ChainOk;
    var c' := SetBuf(RemoveFromHash(c, b), b, Nameless(c.bufs[b]));
    forall l | 0 <= l < NR_LIST ensures LruOk(c', {}, l) { NamelessQueuesOk(c, b, l, 0, 0); }
    forall i | 0 <= i < NR_SIZES ensures FreeOk(c', {}, i) { NamelessQueuesOk(c, b, 0, i, 0); }
    forall h | 0 <= h < NR_HASH ensures ChainOk(c', {}, h) { NamelessQueuesOk(c, b, 0, 0, h); }
    assert c'.bufs.Keys == c.bufs.Keys;
    assert |c'.bufs| == |c'.bufs.Keys| == |c.bufs.Keys| == |c.bufs|;
  }

  lemma ForgetOk(c: Cache, b: Bh, recent: bool)
    requires Ok(c, {}) && b in c.bufs && !IsFree(c.bufs[b]) && c.bufs[b].count > 0
    ensures Shape(c) && OkBuf(c.bufs[b]) && OnItsRing(c, b) && Ok(Forget(c, b, recent), {})
    ensures var y := Nameless(c.bufs[b]);
            Forget(c, b, recent).bufs == c.bufs[b := y.(list := Dispose(y, recent))]
  {
    hide Ok, Dispose, RemoveFromHash, Refile;
    OnRing(c, {}, b);
    NamelessOk(c, b);
    var c1 := SetBuf(RemoveFromHash(c, b), b, Nameless(c.bufs[b]));
    RefileOk(c1, b, recent);
    assert c1.bufs == c.bufs[b := Nameless(c.bufs[b])] by { HashOnly(c, b); }
  }

  lemma HashOnly(c: Cache, b: Bh)
    requires Shape(c) && b in c.bufs
    ensures RemoveFromHash(c, b).bufs == c.bufs
  {
  }

  /** One buffer of a new page (fs/buffer.c:1394-1404): it goes to place `at` of the free ring. */
  function Grow(c: Cache, b: Bh, size: nat, at: nat): Cache
    requires Shape(c) && at <= |c.free[SizeIndex(size)]|
  {
    var i := SizeIndex(size);
    c.(bufs := c.bufs[b := Buf(Key(B_FREE, 0), size, BUF_CLEAN, 0, false, false, false)],
       free := c.free[i := c.free[i][..at] + [b] + c.free[i][at..]], nr := c.nr + 1)
  }

  /** The head of a free ring moves on (fs/buffer.c:1411). */
  function Rotate(c: Cache, i: nat): Cache
    requires i < |c.free| && c.free[i] != []
  {
    c.(free := c.free[i := c.free[i][1..] + [c.free[i][0]]])
  }

  lemma GrowQueuesOk(c: Cache, b: Bh, size: nat, at: nat, l: nat, h: nat)
    requires Shape(c) && b !in c.bufs && at <= |c.free[SizeIndex(size)]|
    requires l < NR_LIST && h < NR_HASH && LruOk(c, {}, l) && ChainOk(c, {}, h)
    ensures LruOk(Grow(c, b, size, at), {}, l) && ChainOk(Grow(c, b, size, at), {}, h)
  {
    hide Bucket;
  }

  lemma GrowFreeOk(c: Cache, b: Bh, size: nat, at: nat, i: nat)
    requires Shape(c) && b !in c.bufs && at <= |c.free[SizeIndex(size)]| && i < NR_SIZES && FreeOk(c, {}, i)
    ensures FreeOk(Grow(c, b, size, at), {}, i)
  {
    hide SizeIndex;
    var c' := Grow(c, b, size, at);
    if i == SizeIndex(size) {
      var q := c.free[i];
      assert q == q[..at] + q[at..];
      assert forall a :: a in c'.free[i] <==> a in q || a == b;
    }
  }

  lemma GrowOk(c: Cache, b: Bh, size: nat, at: nat)
    requires Ok(c, {}) && b !in c.bufs && ValidSize(size) && at <= |c.free[SizeIndex(size)]|
    ensures Ok(Grow(c, b, size, at), {})
  {
    hide LruOk, FreeOk, ChainOk, Bucket, SizeIndex;
    var c' := Grow(c, b, size, at);
    forall l | 0 <= l < NR_LIST ensures LruOk(c', {}, l) { GrowQueuesOk(c, b, size, at, l, 0); }
    forall i | 0 <= i < NR_SIZES ensures FreeOk(c', {}, i) { GrowFreeOk(c, b, size, at, i); }
    forall h | 0 <= h < NR_HASH ensures ChainOk(c', {}, h) { GrowQueuesOk(c, b, size, at, 0, h); }
    assert c'.bufs.Keys == c.bufs.Keys + {b};
    assert |c'.bufs| == |c'.bufs.Keys| == |c.bufs.Keys| + 1;
  }

  lemma RotateOk(c: Cache, i: nat)
    requires Ok(c, {}) && i < NR_SIZES && c.free[i] != []
    ensures Ok(Rotate(c, i), {})
  {
    hide Bucket;
    var c' := Rotate(c, i);
    forall l | 0 <= l < NR_LIST ensures LruOk(c', {}, l) { assert LruOk(c, {}, l); }
    forall j | 0 <= j < NR_SIZES ensures FreeOk(c', {}, j) {
      assert FreeOk(c, {}, j);
      if i == j { assert c.free[i] == [c.free[i][0]] + c.free[i][1..]; }
    }
    forall h | 0 <= h < NR_HASH ensures ChainOk(c', {}, h) { assert ChainOk(c, {}, h); }
  }

  /** `try_to_free_buffer` on one buffer of the page (fs/buffer.c:1452-1462). */
  function Drop(c: Cache, b: Bh): Cache
    requires Shape(c) && b in c.bufs && OkBuf(c.bufs[b]) && OnItsRing(c, b)
  {
    var c1 := RemoveFromQueues(c, b);
    c1.(bufs := c1.bufs - {b}, nr := c.nr - 1)
  }

  lemma GoneQueuesOk(c: Cache, c': Cache, b: Bh, l: nat, i: nat, h: nat)
    requires Shape(c) && l < NR_LIST && i < NR_SIZES && h < NR_HASH
    requires LruOk(c, {b}, l) && FreeOk(c, {b}, i) && ChainOk(c, {b}, h)
    requires c' == c.(bufs := c.bufs - {b}, nr := c'.nr)
    ensures LruOk(c', {}, l) && FreeOk(c', {}, i) && ChainOk(c', {}, h)
  {
    hide Bucket;
  }

  lemma DropOk(c: Cache, b: Bh)
    requires Ok(c, {}) && b in c.bufs
    ensures OkBuf(c.bufs[b]) && OnItsRing(c, b) && Ok(Drop(c, b), {})
  {
    hide LruOk, FreeOk, ChainOk, Bucket, RemoveFromQueues;
    OnRing(c, {}, b);
    RemoveOk(c, {}, b);
    assert {} + {b} == {b};
    var c1, c' := RemoveFromQueues(c, b), Drop(c, b);
    forall l | 0 <= l < NR_LIST ensures LruOk(c', {}, l) { GoneQueuesOk(c1, c', b, l, 0, 0); }
    forall i | 0 <= i < NR_SIZES ensures FreeOk(c', {}, i) { GoneQueuesOk(c1, c', b, 0, i, 0); }
    forall h | 0 <= h < NR_HASH ensures ChainOk(c', {}, h) { GoneQueuesOk(c1, c', b, 0, 0, h); }
    assert c'.bufs.Keys == c.bufs.Keys - {b};
    assert |c'.bufs| == |c'.bufs.Keys| == |c.bufs.Keys| - 1;
  }
}
