/** The two-level directory name cache of fs/dcache.c. */
module DirCache {
  import opened Base
  import opened Lists

  const DCACHE_SIZE: nat := 128
  const DCACHE_NAME_LEN: nat := 15
  const DCACHE_HASH_QUEUES: nat := 32

  /** What an entry is found by. */
  datatype Key = Key(dev: bv32, dir: bv32, version: bv32, name: seq<bv8>)

  datatype Entry = Entry(key: Key, ino: nat)

  /** An entry's place: a member of `level1_cache` or of `level2_cache`. */
  datatype Slot = L1(i: nat) | L2(i: nat)

  function NameHash(name: seq<bv8>): bv32 {
    if name == [] || |name| > DCACHE_NAME_LEN then 0
    else (|name| as bv32) + (name[0] as bv32) + (name[|name| - 1] as bv32)
  }

  /** The hash queue of a key.  It does not depend on the version. */
  function Bucket(k: Key): (b: nat)
    ensures b < DCACHE_HASH_QUEUES
  {
    ((k.dev ^ k.dir ^ NameHash(k.name)) as nat) % DCACHE_HASH_QUEUES
  }

  /** The cache: the contents of the slots, the hash queues from their heads, and the two LRU rings
      from `level1_head` and `level2_head`. */
  datatype Cache = Cache(
    data: map<Slot, Entry>, chains: seq<seq<Slot>>, lru1: seq<nat>, lru2: seq<nat>)

  // ---------- operations ----------

  /** `find_entry`: the first slot of the chain that holds the key. */
  function Find(chain: seq<Slot>, data: map<Slot, Entry>, k: Key): (r: Option<Slot>)
    ensures r.Some? ==> r.value in chain && r.value in data && data[r.value].key == k
  {
    if chain == [] then None
    else if chain[0] in data && data[chain[0]].key == k then Some(chain[0])
    else Find(chain[1..], data, k)
  }

  /** `remove_hash` */
  function Unhash(c: Cache, s: Slot): Cache
    requires |c.chains| == DCACHE_HASH_QUEUES
  {
    if s !in c.data then c
    else
      var b := Bucket(c.data[s].key);
      c.(chains := c.chains[b := Without(c.chains[b], s)])
  }

  /** Give slot `s` new contents and put it at the head of its hash queue. */
  function Refill(c: Cache, s: Slot, e: Entry): Cache
    requires |c.chains| == DCACHE_HASH_QUEUES
  {
    var c := Unhash(c, s);
    var b := Bucket(e.key);
    c.(data := c.data[s := e], chains := c.chains[b := [s] + c.chains[b]])
  }

  function Touch(c: Cache, s: Slot): Cache {
    match s
    case L1(i) => c.(lru1 := ToTail(c.lru1, i))
    case L2(i) => c.(lru2 := ToTail(c.lru2, i))
  }

  /** `move_to_level2` */
  function MoveToLevel2(c: Cache, s: Slot): Cache
    requires |c.chains| == DCACHE_HASH_QUEUES && s in c.data && c.lru2 != []
  {
    if s.L2? then Touch(c, s)
    else Refill(c.(lru2 := ToTail(c.lru2, c.lru2[0])), L2(c.lru2[0]), c.data[s])
  }

  function FindIn(c: Cache, k: Key): Option<Slot>
    requires |c.chains| == DCACHE_HASH_QUEUES
  {
    if |k.name| > DCACHE_NAME_LEN then None else Find(c.chains[Bucket(k)], c.data, k)
  }

  /** `dcache_lookup` */
  function Lookup(c: Cache, k: Key): (Option<nat>, Cache)
    requires |c.chains| == DCACHE_HASH_QUEUES && c.lru2 != []
  {
    match FindIn(c, k)
    case None => (None, c)
    case Some(s) => (Some(c.data[s].ino), MoveToLevel2(c, s))
  }

  /** `dcache_add` */
  function Add(c: Cache, k: Key, ino: nat): Cache
    requires |c.chains| == DCACHE_HASH_QUEUES && c.lru1 != []
  {
    if |k.name| > DCACHE_NAME_LEN then c
    else
      match FindIn(c, k)
      case Some(s) => Touch(c.(data := c.data[s := Entry(k, ino)]), s)
      case None => Refill(c.(lru1 := ToTail(c.lru1, c.lru1[0])), L1(c.lru1[0]), Entry(k, ino))
  }

  // ---------- the invariant ----------

  predicate SameLevel(a: Slot, b: Slot) { a.L1? == b.L1? }

  /** One hash queue: no slot twice, every entry hashes here, at most one entry for a key on each
      level, and a level-2 copy before its level-1 copy. */
  ghost predicate ChainOk(chain: seq<Slot>, data: map<Slot, Entry>, b: nat) {
    && NoDup(chain)
    && (forall i :: 0 <= i < |chain| ==> chain[i] in data && Bucket(data[chain[i]].key) == b)
    && (forall i, j :: 0 <= i < j < |chain| && data[chain[i]].key == data[chain[j]].key ==>
          chain[i].L2? && chain[j].L1?)
  }

  /** A ring holds every slot of its level once. */
  predicate RingOk(lru: seq<nat>) {
    && |lru| == DCACHE_SIZE && NoDup(lru)
    && (forall i :: 0 <= i < DCACHE_SIZE ==> i in lru)
    && (forall x :: x in lru ==> x < DCACHE_SIZE)
  }

  ghost predicate SlotsOk(c: Cache) {
    forall s :: s in c.data ==> s.i < DCACHE_SIZE
  }

  ghost predicate Inv(c: Cache) {
    && |c.chains| == DCACHE_HASH_QUEUES && RingOk(c.lru1) && RingOk(c.lru2) && SlotsOk(c)
    && forall b :: 0 <= b < DCACHE_HASH_QUEUES ==> ChainOk(c.chains[b], c.data, b)
  }

  // ---------- chains ----------

  lemma WithoutOk(chain: seq<Slot>, data: map<Slot, Entry>, b: nat, s: Slot)
    requires ChainOk(chain, data, b)
    ensures ChainOk(Without(chain, s), data, b)
  {
    var r := Without(chain, s);
    var idx := WithoutAt(chain, s);
  }

  /** Data of slots that are not on the chain do not matter to it. */
  lemma FrameOk(chain: seq<Slot>, data: map<Slot, Entry>, b: nat, s: Slot, e: Entry)
    requires ChainOk(chain, data, b) && s !in chain
    ensures ChainOk(chain, data[s := e], b)
  {
  }

  lemma PrependOk(chain: seq<Slot>, data: map<Slot, Entry>, b: nat, s: Slot)
    requires ChainOk(chain, data, b) && s !in chain && s in data && Bucket(data[s].key) == b
    requires forall t :: t in chain && data[t].key == data[s].key ==> s.L2? && t.L1?
    ensures ChainOk([s] + chain, data, b)
  {
  }

  lemma {:induction false} FindNone(chain: seq<Slot>, data: map<Slot, Entry>, k: Key)
    requires forall s :: s in chain ==> s in data
    ensures Find(chain, data, k) == None <==> forall s :: s in chain ==> data[s].key != k
  {
    if chain != [] {
      FindNone(chain[1..], data, k);
      assert forall s :: s in chain <==> s == chain[0] || s in chain[1..];
    }
  }

  /** The search finds the level-2 copy if there is one. */
  lemma {:induction false} FindPrefersLevel2(chain: seq<Slot>, data: map<Slot, Entry>, b: nat, k: Key)
    requires ChainOk(chain, data, b) && Find(chain, data, k).Some? && Find(chain, data, k).value.L1?
    ensures forall s :: s in chain && s.L2? ==> data[s].key != k
  {
    if data[chain[0]].key == k {
      forall s | s in chain && s.L2? ensures data[s].key != k {
        var j :| 0 <= j < |chain| && chain[j] == s;
      }
    } else {
      FindPrefersLevel2(chain[1..], data, b, k);
      assert forall s :: s in chain <==> s == chain[0] || s in chain[1..];
    }
  }

  // ---------- every operation keeps the invariant ----------

  lemma TailRing(lru: seq<nat>, x: nat)
    requires RingOk(lru) && x in lru
    ensures RingOk(ToTail(lru, x))
  {
    var k :| 0 <= k < |lru| && lru[k] == x;
    WithoutOne(lru, x, k);
  }

  lemma UnhashInv(c: Cache, s: Slot)
    requires Inv(c)
    ensures Inv(Unhash(c, s))
    ensures forall b :: 0 <= b < DCACHE_HASH_QUEUES ==> s !in Unhash(c, s).chains[b]
    ensures forall b, t :: 0 <= b < DCACHE_HASH_QUEUES && t in Unhash(c, s).chains[b] ==> t in c.chains[b]
  {
    if s in c.data { WithoutOk(c.chains[Bucket(c.data[s].key)], c.data, Bucket(c.data[s].key), s); }
  }

  lemma RefillInv(c: Cache, s: Slot, e: Entry)
    requires Inv(c) && s.i < DCACHE_SIZE
    requires forall t :: t in c.chains[Bucket(e.key)] && t != s && c.data[t].key == e.key ==> s.L2? && t.L1?
    ensures Inv(Refill(c, s, e))
  {
    UnhashInv(c, s);
    var d := Unhash(c, s);
    var b := Bucket(e.key);
    var c' := Refill(c, s, e);
    forall k | 0 <= k < DCACHE_HASH_QUEUES ensures ChainOk(c'.chains[k], c'.data, k) {
      FrameOk(d.chains[k], d.data, k, s, e);
      if k == b { PrependOk(d.chains[k], c'.data, k, s); }
    }
  }

  lemma TouchInv(c: Cache, s: Slot)
    requires Inv(c) && s.i < DCACHE_SIZE
    ensures Inv(Touch(c, s))
  {
    match s
    case L1(i) => TailRing(c.lru1, i);
    case L2(i) => TailRing(c.lru2, i);
  }

  lemma LookupInv(c: Cache, k: Key)
    requires Inv(c)
    ensures Inv(Lookup(c, k).1)
  {
    match FindIn(c, k)
    case None =>
    case Some(s) =>
      if s.L2? {
        TouchInv(c, s);
      } else {
        FindPrefersLevel2(c.chains[Bucket(k)], c.data, Bucket(k), k);
        var v := c.lru2[0];
        TailRing(c.lru2, v);
        RefillInv(c.(lru2 := ToTail(c.lru2, v)), L2(v), c.data[s]);
      }
  }

  lemma AddInv(c: Cache, k: Key, ino: nat)
    requires Inv(c)
    ensures Inv(Add(c, k, ino))
  {
    if |k.name| <= DCACHE_NAME_LEN {
      var chain := c.chains[Bucket(k)];
      match FindIn(c, k)
      case Some(s) =>
        var d := c.(data := c.data[s := Entry(k, ino)]);
        forall b | 0 <= b < DCACHE_HASH_QUEUES ensures ChainOk(d.chains[b], d.data, b) {
          SameKeyOk(c.chains[b], c.data, b, s, Entry(k, ino));
        }
        TouchInv(d, s);
      case None =>
        FindNone(chain, c.data, k);
        var v := c.lru1[0];
        TailRing(c.lru1, v);
        RefillInv(c.(lru1 := ToTail(c.lru1, v)), L1(v), Entry(k, ino));
    }
  }

  lemma SameKeyOk(chain: seq<Slot>, data: map<Slot, Entry>, b: nat, s: Slot, e: Entry)
    requires ChainOk(chain, data, b) && s in data && data[s].key == e.key
    ensures ChainOk(chain, data[s := e], b)
  {
  }

  // ---------- runs ----------

  datatype Op = LookupOp(key: Key) | AddOp(key: Key, ino: nat)

  function Do(c: Cache, op: Op): Cache
    requires |c.chains| == DCACHE_HASH_QUEUES && c.lru1 != [] && c.lru2 != []
  {
    match op
    case LookupOp(k) => Lookup(c, k).1
    case AddOp(k, ino) => Add(c, k, ino)
  }

  lemma DoInv(c: Cache, op: Op)
    requires Inv(c)
    ensures Inv(Do(c, op))
  {
    match op
    case LookupOp(k) => LookupInv(c, k);
    case AddOp(k, ino) => AddInv(c, k, ino);
  }

  /** `states` is what the operations in `ops` make of `states[0]`. */
  ghost predicate Run(states: seq<Cache>, ops: seq<Op>) {
    && |states| == |ops| + 1 && Inv(states[0])
    && forall n :: 0 <= n < |ops| ==>
         |states[n].chains| == DCACHE_HASH_QUEUES && states[n].lru1 != [] && states[n].lru2 != [] &&
         states[n + 1] == Do(states[n], ops[n])
  }

  lemma {:induction false} RunInv(states: seq<Cache>, ops: seq<Op>, n: nat)
    requires Run(states, ops) && n < |states|
    ensures Inv(states[n])
  {
    if n > 0 {
      hide Inv, Do;
      RunInv(states, ops, n - 1);
      DoInv(states[n - 1], ops[n - 1]);
    }
  }

  lemma RunStep(states: seq<Cache>, ops: seq<Op>, n: nat)
    requires Run(states, ops) && n < |ops|
    ensures |states| == |ops| + 1
    ensures |states[n].chains| == DCACHE_HASH_QUEUES && states[n].lru1 != [] && states[n].lru2 != []
    ensures states[n + 1] == Do(states[n], ops[n])
  {
  }

  /** `name_cache_init` */
  function Empty(): Cache {
    Cache(map[], seq(DCACHE_HASH_QUEUES, i => []),
          seq(DCACHE_SIZE, i => i), seq(DCACHE_SIZE, i => i))
  }

  lemma EmptyInv()
    ensures Inv(Empty())
  {
    var c := Empty();
    forall i | 0 <= i < DCACHE_SIZE ensures i in c.lru1 && i in c.lru2 {
      assert c.lru1[i] == i && c.lru2[i] == i;
    }
  }

  /** Every key is in the cache at most once on each level, both copies in one queue, that of level 2 first. */
  lemma OneCopyPerLevel(states: seq<Cache>, ops: seq<Op>, n: nat, a: nat, b: nat, i: nat, j: nat)
    requires Run(states, ops) && n < |states|
    requires a < |states[n].chains| && b < |states[n].chains|
    requires i < |states[n].chains[a]| && j < |states[n].chains[b]|
    ensures var c := states[n];
            var s, t := c.chains[a][i], c.chains[b][j];
            && s in c.data && t in c.data
            && (c.data[s].key == c.data[t].key ==> a == b && (if SameLevel(s, t) then i == j else i < j <==> s.L2?))
  {
    RunInv(states, ops, n);
    OneCopyInv(states[n], a, b, i, j);
  }

  lemma OneCopyInv(c: Cache, a: nat, b: nat, i: nat, j: nat)
    requires Inv(c) && a < |c.chains| && b < |c.chains| && i < |c.chains[a]| && j < |c.chains[b]|
    ensures var s, t := c.chains[a][i], c.chains[b][j];
            && s in c.data && t in c.data
            && (c.data[s].key == c.data[t].key ==> a == b && (if SameLevel(s, t) then i == j else i < j <==> s.L2?))
  {
    hide RingOk, SlotsOk, Bucket;
    assert ChainOk(c.chains[a], c.data, a) && ChainOk(c.chains[b], c.data, b);
  }

  // ---------- what a hit returns ----------

  /** Every entry that can be found carries the number its key always gets. */
  ghost predicate Fixed(c: Cache, f: Key -> nat) {
    forall b, s :: 0 <= b < |c.chains| && s in c.chains[b] && s in c.data ==> c.data[s].ino == f(c.data[s].key)
  }

  lemma FixedRefill(c: Cache, s: Slot, e: Entry, f: Key -> nat)
    requires Inv(c) && Fixed(c, f) && e.ino == f(e.key)
    ensures Fixed(Refill(c, s, e), f)
  {
    UnhashInv(c, s);
  }

  lemma FixedDo(c: Cache, op: Op, f: Key -> nat)
    requires Inv(c) && Fixed(c, f) && (op.AddOp? ==> op.ino == f(op.key))
    ensures Fixed(Do(c, op), f)
    ensures op.LookupOp? && Lookup(c, op.key).0.Some? ==> Lookup(c, op.key).0.value == f(op.key)
  {
    match FindIn(c, op.key)
    case None =>
      if op.AddOp? && |op.key.name| <= DCACHE_NAME_LEN {
        var d := c.(lru1 := ToTail(c.lru1, c.lru1[0]));
        TailRing(c.lru1, c.lru1[0]);
        FixedRefill(d, L1(c.lru1[0]), Entry(op.key, op.ino), f);
      }
    case Some(s) =>
      assert s in c.chains[Bucket(op.key)];
      if op.LookupOp? && s.L1? {
        var d := c.(lru2 := ToTail(c.lru2, c.lru2[0]));
        TailRing(c.lru2, c.lru2[0]);
        FixedRefill(d, L2(c.lru2[0]), c.data[s], f);
      }
  }

  /** If callers always add the same number for a name, every hit returns that number. */
  lemma {:induction false} HitsAreRight(states: seq<Cache>, ops: seq<Op>, f: Key -> nat, n: nat)
    requires Run(states, ops) && n < |states| && Fixed(states[0], f)
    requires forall m :: 0 <= m < |ops| && ops[m].AddOp? ==> ops[m].ino == f(ops[m].key)
    ensures Fixed(states[n], f)
    ensures n < |ops| && ops[n].LookupOp? && Lookup(states[n], ops[n].key).0.Some? ==>
              Lookup(states[n], ops[n].key).0.value == f(ops[n].key)
  {
    hide Inv, Fixed, Do, Lookup;
    if n > 0 {
      HitsAreRight(states, ops, f, n - 1);
      RunInv(states, ops, n - 1);
      FixedDo(states[n - 1], ops[n - 1], f);
    }
    RunInv(states, ops, n);
    if n < |ops| { FixedDo(states[n], ops[n], f); }
  }

  // ---------- how long a used name stays ----------

  /** The slot holds a copy of the entry for `k` that a search can come upon. */
  ghost predicate CopyAt(c: Cache, k: Key, s: Slot)
    requires |c.chains| == DCACHE_HASH_QUEUES
  {
    s in c.chains[Bucket(k)] && s in c.data && c.data[s].key == k
  }

  /** The name is on level 2, in a slot at least `p` places behind the one to be reused next. */
  ghost predicate Keeps(c: Cache, k: Key, p: int) {
    |c.chains| == DCACHE_HASH_QUEUES &&
    exists i :: 0 <= i < |c.lru2| && p <= i && KeptAt(c, k, c.lru2[i])
  }

  ghost predicate KeptAt(c: Cache, k: Key, j: nat)
    requires |c.chains| == DCACHE_HASH_QUEUES
  {
    CopyAt(c, k, L2(j))
  }

  /** The operation uses another name that is cached. */
  predicate TouchesOther(c: Cache, op: Op, k: Key)
    requires |c.chains| == DCACHE_HASH_QUEUES
  {
    op.key != k && FindIn(c, op.key).Some?
  }

  /** Moving another entry to the tail moves this one forward by at most one place. */
  lemma TailPosition(lru: seq<nat>, x: nat, i: nat) returns (i': nat)
    requires NoDup(lru) && x in lru && i < |lru|
    ensures |ToTail(lru, x)| == |lru| && i' < |lru| && ToTail(lru, x)[i'] == lru[i]
    ensures if lru[i] == x then i' == |lru| - 1 else i - 1 <= i'
  {
    var k :| 0 <= k < |lru| && lru[k] == x;
    WithoutOne(lru, x, k);
    i' := if i < k then i else if i == k then |lru| - 1 else i - 1;
  }

  /** Refilling another slot leaves the entry where it is. */
  lemma RefillKeeps(c: Cache, s: Slot, e: Entry, k: Key, j: nat)
    requires Inv(c) && KeptAt(c, k, j) && s != L2(j)
    ensures KeptAt(Refill(c, s, e), k, j)
  {
  }

  /** A search for the name itself finds the level-2 copy. */
  lemma FindsKept(c: Cache, k: Key, j: nat)
    requires Inv(c) && KeptAt(c, k, j) && |k.name| <= DCACHE_NAME_LEN
    ensures FindIn(c, k) == Some(L2(j))
  {
    var chain := c.chains[Bucket(k)];
    FindNone(chain, c.data, k);
    var r := FindIn(c, k);
    if r.value.L1? { FindPrefersLevel2(chain, c.data, Bucket(k), k); }
    var x :| 0 <= x < |chain| && chain[x] == r.value;
    var y :| 0 <= y < |chain| && chain[y] == L2(j);
    assert ChainOk(chain, c.data, Bucket(k));
  }

  /** Only a touch of another name brings a kept name closer to being flushed, and by one place. */
  lemma KeepStep(c: Cache, op: Op, k: Key, p: int)
    requires Inv(c) && Keeps(c, k, p) && (TouchesOther(c, op, k) ==> p > 0)
    ensures Keeps(Do(c, op), k, if TouchesOther(c, op, k) then p - 1 else p)
  {
    var i :| 0 <= i < |c.lru2| && p <= i && KeptAt(c, k, c.lru2[i]);
    var j, c', found := c.lru2[i], Do(c, op), FindIn(c, op.key);
    if found == None {
      if op.AddOp? && |op.key.name| <= DCACHE_NAME_LEN {
        var d := c.(lru1 := ToTail(c.lru1, c.lru1[0]));
        TailRing(c.lru1, c.lru1[0]);
        RefillKeeps(d, L1(c.lru1[0]), Entry(op.key, op.ino), k, j);
      }
      assert c'.lru2[i] == j && KeptAt(c', k, j);
    } else {
      KeepFound(c, op, k, p, i);
    }
  }

  lemma KeepFound(c: Cache, op: Op, k: Key, p: int, i: nat)
    requires Inv(c) && i < |c.lru2| && p <= i && KeptAt(c, k, c.lru2[i])
    requires FindIn(c, op.key).Some? && (op.key != k ==> p > 0)
    ensures Keeps(Do(c, op), k, if op.key != k then p - 1 else p)
  {
    var j, s, c' := c.lru2[i], FindIn(c, op.key).value, Do(c, op);
    if op.key == k { FindsKept(c, k, j); }
    if op.LookupOp? && s.L1? {
      var v := c.lru2[0];
      var d := c.(lru2 := ToTail(c.lru2, v));
      TailRing(c.lru2, v);
      RefillKeeps(d, L2(v), c.data[s], k, j);
      var i' := TailPosition(c.lru2, v, i);
      assert c'.lru2[i'] == j && KeptAt(c', k, j);
    } else if s.L1? {
      assert c'.lru2[i] == j && KeptAt(c', k, j);
    } else {
      var i' := TailPosition(c.lru2, s.i, i);
      assert c'.lru2[i'] == j && KeptAt(c', k, j);
    }
  }

  /** A hit puts the name on level 2, last in line to be flushed. */
  lemma HitKeeps(c: Cache, k: Key)
    requires Inv(c) && Lookup(c, k).0.Some?
    ensures Keeps(Lookup(c, k).1, k, DCACHE_SIZE - 1)
  {
    var s, c' := FindIn(c, k).value, Lookup(c, k).1;
    var j: nat := if s.L2? then s.i else c.lru2[0];
    TailRing(c.lru2, j);
    if s.L2? {
      assert c' == Touch(c, s);
    } else {
      assert c' == Refill(c.(lru2 := ToTail(c.lru2, j)), L2(j), c.data[s]);
    }
    assert c'.lru2 == ToTail(c.lru2, j) && c'.lru2[|c'.lru2| - 1] == j;
    assert KeptAt(c', k, j);
  }

  /** How many of the operations from `lo` on touch another cached name. */
  ghost function Touches(states: seq<Cache>, ops: seq<Op>, k: Key, lo: nat, hi: nat): nat
    requires Run(states, ops) && lo <= hi <= |ops|
    decreases hi
  {
    if lo == hi then 0
    else Touches(states, ops, k, lo, hi - 1) + (if TouchesOther(states[hi - 1], ops[hi - 1], k) then 1 else 0)
  }

  lemma {:induction false} KeepRun(states: seq<Cache>, ops: seq<Op>, k: Key, lo: nat, hi: nat)
    returns (p: int)
    requires Run(states, ops) && lo <= hi <= |ops| && Keeps(states[lo], k, DCACHE_SIZE - 1)
    requires Touches(states, ops, k, lo, hi) < DCACHE_SIZE
    ensures p == DCACHE_SIZE - 1 - Touches(states, ops, k, lo, hi) && Keeps(states[hi], k, p)
    decreases hi
  {
    p := DCACHE_SIZE - 1;
    hide Inv, Do, Keeps, TouchesOther, Run;
    if lo < hi {
      RunStep(states, ops, hi - 1);
      p := KeepRun(states, ops, k, lo, hi - 1);
      RunInv(states, ops, hi - 1);
      KeepStep(states[hi - 1], ops[hi - 1], k, p);
      if TouchesOther(states[hi - 1], ops[hi - 1], k) { p := p - 1; }
    }
  }

  /** A name that has been hit stays on level 2 through any operations, among them any number of
      first-time additions, until DCACHE_SIZE touches of other cached names have been made. */
  lemma UsedNamesStay(states: seq<Cache>, ops: seq<Op>, k: Key, n: nat, m: nat)
    requires Run(states, ops) && n < m <= |ops|
    requires ops[n] == LookupOp(k) && Lookup(states[n], k).0.Some?
    requires Touches(states, ops, k, n + 1, m) < DCACHE_SIZE
    ensures |states[m].chains| == DCACHE_HASH_QUEUES
    ensures exists j :: KeptAt(states[m], k, j)
  {
    RunInv(states, ops, n);
    HitKeeps(states[n], k);
    var p := KeepRun(states, ops, k, n + 1, m);
  }
}
