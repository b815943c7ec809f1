/** `getblk`, `brelse` and `bforget` by any number of tasks that run atomically between the points where
    they may sleep (fs/buffer.c:477-491, 767-812, 876-905), over the queues of the buffer cache. */
module BufferTasks {
  import opened BufferCache

  /** What a task is in the middle of; `mine` are the references it holds otherwise. */
  datatype Task =
    | Idle(mine: multiset<Bh>)
    | Looking(mine: multiset<Bh>, key: Key)             // getblk at `repeat` or `get_free`
    | Waiting(mine: multiset<Bh>, key: Key, b: Bh)      // wait_on_buffer in get_hash_table
    | Refilling(mine: multiset<Bh>, key: Key)           // asleep in refill_freelist
    | Releasing(mine: multiset<Bh>, b: Bh)              // wait_on_buffer in brelse
    | Forgetting(mine: multiset<Bh>, b: Bh)             // wait_on_buffer in bforget

  /** `bsize` is the one block size of each device. */
  datatype State = State(c: Cache, tasks: seq<Task>, bsize: bv32 -> nat)

  datatype Step =
    | Begin(t: nat, key: Key)
    | Hit(t: nat, b: Bh)
    | Wake(t: nat, uptodate: bool)
    | TakeFree(t: nat)
    | NoneFree(t: nat)
    | Refilled(t: nat)
    | BeginRelease(t: nat, b: Bh)
    | Release(t: nat, recent: bool)
    | BeginForget(t: nat, b: Bh)
    | ForgetIt(t: nat, recent: bool)
    | Flags(b: Bh, locked: bool, dirty: bool, prot: bool)   // I/O, mark_buffer_dirty, completion
    | RefileIt(b: Bh, recent: bool)
    | ReclaimIt(b: Bh)                                      // refill_freelist
    | GrowIt(b: Bh, size: nat, at: nat)                     // grow_buffers
    | RotateIt(i: nat)
    | DropIt(b: Bh)                                         // try_to_free_buffer

  function Refs(ts: Task): multiset<Bh> {
    match ts
    case Waiting(mine, _, b) => mine + multiset{b}
    case Releasing(mine, b) => mine + multiset{b}
    case Forgetting(mine, b) => mine + multiset{b}
    case _ => ts.mine
  }

  function AllRefs(tasks: seq<Task>): multiset<Bh> {
    if tasks == [] then multiset{} else AllRefs(tasks[..|tasks| - 1]) + Refs(tasks[|tasks| - 1])
  }

  /** `find_buffer` finds `b`. */
  predicate Found(s: State, b: Bh, key: Key) {
    b in s.c.bufs && Named(s.c.bufs[b]) && s.c.bufs[b].key == key && s.c.bufs[b].size == s.bsize(key.dev)
  }

  ghost predicate Missing(s: State, key: Key) { forall b :: b in s.c.bufs ==> !Found(s, b, key) }

  ghost predicate Enabled(s: State, step: Step)
    requires Ok(s.c, {})
  {
    match step
    case Begin(t, key) =>
      && t < |s.tasks| && s.tasks[t].Idle?
      && key.dev != NODEV && key.dev != B_FREE && ValidSize(s.bsize(key.dev))
    case Hit(t, b) => t < |s.tasks| && s.tasks[t].Looking? && Found(s, b, s.tasks[t].key)
    case Wake(t, _) =>
      t < |s.tasks| && s.tasks[t].Waiting? && s.tasks[t].b in s.c.bufs && !s.c.bufs[s.tasks[t].b].locked
    case TakeFree(t) =>
      && t < |s.tasks| && s.tasks[t].Looking? && Missing(s, s.tasks[t].key)
      && s.c.free[SizeIndex(s.bsize(s.tasks[t].key.dev))] != []
    case NoneFree(t) =>
      && t < |s.tasks| && s.tasks[t].Looking? && Missing(s, s.tasks[t].key)
      && s.c.free[SizeIndex(s.bsize(s.tasks[t].key.dev))] == []
    case Refilled(t) => t < |s.tasks| && s.tasks[t].Refilling?
    case BeginRelease(t, b) => t < |s.tasks| && s.tasks[t].Idle? && b in s.tasks[t].mine
    case Release(t, _) =>
      t < |s.tasks| && s.tasks[t].Releasing? && s.tasks[t].b in s.c.bufs && !s.c.bufs[s.tasks[t].b].locked
    case BeginForget(t, b) => t < |s.tasks| && s.tasks[t].Idle? && b in s.tasks[t].mine
    case ForgetIt(t, _) =>
      t < |s.tasks| && s.tasks[t].Forgetting? && s.tasks[t].b in s.c.bufs && !s.c.bufs[s.tasks[t].b].locked
    case _ => CacheEnabled(s.c, step)
  }

  /** The steps of the cache that no task takes in its own name. */
  ghost predicate CacheEnabled(c: Cache, step: Step)
    requires Ok(c, {})
  {
    match step
    case Flags(b, _, _, _) => b in c.bufs && !IsFree(c.bufs[b])
    case RefileIt(b, _) => b in c.bufs && !IsFree(c.bufs[b])
    case ReclaimIt(b) => b in c.bufs && !IsFree(c.bufs[b]) && CanReclaim(c.bufs[b], c.bufs[b].size)
    case GrowIt(b, size, at) => b !in c.bufs && ValidSize(size) && at <= |c.free[SizeIndex(size)]|
    case RotateIt(i) => i < NR_SIZES && c.free[i] != []
    case DropIt(b) => b in c.bufs && Unused(c.bufs[b])
    case _ => false
  }

  function SetT(s: State, t: nat, ts: Task, c: Cache): State
    requires t < |s.tasks|
  {
    s.(tasks := s.tasks[t := ts], c := c)
  }

  function Recount(c: Cache, b: Bh, n: nat): Cache
    requires b in c.bufs
  {
    SetBuf(c, b, c.bufs[b].(count := n))
  }

  function Less(n: nat): nat { if n > 0 then n - 1 else 0 }

  lemma AllOnRings(c: Cache)
    requires Ok(c, {})
    ensures Shape(c) && forall b :: b in c.bufs ==> OkBuf(c.bufs[b]) && OnItsRing(c, b)
  {
    forall b | b in c.bufs ensures OkBuf(c.bufs[b]) && OnItsRing(c, b) { OnRing(c, {}, b); }
  }

  lemma FreeHead(c: Cache, i: nat)
    requires Ok(c, {}) && i < NR_SIZES && c.free[i] != []
    ensures c.free[i][0] in c.bufs && IsFree(c.bufs[c.free[i][0]]) && SizeIndex(c.bufs[c.free[i][0]].size) == i
  {
    assert FreeOk(c, {}, i) && c.free[i][0] in c.free[i];
  }

  // ---------- the invariant ----------

  predicate OkKey(s: State, key: Key) { key.dev != NODEV && key.dev != B_FREE && ValidSize(s.bsize(key.dev)) }

  predicate OkTask(s: State, ts: Task) {
    (ts.Looking? || ts.Waiting? || ts.Refilling?) ==> OkKey(s, ts.key)
  }

  function Count(c: Cache, b: Bh): nat { if b in c.bufs then c.bufs[b].count else 0 }

  ghost predicate Sized(s: State) {
    forall b :: b in s.c.bufs && Named(s.c.bufs[b]) ==> s.c.bufs[b].size == s.bsize(s.c.bufs[b].key.dev)
  }

  /** The cache is well formed with one block size for each device, and every use count is the number of
      references that tasks hold. */
  ghost predicate Inv(s: State) {
    && Ok(s.c, {}) && Sized(s)
    && (forall t :: 0 <= t < |s.tasks| ==> OkTask(s, s.tasks[t]))
    && (forall b :: AllRefs(s.tasks)[b] == Count(s.c, b))
  }

  lemma {:induction false} AllRefsPut(tasks: seq<Task>, t: nat, ts: Task)
    requires t < |tasks|
    ensures Refs(tasks[t]) <= AllRefs(tasks)
    ensures AllRefs(tasks[t := ts]) == AllRefs(tasks) - Refs(tasks[t]) + Refs(ts)
  {
    var n := |tasks| - 1;
    hide Refs;
    if t == n {
      assert tasks[t := ts][..n] == tasks[..n];
      Regroup(AllRefs(tasks[..n]) + Refs(tasks[n]), Refs(tasks[n]), Refs(ts), multiset{});
    } else {
      AllRefsPut(tasks[..n], t, ts);
      assert tasks[t := ts][..n] == tasks[..n][t := ts];
      Regroup(AllRefs(tasks[..n]), Refs(tasks[t]), Refs(ts), Refs(tasks[n]));
    }
  }

  lemma Regroup(a: multiset<Bh>, out: multiset<Bh>, back: multiset<Bh>, rest: multiset<Bh>)
    requires out <= a
    ensures out <= a + rest && a - out + back + rest == a + rest - out + back
  {
  }

  /** A buffer that a task refers to is in the cache, in use, and not free. */
  lemma InUse(s: State, t: nat, b: Bh)
    requires Inv(s) && t < |s.tasks| && b in Refs(s.tasks[t])
    ensures b in s.c.bufs && s.c.bufs[b].count > 0 && !IsFree(s.c.bufs[b])
  {
    AllRefsPut(s.tasks, t, s.tasks[t]);
    assert AllRefs(s.tasks)[b] == Count(s.c, b);
    AllOnRings(s.c);
  }

  // ---------- the steps ----------

  ghost predicate Ready(c: Cache, b: Bh) {
    Shape(c) && b in c.bufs && OkBuf(c.bufs[b]) && OnItsRing(c, b)
  }

  /** `get_hash_table` wakes up (fs/buffer.c:485-488), and the rest of `getblk` for a buffer found. */
  ghost function WakeTo(s: State, t: nat, uptodate: bool): State
    requires t < |s.tasks| && s.tasks[t].Waiting? && Ready(s.c, s.tasks[t].b) && !IsFree(s.c.bufs[s.tasks[t].b])
  {
    var ts := s.tasks[t];
    var x := s.c.bufs[ts.b];
    if x.key == ts.key && x.size == s.bsize(ts.key.dev) then
      SetT(s, t, Idle(ts.mine + multiset{ts.b}), if !x.dirty && uptodate then PutLastLru(s.c, ts.b) else s.c)
    else
      SetT(s, t, Looking(ts.mine, ts.key), Recount(s.c, ts.b, Less(x.count)))
  }

  ghost function TakeTo(s: State, t: nat, b: Bh): State
    requires t < |s.tasks| && s.tasks[t].Looking? && Ready(s.c, b) && IsFree(s.c.bufs[b]) && s.tasks[t].key.dev != B_FREE
  {
    SetT(s, t, Idle(s.tasks[t].mine + multiset{b}), Take(s.c, b, s.tasks[t].key))
  }

  /** `brelse` (fs/buffer.c:876-889). */
  ghost function ReleaseTo(s: State, t: nat, recent: bool): State
    requires t < |s.tasks| && s.tasks[t].Releasing? && Ready(s.c, s.tasks[t].b) && !IsFree(s.c.bufs[s.tasks[t].b])
  {
    var b := s.tasks[t].b;
    var c := Refile(s.c, b, recent);
    SetT(s, t, Idle(s.tasks[t].mine), if b in c.bufs then Recount(c, b, Less(c.bufs[b].count)) else c)
  }

  ghost function ForgetTo(s: State, t: nat, recent: bool): State
    requires t < |s.tasks| && s.tasks[t].Forgetting? && Ready(s.c, s.tasks[t].b)
    requires !IsFree(s.c.bufs[s.tasks[t].b]) && s.c.bufs[s.tasks[t].b].count > 0
  {
    SetT(s, t, Idle(s.tasks[t].mine), Forget(s.c, s.tasks[t].b, recent))
  }

  ghost predicate CanCache(c: Cache, step: Step) {
    match step
    case Flags(b, _, _, _) => b in c.bufs
    case RefileIt(b, _) => Ready(c, b) && !IsFree(c.bufs[b])
    case ReclaimIt(b) => Ready(c, b)
    case GrowIt(b, size, at) => Shape(c) && at <= |c.free[SizeIndex(size)]|
    case RotateIt(i) => i < |c.free| && c.free[i] != []
    case DropIt(b) => Ready(c, b)
    case _ => false
  }

  ghost function CacheTo(c: Cache, step: Step): Cache
    requires CanCache(c, step)
  {
    match step
    case Flags(b, locked, dirty, prot) => SetBuf(c, b, c.bufs[b].(locked := locked, dirty := dirty, prot := prot))
    case RefileIt(b, recent) => Refile(c, b, recent)
    case ReclaimIt(b) => Reclaim(c, b)
    case GrowIt(b, size, at) => Grow(c, b, size, at)
    case RotateIt(i) => Rotate(c, i)
    case DropIt(b) => Drop(c, b)
  }

  /** The buffer a step is about is where `Do` needs it. */
  ghost predicate CanDo(s: State, step: Step) {
    match step
    case Begin(t, _) => t < |s.tasks|
    case Hit(t, b) => t < |s.tasks| && s.tasks[t].Looking? && b in s.c.bufs
    case Wake(t, _) => t < |s.tasks| && s.tasks[t].Waiting? && Ready(s.c, s.tasks[t].b) && !IsFree(s.c.bufs[s.tasks[t].b])
    case TakeFree(t) =>
      && t < |s.tasks| && s.tasks[t].Looking? && s.tasks[t].key.dev != B_FREE
      && Shape(s.c) && s.c.free[SizeIndex(s.bsize(s.tasks[t].key.dev))] != []
      && var b := s.c.free[SizeIndex(s.bsize(s.tasks[t].key.dev))][0]; Ready(s.c, b) && IsFree(s.c.bufs[b])
    case NoneFree(t) => t < |s.tasks| && s.tasks[t].Looking?
    case Refilled(t) => t < |s.tasks| && s.tasks[t].Refilling?
    case BeginRelease(t, b) => t < |s.tasks|
    case Release(t, _) =>
      t < |s.tasks| && s.tasks[t].Releasing? && Ready(s.c, s.tasks[t].b) && !IsFree(s.c.bufs[s.tasks[t].b])
    case BeginForget(t, b) => t < |s.tasks|
    case ForgetIt(t, _) =>
      && t < |s.tasks| && s.tasks[t].Forgetting? && Ready(s.c, s.tasks[t].b) && !IsFree(s.c.bufs[s.tasks[t].b])
      && s.c.bufs[s.tasks[t].b].count > 0
    case _ => CanCache(s.c, step)
  }

  ghost function Do(s: State, step: Step): State
    requires CanDo(s, step)
  {
    match step
    case Begin(t, key) => SetT(s, t, Looking(s.tasks[t].mine, key), s.c)
    case Hit(t, b) =>
      SetT(s, t, Waiting(s.tasks[t].mine, s.tasks[t].key, b), Recount(s.c, b, s.c.bufs[b].count + 1))
    case Wake(t, uptodate) => WakeTo(s, t, uptodate)
    case TakeFree(t) => TakeTo(s, t, s.c.free[SizeIndex(s.bsize(s.tasks[t].key.dev))][0])
    case NoneFree(t) => SetT(s, t, Refilling(s.tasks[t].mine, s.tasks[t].key), s.c)
    case Refilled(t) => SetT(s, t, Looking(s.tasks[t].mine, s.tasks[t].key), s.c)
    case BeginRelease(t, b) => SetT(s, t, Releasing(s.tasks[t].mine - multiset{b}, b), s.c)
    case Release(t, recent) => ReleaseTo(s, t, recent)
    case BeginForget(t, b) => SetT(s, t, Forgetting(s.tasks[t].mine - multiset{b}, b), s.c)
    case ForgetIt(t, recent) => ForgetTo(s, t, recent)
    case _ => s.(c := CacheTo(s.c, step))
  }

  lemma CanAlways(s: State, step: Step)
    requires Inv(s) && Enabled(s, step)
    ensures CanDo(s, step)
  {
    hide Ok, Refs, AllRefs, SizeIndex;
    AllOnRings(s.c);
    match step
    case Wake(t, _) => InUse1(s, t);
    case TakeFree(t) =>
      FreeHead(s.c, SizeIndex(s.bsize(s.tasks[t].key.dev)));
      assert OkTask(s, s.tasks[t]);
    case Release(t, _) => InUse1(s, t);
    case ForgetIt(t, _) => InUse1(s, t);
    case _ =>
  }

  lemma InUse1(s: State, t: nat)
    requires Inv(s) && t < |s.tasks| && (s.tasks[t].Waiting? || s.tasks[t].Releasing? || s.tasks[t].Forgetting?)
    ensures var b := s.tasks[t].b; b in s.c.bufs && s.c.bufs[b].count > 0 && !IsFree(s.c.bufs[b])
  {
    InUse(s, t, s.tasks[t].b);
  }

  // ---------- the steps keep the invariant ----------

  lemma TaskInv(s: State, t: nat, ts: Task, c: Cache)
    requires Inv(s) && t < |s.tasks| && OkTask(s, ts)
    requires Ok(c, {}) && Sized(s.(c := c))
    requires forall b :: Count(c, b) + Refs(s.tasks[t])[b] == Count(s.c, b) + Refs(ts)[b]
    ensures Inv(SetT(s, t, ts, c))
  {
    hide Ok, Refs, AllRefs;
    var s' := SetT(s, t, ts, c);
    AllRefsPut(s.tasks, t, ts);
    forall u | 0 <= u < |s'.tasks| ensures OkTask(s', s'.tasks[u]) {
      assert u != t ==> OkTask(s, s.tasks[u]);
    }
  }

  lemma CacheInv(s: State, c: Cache)
    requires Inv(s) && Ok(c, {}) && Sized(s.(c := c)) && forall b :: Count(c, b) == Count(s.c, b)
    ensures Inv(s.(c := c))
  {
    hide Ok, Refs, AllRefs;
    var s' := s.(c := c);
    forall u | 0 <= u < |s'.tasks| ensures OkTask(s', s'.tasks[u]) {
      assert OkTask(s, s.tasks[u]);
    }
  }

  lemma RecountInv(s: State, t: nat, ts: Task, b: Bh, n: nat)
    requires Inv(s) && t < |s.tasks| && OkTask(s, ts) && b in s.c.bufs && !IsFree(s.c.bufs[b])
    requires forall a :: a != b ==> Refs(s.tasks[t])[a] == Refs(ts)[a]
    requires n + Refs(s.tasks[t])[b] == s.c.bufs[b].count + Refs(ts)[b]
    ensures Inv(SetT(s, t, ts, Recount(s.c, b, n)))
  {
    hide Ok, Refs, AllRefs;
    FlagsOk(s.c, {}, b, s.c.bufs[b].(count := n));
    TaskInv(s, t, ts, Recount(s.c, b, n));
  }

  lemma WakeInv(s: State, t: nat, uptodate: bool)
    requires Inv(s) && Enabled(s, Wake(t, uptodate)) && CanDo(s, Wake(t, uptodate))
    ensures Inv(Do(s, Wake(t, uptodate)))
  {
    hide Ok, AllRefs;
    var ts := s.tasks[t];
    var x := s.c.bufs[ts.b];
    InUse1(s, t);
    if x.key == ts.key && x.size == s.bsize(ts.key.dev) {
      PutLastOk(s.c, {}, ts.b);
      TaskInv(s, t, Idle(ts.mine + multiset{ts.b}), if !x.dirty && uptodate then PutLastLru(s.c, ts.b) else s.c);
    } else {
      assert OkTask(s, ts);
      RecountInv(s, t, Looking(ts.mine, ts.key), ts.b, Less(x.count));
    }
  }

  lemma TakeInv(s: State, t: nat)
    requires Inv(s) && Enabled(s, TakeFree(t)) && CanDo(s, TakeFree(t))
    ensures Inv(Do(s, TakeFree(t)))
  {
    hide Ok, AllRefs, SizeIndex, Take;
    var ts := s.tasks[t];
    var i := SizeIndex(s.bsize(ts.key.dev));
    var b := s.c.free[i][0];
    FreeHead(s.c, i);
    assert OkTask(s, ts);
    forall a | a in s.c.bufs ensures !(Named(s.c.bufs[a]) && s.c.bufs[a].key == ts.key) {
      assert !Found(s, a, ts.key);
    }
    TakeOk(s.c, b, ts.key);
    FreeUnused(s.c, b);
    SizeOf(s.c.bufs[b].size, s.bsize(ts.key.dev));
    TaskInv(s, t, Idle(ts.mine + multiset{b}), Take(s.c, b, ts.key));
  }

  lemma FreeUnused(c: Cache, b: Bh)
    requires Ok(c, {}) && b in c.bufs && IsFree(c.bufs[b])
    ensures Unused(c.bufs[b]) && ValidSize(c.bufs[b].size)
  {
  }

  lemma SizeOf(m: nat, n: nat)
    requires ValidSize(m) && ValidSize(n) && SizeIndex(m) == SizeIndex(n)
    ensures m == n
  {
  }

  lemma ReleaseInv(s: State, t: nat, recent: bool)
    requires Inv(s) && Enabled(s, Release(t, recent)) && CanDo(s, Release(t, recent))
    ensures Inv(Do(s, Release(t, recent)))
  {
    hide Ok, AllRefs, Refile, Dispose;
    var ts := s.tasks[t];
    InUse1(s, t);
    RefileOk(s.c, ts.b, recent);
    var c := Refile(s.c, ts.b, recent);
    CacheInv(s, c);
    RecountInv(s.(c := c), t, Idle(ts.mine), ts.b, Less(c.bufs[ts.b].count));
  }

  lemma ForgetInv(s: State, t: nat, recent: bool)
    requires Inv(s) && Enabled(s, ForgetIt(t, recent)) && CanDo(s, ForgetIt(t, recent))
    ensures Inv(Do(s, ForgetIt(t, recent)))
  {
    hide Ok, AllRefs, Forget, Dispose;
    var ts := s.tasks[t];
    ForgetOk(s.c, ts.b, recent);
    TaskInv(s, t, Idle(ts.mine), Forget(s.c, ts.b, recent));
  }

  lemma CacheStepInv(s: State, step: Step)
    requires Inv(s) && Enabled(s, step) && CanDo(s, step) && CanCache(s.c, step)
    ensures Inv(Do(s, step))
  {
    hide Ok, AllRefs, Refile, Reclaim, Dispose, SizeIndex, Drop;
    match step
    case Flags(b, locked, dirty, prot) =>
      FlagsOk(s.c, {}, b, s.c.bufs[b].(locked := locked, dirty := dirty, prot := prot));
      CacheInv(s, CacheTo(s.c, step));
    case RefileIt(b, recent) => RefileOk(s.c, b, recent); CacheInv(s, CacheTo(s.c, step));
    case ReclaimIt(b) => ReclaimOk(s.c, b); CacheInv(s, CacheTo(s.c, step));
    case GrowIt(b, size, at) => GrowOk(s.c, b, size, at); CacheInv(s, CacheTo(s.c, step));
    case RotateIt(i) => RotateOk(s.c, i); CacheInv(s, CacheTo(s.c, step));
    case DropIt(b) => DropOk(s.c, b); Dropped(s.c, b); CacheInv(s, CacheTo(s.c, step));
  }

  lemma Dropped(c: Cache, b: Bh)
    requires Ready(c, b)
    ensures Drop(c, b).bufs == c.bufs - {b}
  {
  }

  /** The steps that change what a task is doing and nothing else. */
  lemma PlainInv(s: State, t: nat, ts: Task)
    requires Inv(s) && t < |s.tasks| && Refs(ts) == Refs(s.tasks[t]) && OkTask(s, ts)
    ensures Inv(SetT(s, t, ts, s.c))
  {
    hide Ok, AllRefs, Refs;
    assert s.(c := s.c) == s;
    TaskInv(s, t, ts, s.c);
  }

  lemma GiveUp(mine: multiset<Bh>, b: Bh)
    requires b in mine
    ensures Refs(Releasing(mine - multiset{b}, b)) == Refs(Forgetting(mine - multiset{b}, b)) == mine
  {
  }

  lemma HitInv(s: State, t: nat, b: Bh)
    requires Inv(s) && Enabled(s, Hit(t, b)) && CanDo(s, Hit(t, b))
    ensures Inv(Do(s, Hit(t, b)))
  {
    hide Ok, AllRefs;
    assert OkTask(s, s.tasks[t]);
    RecountInv(s, t, Waiting(s.tasks[t].mine, s.tasks[t].key, b), b, s.c.bufs[b].count + 1);
  }

  lemma BeginInv(s: State, t: nat, key: Key)
    requires Inv(s) && Enabled(s, Begin(t, key)) && CanDo(s, Begin(t, key))
    ensures Inv(Do(s, Begin(t, key)))
  {
    hide Ok, AllRefs;
    PlainInv(s, t, Looking(s.tasks[t].mine, key));
  }

  lemma RefillInv(s: State, t: nat, step: Step)
    requires step == NoneFree(t) || step == Refilled(t)
    requires Inv(s) && Enabled(s, step) && CanDo(s, step)
    ensures Inv(Do(s, step))
  {
    hide Ok, AllRefs, SizeIndex;
    assert OkTask(s, s.tasks[t]);
    var ts := s.tasks[t];
    PlainInv(s, t, if step.NoneFree? then Refilling(ts.mine, ts.key) else Looking(ts.mine, ts.key));
  }

  lemma GivingUpInv(s: State, t: nat, b: Bh, step: Step)
    requires step == BeginRelease(t, b) || step == BeginForget(t, b)
    requires Inv(s) && Enabled(s, step) && CanDo(s, step)
    ensures Inv(Do(s, step))
  {
    hide Ok, AllRefs;
    var mine := s.tasks[t].mine;
    GiveUp(mine, b);
    PlainInv(s, t, if step.BeginRelease? then Releasing(mine - multiset{b}, b) else Forgetting(mine - multiset{b}, b));
  }

  lemma IsCacheStep(s: State, step: Step)
    requires CanDo(s, step)
    requires step.Flags? || step.RefileIt? || step.ReclaimIt? || step.GrowIt? || step.RotateIt? || step.DropIt?
    ensures CanCache(s.c, step)
  {
  }

  lemma StepInv(s: State, step: Step)
    requires Inv(s) && Enabled(s, step)
    ensures CanDo(s, step) && Inv(Do(s, step))
  {
    hide Inv, Ok, Enabled, CanDo, CanCache, Do;
    CanAlways(s, step);
    match step
    case Begin(t, key) => BeginInv(s, t, key);
    case Hit(t, b) => HitInv(s, t, b);
    case Wake(t, uptodate) => WakeInv(s, t, uptodate);
    case TakeFree(t) => TakeInv(s, t);
    case NoneFree(t) => RefillInv(s, t, step);
    case Refilled(t) => RefillInv(s, t, step);
    case BeginRelease(t, b) => GivingUpInv(s, t, b, step);
    case Release(t, recent) => ReleaseInv(s, t, recent);
    case BeginForget(t, b) => GivingUpInv(s, t, b, step);
    case ForgetIt(t, recent) => ForgetInv(s, t, recent);
    case _ => IsCacheStep(s, step); CacheStepInv(s, step);
  }

  // ---------- the code at `repeat` and `get_free` ----------

  /** `find_buffer` (fs/buffer.c:449-463): the walk along the chain; a buffer of another size counts as none. */
  method FindBuffer(c: Cache, key: Key, size: nat) returns (b: Bh, found: bool)
    requires Ok(c, {})
    ensures found ==> b in c.bufs && Named(c.bufs[b]) && c.bufs[b].key == key && c.bufs[b].size == size
    ensures !found ==> forall a :: a in c.bufs && Named(c.bufs[a]) && c.bufs[a].key == key ==> c.bufs[a].size != size
  {
    hide Bucket;
    var chain := c.chains[Bucket(key)];
    assert ChainOk(c, {}, Bucket(key));
    var i := 0;
    while i < |chain|
      invariant i <= |chain| && forall j :: 0 <= j < i ==> chain[j] in c.bufs && c.bufs[chain[j]].key != key
    {
      b := chain[i];
      assert b in chain;
      if c.bufs[b].key == key {
        if c.bufs[b].size == size { return b, true; }
        OnlyOne(c, b);
        return b, false;
      }
      i := i + 1;
    }
    return 0, false;
  }

  lemma OnlyOne(c: Cache, b: Bh)
    requires Ok(c, {}) && b in c.bufs && Named(c.bufs[b])
    ensures forall a :: a in c.bufs && Named(c.bufs[a]) && c.bufs[a].key == c.bufs[b].key ==> a == b
  {
    forall a | a in c.bufs && Named(c.bufs[a]) && c.bufs[a].key == c.bufs[b].key ensures a == b {
      assert Twins(c.bufs[a], c.bufs[b]);
    }
  }

  /** `getblk` from `repeat` or `get_free` to its next sleep or its end (fs/buffer.c:775-804): the step it takes. */
  method Getblk(s: State, t: nat) returns (step: Step)
    requires Inv(s) && t < |s.tasks| && s.tasks[t].Looking?
    ensures Enabled(s, step) && (step == TakeFree(t) || step == NoneFree(t) || (step.Hit? && step.t == t))
  {
    hide SizeIndex;
    var key := s.tasks[t].key;
    var size := s.bsize(key.dev);
    var b, found := FindBuffer(s.c, key, size);
    if found { return Hit(t, b); }
    assert Missing(s, key);
    if s.c.free[SizeIndex(size)] == [] { return NoneFree(t); }
    return TakeFree(t);
  }

  // ---------- runs ----------

  /** No buffer yet. */
  ghost predicate Empty(c: Cache) {
    && Shape(c) && c.bufs == map[] && c.nr == 0
    && (forall l :: 0 <= l < NR_LIST ==> c.lru[l] == [] && c.nrType[l] == 0)
    && (forall i :: 0 <= i < NR_SIZES ==> c.free[i] == [])
    && (forall h :: 0 <= h < NR_HASH ==> c.chains[h] == [])
  }

  ghost predicate Init(s: State) {
    Empty(s.c) && forall t :: 0 <= t < |s.tasks| ==> s.tasks[t] == Idle(multiset{})
  }

  ghost predicate Next(s: State, step: Step, s': State) {
    Ok(s.c, {}) && Enabled(s, step) && CanDo(s, step) && s' == Do(s, step)
  }

  ghost predicate Run(states: seq<State>, steps: seq<Step>) {
    && |states| == |steps| + 1 && Init(states[0])
    && forall j :: 0 <= j < |steps| ==> Next(states[j], steps[j], states[j + 1])
  }

  lemma {:induction false} NoRefs(tasks: seq<Task>)
    requires forall t :: 0 <= t < |tasks| ==> tasks[t] == Idle(multiset{})
    ensures AllRefs(tasks) == multiset{}
  {
    if tasks != [] { NoRefs(tasks[..|tasks| - 1]); }
  }

  lemma InitInv(s: State)
    requires Init(s)
    ensures Inv(s)
  {
    NoRefs(s.tasks);
    assert forall l :: 0 <= l < NR_LIST ==> LruOk(s.c, {}, l);
    assert forall i :: 0 <= i < NR_SIZES ==> FreeOk(s.c, {}, i);
    assert forall h :: 0 <= h < NR_HASH ==> ChainOk(s.c, {}, h);
  }

  lemma RunInv(states: seq<State>, steps: seq<Step>, j: nat)
    requires Run(states, steps) && j < |states|
    ensures Inv(states[j])
  {
    hide Inv, Next;
    InitInv(states[0]);
    NextsInv(states, steps, j);
  }

  /** In every state of every run: each buffer is on exactly the ring it should be on, the hash chains hold
      the buffers of devices and no others, the counters are the lengths, at most one buffer exists for each
      block of a device, and the use counts are the references held. */
  lemma CacheIsWellFormed(states: seq<State>, steps: seq<Step>, j: nat)
    requires Run(states, steps) && j < |states|
    ensures var s := states[j]; Ok(s.c, {}) && Unique(s.c, {}) && forall b :: AllRefs(s.tasks)[b] == Count(s.c, b)
  {
    RunInv(states, steps, j);
  }

  /** Whatever step comes next finds its buffer on the ring it is taken from: no `list corrupted` panic. */
  lemma NoPanic(states: seq<State>, steps: seq<Step>, j: nat, step: Step)
    requires Run(states, steps) && j < |states| && Ok(states[j].c, {}) && Enabled(states[j], step)
    ensures CanDo(states[j], step)
  {
    RunInv(states, steps, j);
    CanAlways(states[j], step);
  }

  // ---------- steps in a row ----------

  /** What `refill_freelist` and the functions it calls do. */
  predicate Refills(step: Step) { step.ReclaimIt? || step.DropIt? || step.GrowIt? || step.RotateIt? }

  ghost predicate CacheNext(c: Cache, step: Step, c': Cache) {
    Refills(step) && Ok(c, {}) && CacheEnabled(c, step) && CanCache(c, step) && c' == CacheTo(c, step)
  }

  ghost predicate Chain(caches: seq<Cache>, steps: seq<Step>) {
    |caches| == |steps| + 1 && forall i :: 0 <= i < |steps| ==> CacheNext(caches[i], steps[i], caches[i + 1])
  }

  /** Some such steps lead from one cache to the other. */
  ghost predicate Via(c: Cache, c': Cache) {
    exists caches, steps :: Chain(caches, steps) && caches[0] == c && caches[|steps|] == c'
  }

  lemma ViaNone(c: Cache)
    ensures Via(c, c)
  {
    assert Chain([c], []);
  }

  lemma ViaOne(c: Cache, step: Step, c': Cache)
    requires CacheNext(c, step, c')
    ensures Via(c, c')
  {
    var caches, steps := [c, c'], [step];
    assert Chain(caches, steps) && caches[0] == c && caches[|steps|] == c';
  }

  lemma ViaBoth(c: Cache, d: Cache, e: Cache)
    requires Via(c, d) && Via(d, e)
    ensures Via(c, e)
  {
    hide CacheNext;
    var cs, xs :| Chain(cs, xs) && cs[0] == c && cs[|xs|] == d;
    var ds, ys :| Chain(ds, ys) && ds[0] == d && ds[|ys|] == e;
    var caches, steps := cs + ds[1..], xs + ys;
    forall i | 0 <= i < |steps| ensures CacheNext(caches[i], steps[i], caches[i + 1]) {
      if i < |xs| {
        assert CacheNext(cs[i], xs[i], cs[i + 1]);
      } else {
        assert CacheNext(ds[i - |xs|], ys[i - |xs|], ds[i - |xs| + 1]);
      }
    }
    assert Chain(caches, steps) && caches[0] == c && caches[|steps|] == e;
  }

  lemma CacheStep(s: State, step: Step, c': Cache)
    requires CacheNext(s.c, step, c')
    ensures Next(s, step, s.(c := c'))
  {
    hide Ok;
  }

  /** In any state they are a run of the protocol, so the invariant holds afterwards. */
  lemma ViaIsRun(s: State, c': Cache) returns (states: seq<State>, steps: seq<Step>)
    requires Inv(s) && Via(s.c, c')
    ensures |states| == |steps| + 1 && states[0] == s && states[|steps|] == s.(c := c') && Inv(s.(c := c'))
    ensures forall i :: 0 <= i < |steps| ==> Refills(steps[i]) && Next(states[i], steps[i], states[i + 1])
  {
    hide Inv, CacheNext, Next;
    var caches, xs :| Chain(caches, xs) && caches[0] == s.c && caches[|xs|] == c';
    steps := xs;
    states := seq(|caches|, i requires 0 <= i < |caches| => s.(c := caches[i]));
    forall i | 0 <= i < |steps| ensures Refills(steps[i]) && Next(states[i], steps[i], states[i + 1]) {
      OfRefill(caches[i], steps[i], caches[i + 1]);
      CacheStep(states[i], steps[i], caches[i + 1]);
    }
    assert states[0] == s;
    NextsInv(states, steps, |steps|);
  }

  lemma OfRefill(c: Cache, step: Step, c': Cache)
    requires CacheNext(c, step, c')
    ensures Refills(step)
  {
  }

  lemma {:induction false} NextsInv(states: seq<State>, steps: seq<Step>, n: nat)
    requires |states| == |steps| + 1 && n <= |steps| && Inv(states[0])
    requires forall i :: 0 <= i < |steps| ==> Next(states[i], steps[i], states[i + 1])
    ensures Inv(states[n])
  {
    hide Inv, Ok, Enabled, CanDo;
    if n > 0 {
      NextsInv(states, steps, n - 1);
      assert Next(states[n - 1], steps[n - 1], states[n - 1 + 1]);
      StepInv(states[n - 1], steps[n - 1]);
    }
  }

  // ---------- what getblk returns ----------

  predicate Busy(ts: Task, mine: multiset<Bh>, key: Key) {
    (ts.Looking? || ts.Waiting? || ts.Refilling?) && ts.mine == mine && ts.key == key
  }

  ghost predicate Returned(s: State, ts: Task, mine: multiset<Bh>, key: Key) {
    ts.Idle? && exists b :: ts.mine == mine + multiset{b} && Found(s, b, key)
  }

  lemma GetblkStep(s: State, step: Step, t: nat, mine: multiset<Bh>, key: Key)
    requires Inv(s) && Enabled(s, step) && CanDo(s, step) && t < |s.tasks| && Busy(s.tasks[t], mine, key)
    ensures var s' := Do(s, step);
            |s'.tasks| == |s.tasks| && s'.bsize == s.bsize &&
            (Busy(s'.tasks[t], mine, key) || Returned(s', s'.tasks[t], mine, key))
  {
    hide Ok, AllRefs, SizeIndex, Take, CacheTo, CanCache;
    assert OkTask(s, s.tasks[t]);
    if step.Wake? && step.t == t {
      assert Found(s, s.tasks[t].b, key) ==> Found(Do(s, step), s.tasks[t].b, key);
    }
    if step.TakeFree? && step.t == t {
      var i := SizeIndex(s.bsize(key.dev));
      var b := s.c.free[i][0];
      FreeHead(s.c, i);
      forall a | a in s.c.bufs ensures !(Named(s.c.bufs[a]) && s.c.bufs[a].key == key) {
        assert !Found(s, a, key);
      }
      TakeOk(s.c, b, key);
      FreeUnused(s.c, b);
      SizeOf(s.c.bufs[b].size, s.bsize(key.dev));
      assert Found(Do(s, step), b, key);
    }
  }

  lemma BeginStep(s: State, t: nat, key: Key)
    requires t < |s.tasks| && CanDo(s, Begin(t, key))
    ensures var s' := Do(s, Begin(t, key)); |s'.tasks| == |s.tasks| && Busy(s'.tasks[t], s.tasks[t].mine, key)
  {
  }

  lemma NotReturned(s: State, ts: Task, mine: multiset<Bh>, key: Key)
    requires !ts.Idle?
    ensures !Returned(s, ts, mine, key)
  {
  }

  lemma {:induction false} GetblkKept(states: seq<State>, steps: seq<Step>, a: nat, b: nat, t: nat, key: Key)
    requires Run(states, steps) && a < b < |states| && t < |states[a].tasks| && steps[a] == Begin(t, key)
    requires forall c :: a < c < b ==> t < |states[c].tasks| && !states[c].tasks[t].Idle?
    ensures t < |states[b].tasks|
    ensures var ts, mine := states[b].tasks[t], states[a].tasks[t].mine;
            Busy(ts, mine, key) || Returned(states[b], ts, mine, key)
    decreases b
  {
    hide Ok, Enabled, CanDo, Do, Busy, Returned, Inv;
    assert Next(states[b - 1], steps[b - 1], states[b - 1 + 1]);
    if b == a + 1 {
      BeginStep(states[a], t, key);
    } else {
      assert !states[b - 1].tasks[t].Idle?;
      GetblkKept(states, steps, a, b - 1, t, key);
      RunInv(states, steps, b - 1);
      NotReturned(states[b - 1], states[b - 1].tasks[t], states[a].tasks[t].mine, key);
      GetblkStep(states[b - 1], steps[b - 1], t, states[a].tasks[t].mine, key);
    }
  }

  /** A call of `getblk`, whatever the other tasks do meanwhile: when it returns the caller has one more
      reference, to the only buffer of that block, and it has the device's block size. */
  lemma GetblkReturns(states: seq<State>, steps: seq<Step>, a: nat, b: nat, t: nat, key: Key) returns (bh: Bh)
    requires Run(states, steps) && a < b < |states| && t < |states[a].tasks| && steps[a] == Begin(t, key)
    requires forall c :: a < c < b ==> t < |states[c].tasks| && !states[c].tasks[t].Idle?
    requires t < |states[b].tasks| && states[b].tasks[t].Idle?
    ensures states[b].tasks[t].mine == states[a].tasks[t].mine + multiset{bh}
    ensures var s := states[b];
            && Found(s, bh, key) && s.c.bufs[bh].count > 0
            && forall x :: x in s.c.bufs && Named(s.c.bufs[x]) && s.c.bufs[x].key == key ==> x == bh
  {
    GetblkKept(states, steps, a, b, t, key);
    var s, mine := states[b], states[a].tasks[t].mine;
    bh :| s.tasks[t].mine == mine + multiset{bh} && Found(s, bh, key);
    RunInv(states, steps, b);
    InUse(s, t, bh);
    forall x | x in s.c.bufs && Named(s.c.bufs[x]) && s.c.bufs[x].key == key ensures x == bh {
      assert Twins(s.c.bufs[x], s.c.bufs[bh]);
    }
  }
}
