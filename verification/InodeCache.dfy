/** The inode cache (fs/inode.c): look-up, release and reuse by any number of tasks, each running
    atomically between the points where it may sleep. */
module InodeCache {
  import opened Lists
  import opened Base

  type Ptr = nat
  datatype Key = Key(dev: bv32, ino: bv32)

  /** Locks, dirt and cached pages decide which free inode is taken, and when: they are left to chance. */
  datatype Inode = Inode(key: Key, hashed: bool, count: nat, condemned: bool)

  /** What a task is in the middle of.  `mine` are the references it holds otherwise. */
  datatype Task =
    | Idle(mine: seq<Handle>)
    | Looking(mine: seq<Handle>, key: Key, empty: Option<Ptr>)           // __iget at `repeat`
    | Choosing(mine: seq<Handle>, why: Option<Key>)                      // get_empty_inode at `repeat`
    | Clearing(mine: seq<Handle>, why: Option<Key>, best: Ptr)           // asleep in clear_inode
    | Waiting(mine: seq<Handle>, key: Key, found: Ptr, empty: Option<Ptr>) // wait_on_inode in __iget
    | Reading(mine: seq<Handle>, key: Key, loaded: Ptr)                   // read_inode in __iget
    | Putting(mine: seq<Handle>, gone: Ptr, result: Option<Handle>)      // iput, maybe on the way out of __iget
    | Whee(mine: seq<Handle>)                                            // the inode changed while __iget slept

  /** A reference a caller holds: to the inode of a file, or (no key) to a nameless one such as a pipe. */
  datatype Handle = Handle(p: Ptr, key: Option<Key>)

  datatype State = State(inodes: seq<Inode>, tasks: seq<Task>, nrFree: int)

  datatype Step =
    | Begin(t: nat, key: Key)              // __iget is called
    | BeginEmpty(t: nat)                   // get_empty_inode is called for a nameless inode
    | BeginPut(t: nat, i: nat)             // iput is called on the i-th reference
    | Share(t: nat, i: nat)                // a holder takes one more reference
    | Name(t: nat, i: nat, key: Key)       // a file system hashes the inode it got for a new file
    | Sleep(t: nat)                        // asleep for any of the reasons that change nothing here
    | Miss(t: nat)                         // no inode has the number: get_empty_inode, or use `empty`
    | Hit(t: nat, p: Ptr)                  // an inode of the number is found
    | Grow(n: nat)                         // grow_inodes
    | Choose(t: nat, p: Ptr)               // found_good: clear_inode starts
    | Clear(t: nat)                        // clear_inode ends
    | Wake(t: nat)                         // wait_on_inode or read_inode is over
    | Put(t: nat, last: bool)              // iput gives the reference up

  // ---------- references ----------

  function Has(h: Handle, p: Ptr): nat { if h.p == p then 1 else 0 }

  function HeldBy(mine: seq<Handle>, p: Ptr): nat {
    if mine == [] then 0 else HeldBy(mine[..|mine| - 1], p) + Has(mine[|mine| - 1], p)
  }

  function One(q: Ptr, p: Ptr): nat { if q == p then 1 else 0 }

  function Opt(e: Option<Ptr>, p: Ptr): nat { if e == Some(p) then 1 else 0 }

  /** The references to `p` that a task accounts for. */
  function Refs(ts: Task, p: Ptr): nat {
    HeldBy(ts.mine, p) +
    match ts
    case Idle(_) => 0
    case Looking(_, _, e) => Opt(e, p)
    case Choosing(_, _) => 0
    case Clearing(_, _, b) => One(b, p)
    case Waiting(_, _, f, e) => One(f, p) + Opt(e, p)
    case Reading(_, _, f) => One(f, p)
    case Putting(_, g, r) => One(g, p) + (if r.Some? then One(r.value.p, p) else 0)
    case Whee(_) => 0
  }

  function AllRefs(tasks: seq<Task>, p: Ptr): nat {
    if tasks == [] then 0 else AllRefs(tasks[..|tasks| - 1], p) + Refs(tasks[|tasks| - 1], p)
  }

  /** Unreferenced, or in teardown for reuse. */
  function Free(x: Inode): nat { if x.count == 0 || x.condemned then 1 else 0 }

  function FreeCount(inodes: seq<Inode>): nat {
    if inodes == [] then 0 else FreeCount(inodes[..|inodes| - 1]) + Free(inodes[|inodes| - 1])
  }

  // ---------- the steps ----------

  function SetI(s: State, p: Ptr, x: Inode): State
    requires p < |s.inodes|
  {
    s.(inodes := s.inodes[p := x])
  }

  function SetT(s: State, t: nat, ts: Task): State
    requires t < |s.tasks|
  {
    s.(tasks := s.tasks[t := ts])
  }

  predicate Matches(x: Inode, key: Key) { x.hashed && x.key == key }

  /** No inode has the identity. */
  predicate Unnamed(inodes: seq<Inode>, key: Key) { forall p :: 0 <= p < |inodes| ==> !Matches(inodes[p], key) }

  /** The task has the only reference to a nameless inode. */
  predicate CanName(s: State, t: nat, i: nat) {
    && t < |s.tasks| && s.tasks[t].Idle? && i < |s.tasks[t].mine|
    && var h := s.tasks[t].mine[i]; h.key.None? && h.p < |s.inodes| && s.inodes[h.p].count == 1
  }

  /** `insert_inode_hash` called by a file system, as in fs/ext2/ialloc.c:485. */
  function Named(s: State, t: nat, i: nat, key: Key): State
    requires CanName(s, t, i)
  {
    var mine := s.tasks[t].mine;
    var p := mine[i].p;
    SetT(SetI(s, p, s.inodes[p].(key := key, hashed := true)), t, Idle(mine[i := Handle(p, Some(key))]))
  }

  predicate Enabled(s: State, step: Step) {
    match step
    case Begin(t, _) => t < |s.tasks| && s.tasks[t].Idle?
    case BeginEmpty(t) => t < |s.tasks| && s.tasks[t].Idle?
    case BeginPut(t, i) => t < |s.tasks| && s.tasks[t].Idle? && i < |s.tasks[t].mine|
    case Share(t, i) =>
      t < |s.tasks| && s.tasks[t].Idle? && i < |s.tasks[t].mine| && s.tasks[t].mine[i].p < |s.inodes|
    case Name(t, i, key) => CanName(s, t, i) && Unnamed(s.inodes, key)
    case Sleep(t) => t < |s.tasks|
    case Miss(t) =>
      && t < |s.tasks| && s.tasks[t].Looking?
      && Unnamed(s.inodes, s.tasks[t].key)
      && (s.tasks[t].empty.Some? ==> s.tasks[t].empty.value < |s.inodes|)
    case Hit(t, p) =>
      && t < |s.tasks| && s.tasks[t].Looking? && p < |s.inodes|
      && Matches(s.inodes[p], s.tasks[t].key) && !s.inodes[p].condemned
    case Grow(n) => true
    case Choose(t, p) => t < |s.tasks| && s.tasks[t].Choosing? && p < |s.inodes| && s.inodes[p].count == 0
    case Clear(t) => t < |s.tasks| && s.tasks[t].Clearing? && s.tasks[t].best < |s.inodes|
    case Wake(t) =>
      t < |s.tasks| && (s.tasks[t].Reading? || (s.tasks[t].Waiting? && s.tasks[t].found < |s.inodes|))
    case Put(t, last) =>
      && t < |s.tasks| && s.tasks[t].Putting? && s.tasks[t].gone < |s.inodes|
      && if last then s.inodes[s.tasks[t].gone].count == 1 else s.inodes[s.tasks[t].gone].count > 1
  }

  const BLANK: Inode := Inode(Key(0, 0), false, 0, false)

  function Do(s: State, step: Step): State
    requires Enabled(s, step)
  {
    match step
    case Begin(t, key) => SetT(s, t, Looking(s.tasks[t].mine, key, None))
    case BeginEmpty(t) => SetT(s, t, Choosing(s.tasks[t].mine, None))
    case BeginPut(t, i) =>
      var mine := s.tasks[t].mine;
      SetT(s, t, Putting(RemoveAt(mine, i), mine[i].p, None))
    case Share(t, i) =>
      var h := s.tasks[t].mine[i];
      var x := s.inodes[h.p];
      SetT(SetI(s, h.p, x.(count := x.count + 1)), t, Idle(s.tasks[t].mine + [h]))
    case Name(t, i, key) => Named(s, t, i, key)
    case Sleep(t) => s
    case Miss(t) =>
      var ts := s.tasks[t];
      if ts.empty.None? then SetT(s, t, Choosing(ts.mine, Some(ts.key)))
      else
        var e := ts.empty.value;
        SetT(SetI(s, e, s.inodes[e].(key := ts.key, hashed := true)), t, Reading(ts.mine, ts.key, e))
    case Hit(t, p) =>
      var ts, x := s.tasks[t], s.inodes[p];
      var s1 := SetT(SetI(s, p, x.(count := x.count + 1)), t, Waiting(ts.mine, ts.key, p, ts.empty));
      if x.count == 0 then s1.(nrFree := s.nrFree - 1) else s1
    case Grow(n) => s.(inodes := s.inodes + seq(n, _ => BLANK), nrFree := s.nrFree + n)
    case Choose(t, p) =>
      var ts, x := s.tasks[t], s.inodes[p];
      SetT(SetI(s, p, x.(condemned := true, count := x.count + 1)), t, Clearing(ts.mine, ts.why, p))
    case Clear(t) =>
      var ts := s.tasks[t];
      var x := s.inodes[ts.best];
      // the reference of the teardown goes; any other would make the inode free
      var free := s.nrFree + (if x.count != 1 then 1 else 0) - 1;
      var next := if ts.why.Some? then Looking(ts.mine, ts.why.value, Some(ts.best))
                  else Idle(ts.mine + [Handle(ts.best, None)]);
      SetT(SetI(s, ts.best, BLANK.(count := 1)), t, next).(nrFree := if free < 0 then 0 else free)
    case Wake(t) =>
      var ts := s.tasks[t];
      if ts.Reading? then SetT(s, t, Idle(ts.mine + [Handle(ts.loaded, Some(ts.key))]))
      else if s.inodes[ts.found].key != ts.key then SetT(s, t, Whee(ts.mine))
      else
        var h := Handle(ts.found, Some(ts.key));
        SetT(s, t, if ts.empty.Some? then Putting(ts.mine, ts.empty.value, Some(h)) else Idle(ts.mine + [h]))
    case Put(t, last) =>
      var ts := s.tasks[t];
      var x := s.inodes[ts.gone];
      SetT(SetI(s, ts.gone, x.(count := x.count - 1)), t,
           Idle(if ts.result.Some? then ts.mine + [ts.result.value] else ts.mine))
      .(nrFree := if last then s.nrFree + 1 else s.nrFree)
  }

  // ---------- the invariant ----------

  predicate OkHandle(s: State, h: Handle) {
    && h.p < |s.inodes| && !s.inodes[h.p].condemned
    && (if h.key.Some? then Matches(s.inodes[h.p], h.key.value) else !s.inodes[h.p].hashed)
  }

  /** An inode that `get_empty_inode` has handed out: only one task knows it. */
  predicate OkEmpty(s: State, e: Ptr) {
    e < |s.inodes| && !s.inodes[e].hashed && !s.inodes[e].condemned && s.inodes[e].count == 1
  }

  predicate OkTask(s: State, ts: Task) {
    && (forall i :: 0 <= i < |ts.mine| ==> OkHandle(s, ts.mine[i]))
    && match ts
       case Idle(_) => true
       case Looking(_, _, e) => e.Some? ==> OkEmpty(s, e.value)
       case Choosing(_, _) => true
       case Clearing(_, _, b) => b < |s.inodes| && s.inodes[b].condemned && s.inodes[b].count == 1
       case Waiting(_, key, f, e) => OkHandle(s, Handle(f, Some(key))) && (e.Some? ==> OkEmpty(s, e.value))
       case Reading(_, key, f) => OkHandle(s, Handle(f, Some(key)))
       case Putting(_, g, r) => g < |s.inodes| && !s.inodes[g].condemned && (r.Some? ==> OkHandle(s, r.value))
       case Whee(_) => false
  }

  predicate Clears(ts: Task, p: Ptr) { ts.Clearing? && ts.best == p }

  /** At most one hashed inode for each device and number. */
  predicate Unique(inodes: seq<Inode>) {
    forall p, q :: 0 <= p < |inodes| && 0 <= q < |inodes| && Matches(inodes[p], inodes[q].key) && inodes[q].hashed
                   ==> p == q
  }

  predicate Torn(s: State, p: Ptr) { exists t :: 0 <= t < |s.tasks| && Clears(s.tasks[t], p) }

  ghost predicate Inv(s: State) {
    && (forall p :: 0 <= p < |s.inodes| ==> s.inodes[p].count == AllRefs(s.tasks, p))
    && (forall t :: 0 <= t < |s.tasks| ==> OkTask(s, s.tasks[t]))
    && Unique(s.inodes)
    && (forall p :: 0 <= p < |s.inodes| && s.inodes[p].condemned ==> Torn(s, p))
    && s.nrFree == FreeCount(s.inodes)
  }

  // ---------- sums ----------

  lemma {:induction false} AllRefsPut(tasks: seq<Task>, t: nat, ts: Task, p: Ptr)
    requires t < |tasks|
    ensures Refs(tasks[t], p) <= AllRefs(tasks, p)
    ensures AllRefs(tasks[t := ts], p) == AllRefs(tasks, p) - Refs(tasks[t], p) + Refs(ts, p)
  {
    var n := |tasks| - 1;
    if t == n {
      assert tasks[t := ts][..n] == tasks[..n];
    } else {
      AllRefsPut(tasks[..n], t, ts, p);
      assert tasks[t := ts][..n] == tasks[..n][t := ts];
    }
  }

  lemma TwoHolders(tasks: seq<Task>, t: nat, u: nat, p: Ptr)
    requires t < |tasks| && u < |tasks| && t != u
    ensures Refs(tasks[t], p) + Refs(tasks[u], p) <= AllRefs(tasks, p)
  {
    AllRefsPut(tasks, t, Idle([]), p);
    AllRefsPut(tasks[t := Idle([])], u, Idle([]), p);
  }

  lemma {:induction false} FreeCountPut(inodes: seq<Inode>, p: Ptr, x: Inode)
    requires p < |inodes|
    ensures Free(inodes[p]) <= FreeCount(inodes)
    ensures FreeCount(inodes[p := x]) == FreeCount(inodes) - Free(inodes[p]) + Free(x)
  {
    var n := |inodes| - 1;
    if p == n {
      assert inodes[p := x][..n] == inodes[..n];
    } else {
      FreeCountPut(inodes[..n], p, x);
      assert inodes[p := x][..n] == inodes[..n][p := x];
    }
  }

  lemma {:induction false} FreeCountGrow(inodes: seq<Inode>, n: nat)
    ensures FreeCount(inodes + seq(n, _ => BLANK)) == FreeCount(inodes) + n
  {
    var grown := inodes + seq(n, _ => BLANK);
    if n == 0 {
      assert grown == inodes;
    } else {
      FreeCountGrow(inodes, n - 1);
      assert grown[..|grown| - 1] == inodes + seq(n - 1, _ => BLANK);
    }
  }

  lemma HeldByAdd(mine: seq<Handle>, h: Handle, p: Ptr)
    ensures HeldBy(mine + [h], p) == HeldBy(mine, p) + Has(h, p)
  {
    assert (mine + [h])[..|mine|] == mine;
  }

  lemma {:induction false} HeldByWithout(mine: seq<Handle>, i: nat, p: Ptr)
    requires i < |mine|
    ensures HeldBy(mine, p) == HeldBy(RemoveAt(mine, i), p) + Has(mine[i], p)
  {
    var n := |mine| - 1;
    if i == n {
      assert RemoveAt(mine, i) == mine[..n];
    } else {
      HeldByWithout(mine[..n], i, p);
      assert RemoveAt(mine, i) == RemoveAt(mine[..n], i) + [mine[n]];
      HeldByAdd(RemoveAt(mine[..n], i), mine[n], p);
    }
  }

  lemma {:induction false} HeldByNone(s: State, mine: seq<Handle>, p: Ptr)
    requires (forall i :: 0 <= i < |mine| ==> OkHandle(s, mine[i])) && p >= |s.inodes|
    ensures HeldBy(mine, p) == 0
  {
    if mine != [] {
      var n := |mine| - 1;
      assert forall i :: 0 <= i < n ==> OkHandle(s, mine[..n][i]);
      assert OkHandle(s, mine[n]);
      HeldByNone(s, mine[..n], p);
    }
  }

  lemma {:induction false} NoRefs(s: State, tasks: seq<Task>, p: Ptr)
    requires (forall t :: 0 <= t < |tasks| ==> OkTask(s, tasks[t])) && p >= |s.inodes|
    ensures AllRefs(tasks, p) == 0
  {
    if tasks != [] {
      var n := |tasks| - 1;
      assert forall t :: 0 <= t < n ==> OkTask(s, tasks[..n][t]);
      assert OkTask(s, tasks[n]);
      NoRefs(s, tasks[..n], p);
      HeldByNone(s, tasks[n].mine, p);
    }
  }

  // ---------- frames ----------

  lemma {:induction false} HeldByOne(mine: seq<Handle>, i: nat, p: Ptr)
    requires i < |mine| && mine[i].p == p
    ensures HeldBy(mine, p) > 0
  {
    HeldByWithout(mine, i, p);
  }

  /** A task does not notice a change to an inode it has no reference to. */
  lemma Unseen(s: State, p: Ptr, x: Inode, ts: Task)
    requires p < |s.inodes| && OkTask(s, ts) && Refs(ts, p) == 0
    ensures OkTask(SetI(s, p, x), ts)
  {
    var s' := SetI(s, p, x);
    forall i | 0 <= i < |ts.mine| ensures OkHandle(s', ts.mine[i]) {
      assert OkHandle(s, ts.mine[i]);
      if ts.mine[i].p == p { HeldByOne(ts.mine, i, p); }
    }
  }

  /** Nor one of the count, unless it relies on being the only one to refer to it. */
  lemma Recounted(s: State, p: Ptr, n: nat, ts: Task)
    requires p < |s.inodes| && OkTask(s, ts)
    requires s.inodes[p].count != 1 || (s.inodes[p].hashed && !s.inodes[p].condemned)
    ensures OkTask(SetI(s, p, s.inodes[p].(count := n)), ts)
  {
    var s' := SetI(s, p, s.inodes[p].(count := n));
    forall i | 0 <= i < |ts.mine| ensures OkHandle(s', ts.mine[i]) {
      assert OkHandle(s, ts.mine[i]);
    }
  }

  // ---------- the steps keep the invariant ----------

  /** A step that changes one task and no inode. */
  lemma TaskInv(s: State, t: nat, ts: Task)
    requires Inv(s) && t < |s.tasks| && OkTask(s, ts)
    requires forall q :: 0 <= q < |s.inodes| ==> Refs(ts, q) == Refs(s.tasks[t], q)
    requires !s.tasks[t].Clearing?
    ensures Inv(SetT(s, t, ts))
  {
    hide OkTask, Refs, AllRefs, FreeCount, Unique;
    var s' := SetT(s, t, ts);
    forall p | 0 <= p < |s'.inodes| ensures s'.inodes[p].count == AllRefs(s'.tasks, p) {
      AllRefsPut(s.tasks, t, ts, p);
    }
    forall u | 0 <= u < |s'.tasks| ensures OkTask(s', s'.tasks[u]) {
      SameInodes(s, s', s'.tasks[u]);
    }
    forall p | 0 <= p < |s'.inodes| && s'.inodes[p].condemned ensures Torn(s', p) {
      var u :| 0 <= u < |s.tasks| && Clears(s.tasks[u], p);
      assert Clears(s'.tasks[u], p);
    }
  }

  lemma SameInodes(s: State, s': State, ts: Task)
    requires s.inodes == s'.inodes
    ensures OkTask(s, ts) == OkTask(s', ts)
  {
    assert forall h :: OkHandle(s, h) == OkHandle(s', h);
  }

  /** A step that changes one task and one inode. */
  lemma BothInv(s: State, t: nat, ts: Task, p: Ptr, x: Inode, free: int)
    requires Inv(s) && t < |s.tasks| && p < |s.inodes|
    requires OkTask(SetI(s, p, x), ts)
    requires forall u :: 0 <= u < |s.tasks| && u != t ==> OkTask(SetI(s, p, x), s.tasks[u])
    requires forall q :: 0 <= q < |s.inodes| && q != p ==> Refs(ts, q) == Refs(s.tasks[t], q)
    requires x.count + Refs(s.tasks[t], p) == s.inodes[p].count + Refs(ts, p)
    requires Unique(s.inodes[p := x])
    requires x.condemned ==> Clears(ts, p)
    requires s.tasks[t].Clearing? ==> s.tasks[t].best == p
    requires free == s.nrFree - Free(s.inodes[p]) + Free(x)
    ensures Inv(SetT(SetI(s, p, x), t, ts).(nrFree := free))
  {
    hide OkTask, Refs, AllRefs, FreeCount, Unique;
    var s1 := SetI(s, p, x);
    var s' := SetT(s1, t, ts).(nrFree := free);
    forall q | 0 <= q < |s'.inodes| ensures s'.inodes[q].count == AllRefs(s'.tasks, q) {
      AllRefsPut(s.tasks, t, ts, q);
    }
    forall u | 0 <= u < |s'.tasks| ensures OkTask(s', s'.tasks[u]) {
      SameInodes(s1, s', s'.tasks[u]);
    }
    forall q | 0 <= q < |s'.inodes| && s'.inodes[q].condemned ensures Torn(s', q) {
      if q == p {
        assert Clears(s'.tasks[t], q);
      } else {
        var u :| 0 <= u < |s.tasks| && Clears(s.tasks[u], q);
        assert Clears(s'.tasks[u], q);
      }
    }
    FreeCountPut(s.inodes, p, x);
  }

  lemma UniqueSame(inodes: seq<Inode>, p: Ptr, x: Inode)
    requires Unique(inodes) && p < |inodes| && (x.hashed ==> inodes[p].hashed && x.key == inodes[p].key)
    ensures Unique(inodes[p := x])
  {
  }

  lemma UniqueNew(inodes: seq<Inode>, p: Ptr, x: Inode)
    requires Unique(inodes) && p < |inodes|
    requires forall q :: 0 <= q < |inodes| ==> !Matches(inodes[q], x.key)
    ensures Unique(inodes[p := x])
  {
  }

  lemma OkAdd(s: State, mine: seq<Handle>, h: Handle)
    requires OkTask(s, Idle(mine)) && OkHandle(s, h)
    ensures OkTask(s, Idle(mine + [h]))
  {
  }

  lemma OkMine(s: State, ts: Task)
    requires OkTask(s, ts)
    ensures OkTask(s, Idle(ts.mine))
  {
  }

  lemma MissInv(s: State, t: nat)
    requires Inv(s) && Enabled(s, Miss(t)) && s.tasks[t].empty.Some?
    ensures Inv(Do(s, Miss(t)))
  {
    hide AllRefs, FreeCount, HeldBy, Unique;
    var ts := s.tasks[t];
    var e := ts.empty.value;
    var x := s.inodes[e].(key := ts.key, hashed := true);
    assert OkTask(s, ts);
    OkMine(s, ts);
    forall u | 0 <= u < |s.tasks| && u != t ensures OkTask(SetI(s, e, x), s.tasks[u]) {
      TwoHolders(s.tasks, t, u, e);
      Unseen(s, e, x, s.tasks[u]);
    }
    AllRefsPut(s.tasks, t, ts, e);
    UniqueNew(s.inodes, e, x);
    Unseen(s, e, x, Idle(ts.mine));
    BothInv(s, t, Reading(ts.mine, ts.key, e), e, x, s.nrFree);
  }

  lemma HitInv(s: State, t: nat, p: Ptr)
    requires Inv(s) && Enabled(s, Hit(t, p))
    ensures Inv(Do(s, Hit(t, p)))
  {
    var ts, x := s.tasks[t], s.inodes[p];
    var y := x.(count := x.count + 1);
    forall u | 0 <= u < |s.tasks| ensures OkTask(SetI(s, p, y), s.tasks[u]) {
      Recounted(s, p, x.count + 1, s.tasks[u]);
    }
    UniqueSame(s.inodes, p, y);
    BothInv(s, t, Waiting(ts.mine, ts.key, p, ts.empty), p, y, s.nrFree - Free(x) + Free(y));
  }

  lemma ChooseInv(s: State, t: nat, p: Ptr)
    requires Inv(s) && Enabled(s, Choose(t, p))
    ensures Inv(Do(s, Choose(t, p)))
  {
    var ts, x := s.tasks[t], s.inodes[p];
    var y := x.(condemned := true, count := x.count + 1);
    forall u | 0 <= u < |s.tasks| ensures OkTask(SetI(s, p, y), s.tasks[u]) {
      AllRefsPut(s.tasks, u, s.tasks[u], p);
      Unseen(s, p, y, s.tasks[u]);
    }
    UniqueSame(s.inodes, p, y);
    BothInv(s, t, Clearing(ts.mine, ts.why, p), p, y, s.nrFree);
  }

  lemma ClearInv(s: State, t: nat)
    requires Inv(s) && Enabled(s, Clear(t))
    ensures Inv(Do(s, Clear(t)))
  {
    hide AllRefs, FreeCount, HeldBy, Unique;
    var ts := s.tasks[t];
    var b := ts.best;
    var x, y := s.inodes[b], BLANK.(count := 1);
    assert OkTask(s, ts);
    forall u | 0 <= u < |s.tasks| && u != t ensures OkTask(SetI(s, b, y), s.tasks[u]) {
      TwoHolders(s.tasks, t, u, b);
      Unseen(s, b, y, s.tasks[u]);
    }
    AllRefsPut(s.tasks, t, ts, b);
    OkMine(s, ts);
    Unseen(s, b, y, Idle(ts.mine));
    OkAdd(SetI(s, b, y), ts.mine, Handle(b, None));
    UniqueSame(s.inodes, b, y);
    FreeCountPut(s.inodes, b, y);
    var next := if ts.why.Some? then Looking(ts.mine, ts.why.value, Some(b)) else Idle(ts.mine + [Handle(b, None)]);
    forall q | 0 <= q < |s.inodes| ensures Refs(next, q) == Refs(ts, q) {
      HeldByAdd(ts.mine, Handle(b, None), q);
    }
    BothInv(s, t, next, b, y, s.nrFree - 1);
  }

  /** The other tasks do not notice that one gives up its reference. */
  lemma PutOthers(s: State, t: nat, u: nat)
    requires Inv(s) && t < |s.tasks| && s.tasks[t].Putting? && s.tasks[t].gone < |s.inodes|
    requires s.inodes[s.tasks[t].gone].count > 0 && u < |s.tasks| && u != t
    ensures var p := s.tasks[t].gone; OkTask(SetI(s, p, s.inodes[p].(count := s.inodes[p].count - 1)), s.tasks[u])
  {
    hide AllRefs, FreeCount, HeldBy, Unique, OkTask;
    var p := s.tasks[t].gone;
    OkTask1(s, u);
    TwoHolders(s.tasks, t, u, p);
    if Refs(s.tasks[u], p) == 0 {
      Unseen(s, p, s.inodes[p].(count := s.inodes[p].count - 1), s.tasks[u]);
    } else {
      Recounted(s, p, s.inodes[p].count - 1, s.tasks[u]);
    }
  }

  /** What the task holds when it is done. */
  lemma PutRest(s: State, ts: Task, rest: Task)
    requires OkTask(s, ts) && ts.Putting?
    requires rest == Idle(if ts.result.Some? then ts.mine + [ts.result.value] else ts.mine)
    ensures OkTask(s, rest) && forall q :: 0 <= q < |s.inodes| ==> Refs(rest, q) + One(ts.gone, q) == Refs(ts, q)
  {
    hide HeldBy;
    OkMine(s, ts);
    if ts.result.Some? { OkAdd(s, ts.mine, ts.result.value); }
    forall q | 0 <= q < |s.inodes| ensures Refs(rest, q) + One(ts.gone, q) == Refs(ts, q) {
      if ts.result.Some? { HeldByAdd(ts.mine, ts.result.value, q); }
    }
  }

  lemma PutInv(s: State, t: nat, last: bool)
    requires Inv(s) && Enabled(s, Put(t, last))
    ensures Inv(Do(s, Put(t, last)))
  {
    hide AllRefs, FreeCount, HeldBy, Unique;
    var ts := s.tasks[t];
    var p := ts.gone;
    var x := s.inodes[p];
    var y := x.(count := x.count - 1);
    OkTask1(s, t);
    forall u | 0 <= u < |s.tasks| && u != t ensures OkTask(SetI(s, p, y), s.tasks[u]) {
      PutOthers(s, t, u);
    }
    AllRefsPut(s.tasks, t, ts, p);
    var rest := Idle(if ts.result.Some? then ts.mine + [ts.result.value] else ts.mine);
    PutRest(s, ts, rest);
    if x.count != 1 {
      Recounted(s, p, x.count - 1, rest);
    } else {
      Unseen(s, p, y, rest);
    }
    UniqueSame(s.inodes, p, y);
    BothInv(s, t, rest, p, y, if last then s.nrFree + 1 else s.nrFree);
  }

  lemma ShareInv(s: State, t: nat, i: nat)
    requires Inv(s) && Enabled(s, Share(t, i))
    ensures Inv(Do(s, Share(t, i)))
  {
    hide AllRefs, FreeCount, HeldBy, Unique;
    var ts := s.tasks[t];
    var h := ts.mine[i];
    var x := s.inodes[h.p];
    var y := x.(count := x.count + 1);
    assert OkTask(s, ts) && OkHandle(s, h);
    HeldByOne(ts.mine, i, h.p);
    AllRefsPut(s.tasks, t, ts, h.p);
    forall u | 0 <= u < |s.tasks| && u != t ensures OkTask(SetI(s, h.p, y), s.tasks[u]) {
      TwoHolders(s.tasks, t, u, h.p);
      if Refs(s.tasks[u], h.p) == 0 { Unseen(s, h.p, y, s.tasks[u]); } else { Recounted(s, h.p, x.count + 1, s.tasks[u]); }
    }
    OkAdd(s, ts.mine, h);
    OkIdle(s, h.p, x.count + 1, ts.mine + [h]);
    UniqueSame(s.inodes, h.p, y);
    forall q | 0 <= q < |s.inodes| ensures Refs(Idle(ts.mine + [h]), q) == Refs(ts, q) + One(h.p, q) {
      HeldByAdd(ts.mine, h, q);
    }
    BothInv(s, t, Idle(ts.mine + [h]), h.p, y, s.nrFree);
  }

  lemma OkIdle(s: State, p: Ptr, n: nat, mine: seq<Handle>)
    requires p < |s.inodes| && OkTask(s, Idle(mine))
    ensures OkTask(SetI(s, p, s.inodes[p].(count := n)), Idle(mine))
  {
    forall i | 0 <= i < |mine| ensures OkHandle(SetI(s, p, s.inodes[p].(count := n)), mine[i]) {
      assert OkHandle(s, mine[i]);
    }
  }

  /** The one reference among a task's own. */
  lemma OnlyHandle(mine: seq<Handle>, i: nat, j: nat)
    requires i < |mine| && j < |mine| && i != j && HeldBy(mine, mine[i].p) <= 1
    ensures mine[j].p != mine[i].p
  {
    var p, rest := mine[i].p, RemoveAt(mine, i);
    HeldByWithout(mine, i, p);
    if mine[j].p == p {
      assert rest[if j < i then j else j - 1] == mine[j];
      HeldByOne(rest, if j < i then j else j - 1, p);
    }
  }

  lemma NamedHandles(s: State, t: nat, i: nat, key: Key)
    requires Inv(s) && CanName(s, t, i)
    ensures var mine := s.tasks[t].mine;
            var p := mine[i].p;
            var named := mine[i := Handle(p, Some(key))];
            && OkTask(SetI(s, p, s.inodes[p].(key := key, hashed := true)), Idle(named))
            && forall q :: 0 <= q < |s.inodes| ==> HeldBy(named, q) == HeldBy(mine, q)
  {
    hide AllRefs, FreeCount, HeldBy, Unique;
    var mine := s.tasks[t].mine;
    var p := mine[i].p;
    var named, s1 := mine[i := Handle(p, Some(key))], SetI(s, p, s.inodes[p].(key := key, hashed := true));
    OkTask1(s, t);
    AllRefsPut(s.tasks, t, s.tasks[t], p);
    assert OkHandle(s, mine[i]);
    forall j | 0 <= j < |mine| ensures OkHandle(s1, named[j]) {
      assert OkHandle(s, mine[j]);
      if j != i { OnlyHandle(mine, i, j); }
    }
    forall q | 0 <= q < |s.inodes| ensures HeldBy(named, q) == HeldBy(mine, q) {
      HeldByWithout(mine, i, q);
      HeldByWithout(named, i, q);
      assert RemoveAt(named, i) == RemoveAt(mine, i);
    }
  }

  lemma NameInv(s: State, t: nat, i: nat, key: Key)
    requires Inv(s) && CanName(s, t, i) && Unnamed(s.inodes, key)
    ensures Inv(Named(s, t, i, key))
  {
    hide AllRefs, FreeCount, HeldBy, Unique;
    var mine := s.tasks[t].mine;
    var p := mine[i].p;
    var x := s.inodes[p].(key := key, hashed := true);
    NamedHandles(s, t, i, key);
    OkTask1(s, t);
    assert OkHandle(s, mine[i]);
    HeldByOne(mine, i, p);
    forall u | 0 <= u < |s.tasks| && u != t ensures OkTask(SetI(s, p, x), s.tasks[u]) {
      TwoHolders(s.tasks, t, u, p);
      Unseen(s, p, x, s.tasks[u]);
    }
    UniqueNew(s.inodes, p, x);
    BothInv(s, t, Idle(mine[i := Handle(p, Some(key))]), p, x, s.nrFree);
  }

  /** What a file system that hashes an inode itself has to see to: the invariant survives if and only if the
      number is not in use. */
  lemma NameIff(s: State, t: nat, i: nat, key: Key)
    requires Inv(s) && CanName(s, t, i)
    ensures Inv(Named(s, t, i, key)) <==> Unnamed(s.inodes, key)
  {
    hide AllRefs, FreeCount, HeldBy, OkTask;
    var p, s' := s.tasks[t].mine[i].p, Named(s, t, i, key);
    if Unnamed(s.inodes, key) {
      NameInv(s, t, i, key);
    } else {
      var q :| 0 <= q < |s.inodes| && Matches(s.inodes[q], key);
      Nameless(s, t, i);
      assert Matches(s'.inodes[q], s'.inodes[p].key) && s'.inodes[p].hashed && q != p;
    }
  }

  lemma Nameless(s: State, t: nat, i: nat)
    requires Inv(s) && CanName(s, t, i)
    ensures !s.inodes[s.tasks[t].mine[i].p].hashed
  {
    OkTask1(s, t);
    assert OkHandle(s, s.tasks[t].mine[i]);
  }

  lemma GrowInv(s: State, n: nat)
    requires Inv(s)
    ensures Inv(Do(s, Grow(n)))
  {
    hide AllRefs, FreeCount, HeldBy, Refs;
    var s' := Do(s, Grow(n));
    forall p | 0 <= p < |s'.inodes| ensures s'.inodes[p].count == AllRefs(s'.tasks, p) {
      if p >= |s.inodes| { NoRefs(s, s.tasks, p); }
    }
    forall t | 0 <= t < |s'.tasks| ensures OkTask(s', s'.tasks[t]) {
      Grown(s, n, s.tasks[t]);
    }
    forall p | 0 <= p < |s'.inodes| && s'.inodes[p].condemned ensures Torn(s', p) {
      var t :| 0 <= t < |s.tasks| && Clears(s.tasks[t], p);
      assert Clears(s'.tasks[t], p);
    }
    FreeCountGrow(s.inodes, n);
  }

  lemma Grown(s: State, n: nat, ts: Task)
    requires OkTask(s, ts)
    ensures OkTask(s.(inodes := s.inodes + seq(n, _ => BLANK), nrFree := s.nrFree + n), ts)
  {
    var s' := s.(inodes := s.inodes + seq(n, _ => BLANK), nrFree := s.nrFree + n);
    forall i | 0 <= i < |ts.mine| ensures OkHandle(s', ts.mine[i]) {
      assert OkHandle(s, ts.mine[i]);
    }
  }

  lemma BeginPutInv(s: State, t: nat, i: nat)
    requires Inv(s) && Enabled(s, BeginPut(t, i))
    ensures Inv(Do(s, BeginPut(t, i)))
  {
    hide AllRefs, FreeCount, HeldBy, Unique;
    var ts := s.tasks[t];
    var next := Putting(RemoveAt(ts.mine, i), ts.mine[i].p, None);
    assert OkTask(s, ts) && OkHandle(s, ts.mine[i]);
    forall q | 0 <= q < |s.inodes| ensures Refs(next, q) == Refs(ts, q) {
      HeldByWithout(ts.mine, i, q);
    }
    TaskInv(s, t, next);
  }

  lemma WakeInv(s: State, t: nat)
    requires Inv(s) && Enabled(s, Wake(t))
    ensures Inv(Do(s, Wake(t)))
  {
    hide AllRefs, FreeCount, HeldBy, Unique;
    var ts := s.tasks[t];
    assert OkTask(s, ts);
    OkMine(s, ts);
    var h := Handle(if ts.Reading? then ts.loaded else ts.found, Some(ts.key));
    OkAdd(s, ts.mine, h);
    var next := if ts.Waiting? && ts.empty.Some? then Putting(ts.mine, ts.empty.value, Some(h)) else Idle(ts.mine + [h]);
    forall q | 0 <= q < |s.inodes| ensures Refs(next, q) == Refs(ts, q) {
      HeldByAdd(ts.mine, h, q);
    }
    TaskInv(s, t, next);
  }

  lemma StepInv(s: State, step: Step)
    requires Inv(s) && Enabled(s, step)
    ensures Inv(Do(s, step))
  {
    hide AllRefs, FreeCount, HeldBy, Unique;
    match step
    case Begin(t, key) => OkTask1(s, t); TaskInv(s, t, Looking(s.tasks[t].mine, key, None));
    case BeginEmpty(t) => OkTask1(s, t); TaskInv(s, t, Choosing(s.tasks[t].mine, None));
    case BeginPut(t, i) => BeginPutInv(s, t, i);
    case Share(t, i) => ShareInv(s, t, i);
    case Name(t, i, key) => NameInv(s, t, i, key);
    case Sleep(t) =>
    case Miss(t) =>
      if s.tasks[t].empty.Some? {
        MissInv(s, t);
      } else {
        OkTask1(s, t);
        TaskInv(s, t, Choosing(s.tasks[t].mine, Some(s.tasks[t].key)));
      }
    case Hit(t, p) => HitInv(s, t, p);
    case Grow(n) => GrowInv(s, n);
    case Choose(t, p) => ChooseInv(s, t, p);
    case Clear(t) => ClearInv(s, t);
    case Wake(t) => WakeInv(s, t);
    case Put(t, last) => PutInv(s, t, last);
  }

  lemma OkTask1(s: State, t: nat)
    requires Inv(s) && t < |s.tasks|
    ensures OkTask(s, s.tasks[t])
  {
  }

  // ---------- runs ----------

  predicate Init(s: State) {
    s.inodes == [] && s.nrFree == 0 && forall t :: 0 <= t < |s.tasks| ==> s.tasks[t] == Idle([])
  }

  predicate Next(s: State, step: Step, s': State) { Enabled(s, step) && s' == Do(s, step) }

  predicate Run(states: seq<State>, steps: seq<Step>) {
    && |states| == |steps| + 1 && Init(states[0])
    && forall j :: 0 <= j < |steps| ==> Next(states[j], steps[j], states[j + 1])
  }

  lemma {:induction false} RunInv(states: seq<State>, steps: seq<Step>, j: nat)
    requires Run(states, steps) && j < |states|
    ensures Inv(states[j])
  {
    if j > 0 {
      RunInv(states, steps, j - 1);
      assert Next(states[j - 1], steps[j - 1], states[j - 1 + 1]);
      StepInv(states[j - 1], steps[j - 1]);
    }
  }

  /** In every state of every run: one hashed inode at most for each device and number, every count is the
      number of references held, and `nr_free_inodes` is the number of inodes that are unreferenced or in
      teardown for reuse. */
  lemma CacheIsConsistent(states: seq<State>, steps: seq<Step>, j: nat)
    requires Run(states, steps) && j < |states|
    ensures var s := states[j];
            && Unique(s.inodes) && s.nrFree == FreeCount(s.inodes)
            && (forall p :: 0 <= p < |s.inodes| ==> s.inodes[p].count == AllRefs(s.tasks, p))
            && (forall p :: 0 <= p < |s.inodes| && s.inodes[p].condemned ==> Torn(s, p) && s.inodes[p].count == 1)
            && (forall t :: 0 <= t < |s.tasks| ==> !s.tasks[t].Whee?)
  {
    RunInv(states, steps, j);
    var s := states[j];
    forall p | 0 <= p < |s.inodes| && s.inodes[p].condemned ensures s.inodes[p].count == 1 {
      var t :| 0 <= t < |s.tasks| && Clears(s.tasks[t], p);
      assert OkTask(s, s.tasks[t]);
    }
  }

  /** `clear_inode` never finds another reference, and `get_empty_inode` never a bad free count. */
  lemma NoPanic(states: seq<State>, steps: seq<Step>, j: nat, t: nat)
    requires Run(states, steps) && j < |states| && Enabled(states[j], Clear(t))
    ensures states[j].inodes[states[j].tasks[t].best].count == 1 && states[j].nrFree >= 1
  {
    RunInv(states, steps, j);
    OkTask1(states[j], t);
    FreeCountPut(states[j].inodes, states[j].tasks[t].best, BLANK);
  }

  // ---------- what __iget returns ----------

  function Goal(ts: Task): Option<Key> {
    match ts
    case Looking(_, key, _) => Some(key)
    case Choosing(_, why) => why
    case Clearing(_, why, _) => why
    case Waiting(_, key, _, _) => Some(key)
    case Reading(_, key, _) => Some(key)
    case Putting(_, _, r) => if r.Some? then r.value.key else None
    case _ => None
  }

  predicate Returned(ts: Task, mine: seq<Handle>, key: Key) {
    ts.Idle? && |ts.mine| == |mine| + 1 && ts.mine[..|mine|] == mine && ts.mine[|mine|].key == Some(key)
  }

  lemma GoalStep(s: State, step: Step, t: nat, key: Key)
    requires Inv(s) && Enabled(s, step) && t < |s.tasks| && Goal(s.tasks[t]) == Some(key)
    ensures var ts := Do(s, step).tasks[t];
            |Do(s, step).tasks| == |s.tasks| &&
            ((!ts.Idle? && Goal(ts) == Some(key) && ts.mine == s.tasks[t].mine) || Returned(ts, s.tasks[t].mine, key))
  {
    hide AllRefs, FreeCount, HeldBy, Unique, Inv, OkEmpty;
    OkTask1(s, t);
  }

  lemma {:induction false} GoalKept(states: seq<State>, steps: seq<Step>, a: nat, b: nat, t: nat, key: Key)
    requires Run(states, steps) && a < b < |states| && t < |states[a].tasks| && steps[a] == Begin(t, key)
    requires forall c :: a < c < b ==> t < |states[c].tasks| && !states[c].tasks[t].Idle?
    ensures t < |states[b].tasks|
    ensures var ts, mine := states[b].tasks[t], states[a].tasks[t].mine;
            if ts.Idle? then Returned(ts, mine, key) else Goal(ts) == Some(key) && ts.mine == mine
    decreases b
  {
    hide Inv, Enabled;
    assert Next(states[b - 1], steps[b - 1], states[b - 1 + 1]);
    if b > a + 1 {
      GoalKept(states, steps, a, b - 1, t, key);
      RunInv(states, steps, b - 1);
      GoalStep(states[b - 1], steps[b - 1], t, key);
    }
  }

  /** A call of `__iget` for `key`, whatever the other tasks do meanwhile: when it returns, the caller has
      one more reference, to the one hashed inode of that identity, and that is not condemned. */
  lemma IgetReturns(states: seq<State>, steps: seq<Step>, a: nat, b: nat, t: nat, key: Key) returns (p: Ptr)
    requires Run(states, steps) && a < b < |states| && t < |states[a].tasks| && steps[a] == Begin(t, key)
    requires forall c :: a < c < b ==> t < |states[c].tasks| && !states[c].tasks[t].Idle?
    requires t < |states[b].tasks| && states[b].tasks[t].Idle?
    ensures states[b].tasks[t].mine == states[a].tasks[t].mine + [Handle(p, Some(key))]
    ensures var s := states[b];
            && p < |s.inodes| && s.inodes[p].count > 0 && !s.inodes[p].condemned
            && forall q :: 0 <= q < |s.inodes| ==> (Matches(s.inodes[q], key) <==> q == p)
  {
    GoalKept(states, steps, a, b, t, key);
    RunInv(states, steps, b);
    var s := states[b];
    var ts, n := s.tasks[t], |states[a].tasks[t].mine|;
    p := ts.mine[n].p;
    assert OkTask(s, ts) && OkHandle(s, ts.mine[n]);
    HeldByOne(ts.mine, n, p);
    AllRefsPut(s.tasks, t, ts, p);
  }
}
