/** When a hit in the directory name cache returns the number last added for the name.  `dcache_add` changes
    only the copy it finds, so an older copy on level 1 can come to light when the one on level 2 is flushed
    (fs/dcache.c:168-222). */
module DirCacheHits {
  import opened Base
  import opened Lists
  import opened DirCache

  /** What a look-up would return. */
  function Answer(c: Cache, k: Key): Option<nat>
    requires |c.chains| == DCACHE_HASH_QUEUES
  {
    match FindIn(c, k)
    case None => None
    case Some(s) => Some(c.data[s].ino)
  }

  // ---------- copies ----------

  /** The level-2 copy answers; without one, the level-1 copy; without any, none. */
  lemma AnswerIs(c: Cache, k: Key)
    requires Inv(c) && |k.name| <= DCACHE_NAME_LEN
    ensures Answer(c, k) == None <==> forall s :: !CopyAt(c, k, s)
    ensures forall s :: CopyAt(c, k, s) && s.L2? ==> FindIn(c, k) == Some(s)
    ensures forall s :: CopyAt(c, k, s) && (forall t :: CopyAt(c, k, t) ==> t.L1?) ==> FindIn(c, k) == Some(s)
  {
    var chain := c.chains[Bucket(k)];
    FindNone(chain, c.data, k);
    forall s | CopyAt(c, k, s) && s.L2? ensures FindIn(c, k) == Some(s) {
      FindsKept(c, k, s.i);
    }
    forall s | CopyAt(c, k, s) && (forall t :: CopyAt(c, k, t) ==> t.L1?) ensures FindIn(c, k) == Some(s) {
      var r := FindIn(c, k).value;
      assert CopyAt(c, k, r);
      OneCopy(c, k, r, s);
    }
  }

  lemma OneCopy(c: Cache, k: Key, s: Slot, t: Slot)
    requires Inv(c) && CopyAt(c, k, s) && CopyAt(c, k, t) && SameLevel(s, t)
    ensures s == t
  {
    var chain := c.chains[Bucket(k)];
    var x :| 0 <= x < |chain| && chain[x] == s;
    var y :| 0 <= y < |chain| && chain[y] == t;
    assert ChainOk(chain, c.data, Bucket(k));
  }

  /** Which copies there are once a slot has been refilled. */
  lemma RefillCopies(c: Cache, s: Slot, e: Entry, k: Key, t: Slot)
    requires Inv(c)
    ensures CopyAt(Refill(c, s, e), k, t) <==> if t == s then e.key == k else CopyAt(c, k, t)
    ensures t != s && t in c.data ==> t in Refill(c, s, e).data && Refill(c, s, e).data[t] == c.data[t]
    ensures Refill(c, s, e).data[s] == e
  {
    UnhashInv(c, s);
  }

  lemma OrderApart(c: Cache, d: Cache, k: Key, t: Slot)
    requires |c.chains| == DCACHE_HASH_QUEUES && c.chains == d.chains && c.data == d.data
    ensures CopyAt(c, k, t) <==> CopyAt(d, k, t)
    ensures Answer(c, k) == Answer(d, k)
  {
  }

  /** Two caches with the same copies answer alike. */
  lemma SameAnswer(c: Cache, c': Cache, k: Key)
    requires Inv(c) && Inv(c')
    requires forall s :: CopyAt(c, k, s) <==> CopyAt(c', k, s)
    requires forall s :: CopyAt(c, k, s) && CopyAt(c', k, s) ==> c.data[s] == c'.data[s]
    ensures Answer(c, k) == Answer(c', k)
  {
    if |k.name| <= DCACHE_NAME_LEN {
      AnswerIs(c, k);
      AnswerIs(c', k);
      if Answer(c, k).Some? {
        assert CopyAt(c, k, FindIn(c, k).value);
        if s :| CopyAt(c, k, s) && s.L2? {
        } else {
          assert forall t :: CopyAt(c', k, t) ==> t.L1?;
        }
      }
    }
  }

  // ---------- one operation ----------

  /** The operation takes the slot of the level-2 copy of `k` away while a level-1 copy has another number. */
  ghost predicate Uncovers(c: Cache, op: Op, k: Key)
    requires |c.chains| == DCACHE_HASH_QUEUES && c.lru2 != []
  {
    && |k.name| <= DCACHE_NAME_LEN && op.LookupOp? && op.key != k
    && FindIn(c, op.key).Some? && FindIn(c, op.key).value.L1?
    && CopyAt(c, k, L2(c.lru2[0]))
    && exists s: Slot :: s.L1? && CopyAt(c, k, s) && c.data[s].ino != c.data[L2(c.lru2[0])].ino
  }

  function LastAfter(op: Op, k: Key, last: Option<nat>): Option<nat> {
    if op.AddOp? && op.key == k then Some(op.ino) else last
  }

  predicate Right(c: Cache, k: Key, last: Option<nat>)
    requires |c.chains| == DCACHE_HASH_QUEUES
  {
    Answer(c, k).Some? ==> Answer(c, k) == last
  }

  /** Which copies there are once a hit has copied an entry to level 2. */
  lemma PromoteCopies(c: Cache, q: Key)
    requires Inv(c) && FindIn(c, q).Some? && FindIn(c, q).value.L1?
    ensures c.lru2 != [] && Inv(Lookup(c, q).1)
    ensures var s, v, c' := FindIn(c, q).value, c.lru2[0], Lookup(c, q).1;
            && (forall k, t :: CopyAt(c', k, t) <==> if t == L2(v) then k == q else CopyAt(c, k, t))
            && (forall t :: t in c.data && t != L2(v) ==> t in c'.data && c'.data[t] == c.data[t])
            && L2(v) in c'.data && c'.data[L2(v)] == c.data[s]
  {
    hide Inv, CopyAt;
    TurnInv(c);
    LookupInv(c, q);
    var v, c', e := c.lru2[0], Lookup(c, q).1, c.data[FindIn(c, q).value];
    var d := c.(lru2 := ToTail(c.lru2, v));
    assert c' == Refill(d, L2(v), e);
    forall k, t ensures CopyAt(c', k, t) <==> if t == L2(v) then k == q else CopyAt(c, k, t) {
      RefillCopies(d, L2(v), e, k, t);
      OrderApart(c, d, k, t);
    }
    forall t | t in c.data && t != L2(v) ensures t in c'.data && c'.data[t] == c.data[t] {
      RefillCopies(d, L2(v), e, q, t);
    }
    RefillCopies(d, L2(v), e, q, L2(v));
  }

  /** A look-up that copies an entry to level 2. */
  lemma PromoteStep(c: Cache, q: Key, k: Key, last: Option<nat>)
    requires Inv(c) && FindIn(c, q).Some? && FindIn(c, q).value.L1? && Right(c, k, last)
    ensures c.lru2 != [] && Inv(Lookup(c, q).1)
    ensures Right(Lookup(c, q).1, k, last) <==> !Uncovers(c, LookupOp(q), k)
  {
    hide Inv, CopyAt, Lookup;
    TurnInv(c);
    PromoteCopies(c, q);
    var s, v, c' := FindIn(c, q).value, c.lru2[0], Lookup(c, q).1;
    TurnInv(c');
    if |k.name| <= DCACHE_NAME_LEN {
      if q == k {
        AnswerIs(c', k);
        assert CopyAt(c', k, L2(v));
      } else if CopyAt(c, k, L2(v)) {
        forall t | CopyAt(c, k, t) ensures t in c.data { CopyFacts(c, k, t); }
        LostCopy(c, c', k, v, last);
      } else {
        forall t | CopyAt(c, k, t) ensures t in c.data { CopyFacts(c, k, t); }
        SameAnswer(c, c', k);
      }
    }
  }

  lemma LostCopy(c: Cache, c': Cache, k: Key, v: nat, last: Option<nat>)
    requires Inv(c) && Inv(c') && |k.name| <= DCACHE_NAME_LEN && Right(c, k, last) && CopyAt(c, k, L2(v))
    requires forall t :: CopyAt(c', k, t) <==> t != L2(v) && CopyAt(c, k, t)
    requires forall t :: CopyAt(c', k, t) && CopyAt(c, k, t) ==> c'.data[t] == c.data[t]
    ensures Right(c', k, last) <==>
              !exists s: Slot :: s.L1? && CopyAt(c, k, s) && c.data[s].ino != c.data[L2(v)].ino
  {
    AnswerIs(c, k);
    AnswerIs(c', k);
    forall t | CopyAt(c', k, t) ensures t.L1? {
      if t.L2? { OneCopy(c, k, t, L2(v)); }
    }
    if s :| CopyAt(c', k, s) {
      assert Answer(c', k) == Some(c.data[s].ino);
      forall t: Slot | t.L1? && CopyAt(c, k, t) ensures t == s {
        OneCopy(c, k, t, s);
      }
    }
  }

  lemma {:induction false} FindUpdated(chain: seq<Slot>, data: map<Slot, Entry>, s: Slot, e: Entry, k: Key)
    requires s in data && data[s].key == e.key
    ensures Find(chain, data[s := e], k) == Find(chain, data, k)
  {
    if chain != [] { FindUpdated(chain[1..], data, s, e, k); }
  }

  /** An addition that finds an entry. */
  lemma UpdateStep(c: Cache, q: Key, ino: nat, k: Key, last: Option<nat>)
    requires Inv(c) && FindIn(c, q).Some? && Right(c, k, last)
    ensures Inv(Add(c, q, ino)) && Right(Add(c, q, ino), k, LastAfter(AddOp(q, ino), k, last))
  {
    hide Inv;
    AddInv(c, q, ino);
    TurnInv(c);
    FindUpdated(c.chains[Bucket(k)], c.data, FindIn(c, q).value, Entry(q, ino), k);
  }

  lemma CopyFacts(c: Cache, k: Key, t: Slot)
    requires |c.chains| == DCACHE_HASH_QUEUES && CopyAt(c, k, t)
    ensures t in c.data && c.data[t].key == k
  {
  }

  /** An addition that takes a level-1 slot. */
  lemma InsertStep(c: Cache, q: Key, ino: nat, k: Key, last: Option<nat>)
    requires Inv(c) && FindIn(c, q).None? && |q.name| <= DCACHE_NAME_LEN && Right(c, k, last)
    ensures Inv(Add(c, q, ino)) && Right(Add(c, q, ino), k, LastAfter(AddOp(q, ino), k, last))
  {
    hide Inv, CopyAt;
    AddInv(c, q, ino);
    TurnInv(c);
    var v, c' := c.lru1[0], Add(c, q, ino);
    var d := c.(lru1 := ToTail(c.lru1, v));
    assert c' == Refill(d, L1(v), Entry(q, ino));
    forall t ensures CopyAt(c', k, t) <==> if t == L1(v) then q == k else CopyAt(c, k, t)
             ensures t != L1(v) && t in c.data ==> t in c'.data && c'.data[t] == c.data[t] {
      RefillCopies(d, L1(v), Entry(q, ino), k, t);
      OrderApart(c, d, k, t);
    }
    assert c'.data[L1(v)] == Entry(q, ino) by { RefillCopies(d, L1(v), Entry(q, ino), k, L1(v)); }
    if |k.name| <= DCACHE_NAME_LEN {
      AnswerIs(c, k);
      AnswerIs(c', k);
      if q == k {
        assert CopyAt(c', k, L1(v));
      } else if s :| CopyAt(c, k, s) && s.L2? {
        assert CopyAt(c', k, s);
        CopyFacts(c, k, s);
      } else if s :| CopyAt(c', k, s) {
        assert CopyAt(c, k, s);
        CopyFacts(c, k, s);
      }
    }
  }

  /** Exactly which operations make the cache give a number that is not the last added. */
  lemma RightStep(c: Cache, op: Op, k: Key, last: Option<nat>)
    requires Inv(c) && Right(c, k, last)
    ensures Inv(Do(c, op)) && (Right(Do(c, op), k, LastAfter(op, k, last)) <==> !Uncovers(c, op, k))
  {
    hide Inv, CopyAt, Right, Answer;
    DoInv(c, op);
    TurnInv(c);
    match op
    case LookupOp(q) =>
      if FindIn(c, q).None? {
      } else if FindIn(c, q).value.L1? {
        PromoteStep(c, q, k, last);
      } else {
        SameRight(c, Lookup(c, q).1, k, last);
      }
    case AddOp(q, ino) =>
      if FindIn(c, q).Some? {
        UpdateStep(c, q, ino, k, last);
      } else if |q.name| <= DCACHE_NAME_LEN {
        InsertStep(c, q, ino, k, last);
      } else if q == k {
        LongName(c, k, Some(ino));
      }
  }

  lemma SameRight(c: Cache, d: Cache, k: Key, last: Option<nat>)
    requires |c.chains| == DCACHE_HASH_QUEUES && c.chains == d.chains && c.data == d.data
    ensures Right(c, k, last) <==> Right(d, k, last)
  {
  }

  lemma LongName(c: Cache, k: Key, last: Option<nat>)
    requires |c.chains| == DCACHE_HASH_QUEUES && |k.name| > DCACHE_NAME_LEN
    ensures Right(c, k, last)
  {
  }

  lemma TurnInv(c: Cache)
    requires Inv(c)
    ensures |c.chains| == DCACHE_HASH_QUEUES && c.lru1 != [] && c.lru2 != []
    ensures Inv(c.(lru1 := ToTail(c.lru1, c.lru1[0]))) && Inv(c.(lru2 := ToTail(c.lru2, c.lru2[0])))
    ensures c.lru1[0] < DCACHE_SIZE && c.lru2[0] < DCACHE_SIZE
  {
    TailRing(c.lru1, c.lru1[0]);
    TailRing(c.lru2, c.lru2[0]);
  }

  // ---------- runs ----------

  /** The number last added for `k` before operation `n`. */
  function Last(ops: seq<Op>, k: Key, n: nat): Option<nat>
    requires n <= |ops|
  {
    if n == 0 then None else LastAfter(ops[n - 1], k, Last(ops, k, n - 1))
  }

  /** Any hit on `k` in the first `n` states of the run returns the number last added. */
  ghost predicate Answers(states: seq<Cache>, ops: seq<Op>, k: Key, n: nat)
    requires Run(states, ops) && n <= |ops|
  {
    forall m :: 0 <= m <= n ==> |states[m].chains| == DCACHE_HASH_QUEUES && Right(states[m], k, Last(ops, k, m))
  }

  ghost predicate NeverUncovers(states: seq<Cache>, ops: seq<Op>, k: Key, n: nat)
    requires Run(states, ops) && n <= |ops|
  {
    forall m :: 0 <= m < n ==> !Uncovers(states[m], ops[m], k)
  }

  lemma {:induction false} AnswersUpTo(states: seq<Cache>, ops: seq<Op>, k: Key, n: nat)
    requires Run(states, ops) && n <= |ops| && |states[0].chains| == DCACHE_HASH_QUEUES && Answer(states[0], k) == None
    ensures Answers(states, ops, k, n) <==> NeverUncovers(states, ops, k, n)
  {
    hide Inv, Do, Right, Uncovers, LastAfter;
    if n == 0 {
      StartRight(states[0], k);
    } else {
      AnswersUpTo(states, ops, k, n - 1);
      RunInv(states, ops, n - 1);
      RunStep(states, ops, n - 1);
      RunInv(states, ops, n);
      TurnInv(states[n]);
      if Answers(states, ops, k, n - 1) {
        RightStep(states[n - 1], ops[n - 1], k, Last(ops, k, n - 1));
      }
      assert Answers(states, ops, k, n) <==> Answers(states, ops, k, n - 1) && Right(states[n], k, Last(ops, k, n));
    }
  }

  lemma StartRight(c: Cache, k: Key)
    requires |c.chains| == DCACHE_HASH_QUEUES && Answer(c, k) == None
    ensures Right(c, k, None)
  {
  }

  /** Over a whole run that starts without the name, its hits return the number last added if and only if
      no look-up of another name flushes its level-2 copy while a level-1 copy has another number. */
  lemma HitsReturnLast(states: seq<Cache>, ops: seq<Op>, k: Key)
    requires Run(states, ops) && |states[0].chains| == DCACHE_HASH_QUEUES && Answer(states[0], k) == None
    ensures Answers(states, ops, k, |ops|) <==> NeverUncovers(states, ops, k, |ops|)
  {
    AnswersUpTo(states, ops, k, |ops|);
  }

  // ---------- a run that uncovers an old number ----------

  /** `n` as so many binary digits. */
  function Bits(n: nat, w: nat): (b: seq<bv8>)
    ensures |b| == w
  {
    if w == 0 then [] else [if n % 2 == 0 then 0 else 1] + Bits(n / 2, w - 1)
  }

  function Named(n: nat): Key { Key(0, 0, 0, Bits(n, 8)) }

  predicate Fits(n: nat, w: nat) { if w == 0 then n == 0 else Fits(n / 2, w - 1) }

  lemma {:induction false} BitsDiffer(m: nat, n: nat, w: nat)
    requires Fits(m, w) && Fits(n, w) && m != n
    ensures Bits(m, w) != Bits(n, w)
  {
    if m % 2 == n % 2 {
      BitsDiffer(m / 2, n / 2, w - 1);
      assert Bits(m, w)[1..] == Bits(m / 2, w - 1) && Bits(n, w)[1..] == Bits(n / 2, w - 1);
    } else {
      assert Bits(m, w)[0] != Bits(n, w)[0];
    }
  }

  lemma ByteFits(n: nat)
    requires n < 256
    ensures Fits(n, 8)
  {
    var n4 := n / 2 / 2 / 2 / 2;
    assert n4 / 2 / 2 / 2 / 2 == 0;
    assert Fits(n4, 4);
    assert Fits(n / 2 / 2, 6);
  }

  lemma NamesDiffer(m: nat, n: nat)
    requires m < 256 && n < 256
    ensures Named(m) == Named(n) ==> m == n
  {
    ByteFits(m);
    ByteFits(n);
    if m != n { BitsDiffer(m, n, 8); }
  }

  /** The ring of a level, turned by `i` places. */
  predicate Turned(lru: seq<nat>, i: nat) {
    |lru| == DCACHE_SIZE && forall x :: 0 <= x < DCACHE_SIZE ==>
      lru[x] == if x + i < DCACHE_SIZE then x + i else x + i - DCACHE_SIZE
  }

  lemma TurnOne(lru: seq<nat>, i: nat)
    requires Turned(lru, i) && NoDup(lru) && i < DCACHE_SIZE
    ensures lru[0] == i && Turned(ToTail(lru, i), i + 1)
  {
    WithoutOne(lru, i, 0);
  }

  /** The names from 1 to `i` are on both levels, those from `i` + 1 on are not cached. */
  ghost predicate Filled(c: Cache, i: nat) {
    && Inv(c) && i <= DCACHE_SIZE && Turned(c.lru1, i) && Turned(c.lru2, i)
    && (forall j: nat :: 1 <= j <= i ==> CopyAt(c, Named(j), L2(j - 1)))
    && (forall j: nat, s :: i < j < 256 ==> !CopyAt(c, Named(j), s))
    && (i > 0 ==> CopyAt(c, Named(i), L1(i - 1)) && c.data[L1(i - 1)].ino == 1)
  }

  /** A name that is not cached takes the next slot of level 1. */
  lemma NewName(c: Cache, i: nat, n: nat, ino: nat)
    requires Inv(c) && Turned(c.lru1, i) && i < DCACHE_SIZE
    requires forall s :: !CopyAt(c, Named(n), s)
    ensures var c' := Add(c, Named(n), ino);
            && Inv(c') && Turned(c'.lru1, i + 1) && c'.lru2 == c.lru2
            && (forall k, t :: CopyAt(c', k, t) <==> if t == L1(i) then k == Named(n) else CopyAt(c, k, t))
            && (forall t :: t in c.data && t != L1(i) ==> t in c'.data && c'.data[t] == c.data[t])
            && L1(i) in c'.data && c'.data[L1(i)].ino == ino && FindIn(c', Named(n)) == Some(L1(i))
  {
    hide CopyAt;
    var q := Named(n);
    var e := Entry(q, ino);
    AnswerIs(c, q);
    AddInv(c, q, ino);
    TurnOne(c.lru1, i);
    TurnInv(c);
    var d, c' := c.(lru1 := ToTail(c.lru1, i)), Add(c, q, ino);
    assert c' == Refill(d, L1(i), e);
    forall k, t ensures CopyAt(c', k, t) <==> if t == L1(i) then k == q else CopyAt(c, k, t) {
      RefillCopies(d, L1(i), e, k, t);
      OrderApart(c, d, k, t);
    }
    forall t | t in c.data && t != L1(i) ensures t in c'.data && c'.data[t] == c.data[t] {
      RefillCopies(d, L1(i), e, q, t);
    }
    RefillCopies(d, L1(i), e, q, L1(i));
    AnswerIs(c', q);
    assert CopyAt(c', q, L1(i));
  }

  /** A hit on level 1 takes the next slot of level 2. */
  lemma Promoted(c: Cache, i: nat, q: Key)
    requires Inv(c) && Turned(c.lru2, i) && i < DCACHE_SIZE && FindIn(c, q).Some? && FindIn(c, q).value.L1?
    ensures var c' := Lookup(c, q).1;
            && Inv(c') && Turned(c'.lru2, i + 1) && c'.lru1 == c.lru1
            && (forall k, t :: CopyAt(c', k, t) <==> if t == L2(i) then k == q else CopyAt(c, k, t))
            && (forall t :: t in c.data && t != L2(i) ==> t in c'.data && c'.data[t] == c.data[t])
  {
    hide CopyAt;
    TurnOne(c.lru2, i);
    PromoteCopies(c, q);
  }

  lemma FillOne(c: Cache, i: nat)
    requires Filled(c, i) && i < DCACHE_SIZE
    ensures var q := Named(i + 1);
            var c1 := Add(c, q, 1);
            && |c1.chains| == DCACHE_HASH_QUEUES && c1.lru1 != [] && c1.lru2 != [] && Filled(Lookup(c1, q).1, i + 1)
  {
    hide Inv, CopyAt, Turned, Named, Add, Lookup, FindIn;
    TurnInv(c);
    var q := Named(i + 1);
    NewName(c, i, i + 1, 1);
    var c1 := Add(c, q, 1);
    TurnInv(c1);
    Promoted(c1, i, q);
    var c2 := Lookup(c1, q).1;
    TurnInv(c2);
    forall j: nat | 1 <= j <= i + 1 ensures CopyAt(c2, Named(j), L2(j - 1)) {
    }
    forall j: nat, s | i + 1 < j < 256 ensures !CopyAt(c2, Named(j), s) {
      NamesDiffer(i + 1, j);
    }
  }

  /** A run may go on with any operation. */
  lemma Extend(states: seq<Cache>, ops: seq<Op>, op: Op) returns (states': seq<Cache>, ops': seq<Op>)
    requires Run(states, ops)
    ensures Run(states', ops') && ops' == ops + [op] && |states'| == |ops'| + 1 && states'[0] == states[0]
    ensures |states| == |ops| + 1 && states'[|ops|] == states[|ops|]
    ensures var c := states[|ops|];
            |c.chains| == DCACHE_HASH_QUEUES && c.lru1 != [] && c.lru2 != [] && states'[|ops'|] == Do(c, op)
  {
    hide Do, Inv;
    RunInv(states, ops, |ops|);
    var c := states[|ops|];
    TurnInv(c);
    states', ops' := states + [Do(c, op)], ops + [op];
  }

  lemma FillNext(states: seq<Cache>, ops: seq<Op>, i: nat) returns (states': seq<Cache>, ops': seq<Op>)
    requires Run(states, ops) && |states| == |ops| + 1 && Filled(states[|ops|], i) && i < DCACHE_SIZE
    ensures Run(states', ops') && |states'| == |ops'| + 1 && states'[0] == states[0]
    ensures Filled(states'[|ops'|], i + 1)
  {
    hide Filled, Add, Lookup, Named, Run;
    FillOne(states[|ops|], i);
    states', ops' := Extend(states, ops, AddOp(Named(i + 1), 1));
    states', ops' := Extend(states', ops', LookupOp(Named(i + 1)));
  }

  lemma {:induction false} FillUp(i: nat) returns (states: seq<Cache>, ops: seq<Op>)
    requires i <= DCACHE_SIZE
    ensures Run(states, ops) && |states| == |ops| + 1 && states[0] == Empty() && Filled(states[|ops|], i)
  {
    hide Filled, Add, Lookup, Empty, Named;
    if i == 0 {
      states, ops := [Empty()], [];
      EmptyInv();
      EmptyFilled();
    } else {
      states, ops := FillUp(i - 1);
      states, ops := FillNext(states, ops, i - 1);
    }
  }

  lemma EmptyFilled()
    ensures Filled(Empty(), 0)
  {
    EmptyInv();
  }

  /** All names on level 2; the last of them has an old number on level 1, and its level-2 slot is `i` places
      from being reused. */
  ghost predicate Hidden(c: Cache, i: nat) {
    && Inv(c) && i < DCACHE_SIZE && Turned(c.lru1, 0) && Turned(c.lru2, i)
    && (forall j: nat :: 1 <= j <= DCACHE_SIZE ==> CopyAt(c, Named(j), L2(j - 1)))
    && (forall s :: !CopyAt(c, Named(200), s))
    && CopyAt(c, Named(DCACHE_SIZE), L1(DCACHE_SIZE - 1)) && c.data[L1(DCACHE_SIZE - 1)].ino == 1
    && c.data[L2(DCACHE_SIZE - 1)].ino == 2
  }

  lemma FoundOld(c: Cache)
    requires Filled(c, DCACHE_SIZE)
    ensures |c.chains| == DCACHE_HASH_QUEUES && FindIn(c, Named(DCACHE_SIZE)) == Some(L2(DCACHE_SIZE - 1))
    ensures Turned(c.lru1, 0) && Turned(c.lru2, 0) && ToTail<nat>(c.lru2, DCACHE_SIZE - 1) == c.lru2
  {
    hide CopyAt, Turned, FindIn, ToTail;
    var k := Named(DCACHE_SIZE);
    AnswerIs(c, k);
    assert CopyAt(c, k, L2(DCACHE_SIZE - 1));
    FullTurn(c.lru1);
    FullTurn(c.lru2);
  }

  lemma FullTurn(lru: seq<nat>)
    requires Turned(lru, DCACHE_SIZE) && NoDup(lru)
    ensures Turned(lru, 0) && ToTail<nat>(lru, DCACHE_SIZE - 1) == lru
  {
    WithoutOne<nat>(lru, DCACHE_SIZE - 1, DCACHE_SIZE - 1);
  }

  lemma UpdatedCopies(c: Cache, s: Slot, e: Entry, k: Key, t: Slot)
    requires |c.chains| == DCACHE_HASH_QUEUES && s in c.data && c.data[s].key == e.key
    ensures CopyAt(c.(data := c.data[s := e]), k, t) <==> CopyAt(c, k, t)
  {
  }

  lemma HideOld(c: Cache)
    requires Filled(c, DCACHE_SIZE)
    ensures |c.chains| == DCACHE_HASH_QUEUES && c.lru1 != [] && Hidden(Add(c, Named(DCACHE_SIZE), 2), 0)
  {
    hide Inv, CopyAt, Turned, Named, FindIn;
    var k, last := Named(DCACHE_SIZE), L2(DCACHE_SIZE - 1);
    TurnInv(c);
    FoundOld(c);
    AddInv(c, k, 2);
    CopyFacts(c, k, last);
    var c' := Add(c, k, 2);
    assert |k.name| <= DCACHE_NAME_LEN by { FoundShort(c, k); }
    var d := c.(data := c.data[last := Entry(k, 2)]);
    assert c' == Touch(d, last);
    assert Touch(d, last) == d.(lru2 := ToTail<nat>(d.lru2, DCACHE_SIZE - 1)) == d;
    forall q, s ensures CopyAt(c', q, s) <==> CopyAt(c, q, s) {
      UpdatedCopies(c, last, Entry(k, 2), q, s);
    }
    CopyFacts(c, k, L1(DCACHE_SIZE - 1));
  }

  lemma FoundShort(c: Cache, k: Key)
    requires |c.chains| == DCACHE_HASH_QUEUES && FindIn(c, k).Some?
    ensures |k.name| <= DCACHE_NAME_LEN
  {
  }

  lemma TurnHidden(c: Cache, i: nat)
    requires Hidden(c, i) && i < DCACHE_SIZE - 1
    ensures Hidden(Lookup(c, Named(i + 1)).1, i + 1)
  {
    var q := Named(i + 1);
    AnswerIs(c, q);
    LookupInv(c, q);
    assert CopyAt(c, q, L2(i));
    TurnOne(c.lru2, i);
    var c' := Lookup(c, q).1;
    assert c' == Touch(c, L2(i));
    forall k, s ensures CopyAt(c', k, s) <==> CopyAt(c, k, s) {
      OrderApart(c, c', k, s);
    }
  }

  lemma {:induction false} BringForward(states: seq<Cache>, ops: seq<Op>, i: nat)
    returns (states': seq<Cache>, ops': seq<Op>)
    requires Run(states, ops) && |states| == |ops| + 1 && Hidden(states[|ops|], 0) && i < DCACHE_SIZE
    ensures Run(states', ops') && |states'| == |ops'| + 1 && states'[0] == states[0] && Hidden(states'[|ops'|], i)
  {
    hide Hidden, Inv, Run, Lookup, Named;
    states', ops' := states, ops;
    if i > 0 {
      states', ops' := BringForward(states, ops, i - 1);
      TurnHidden(states'[|ops'|], i - 1);
      states', ops' := Extend(states', ops', LookupOp(Named(i)));
    }
  }

  lemma Uncovered(c: Cache)
    requires Hidden(c, DCACHE_SIZE - 1)
    ensures var c' := Add(c, Named(200), 3);
            && |c'.chains| == DCACHE_HASH_QUEUES && c'.lru2 != []
            && Uncovers(c', LookupOp(Named(200)), Named(DCACHE_SIZE))
  {
    hide Inv, CopyAt, Add, FindIn;
    var k := Named(DCACHE_SIZE);
    TurnInv(c);
    NewName(c, 0, 200, 3);
    var c' := Add(c, Named(200), 3);
    TurnInv(c');
    NamesDiffer(200, DCACHE_SIZE);
    assert c'.lru2[0] == DCACHE_SIZE - 1;
    assert CopyAt(c, k, L2(DCACHE_SIZE - 1));
    CopyFacts(c, k, L2(DCACHE_SIZE - 1));
    CopyFacts(c, k, L1(DCACHE_SIZE - 1));
    assert CopyAt(c', k, L1(DCACHE_SIZE - 1)) && CopyAt(c', k, L2(DCACHE_SIZE - 1));
  }

  /** From the empty cache: a name is added, used, and added again with another number; then all the other
      names of level 2 are used and one more is cached.  A hit gives the first number. */
  lemma OldNumber() returns (states: seq<Cache>, ops: seq<Op>)
    ensures Run(states, ops) && states[0] == Empty() && !Answers(states, ops, Named(DCACHE_SIZE), |ops|)
  {
    hide Filled, Hidden, Inv, Answers, Uncovers, Run, Add, Lookup, Named, Answer, Empty, NeverUncovers;
    var k := Named(DCACHE_SIZE);
    states, ops := FillUp(DCACHE_SIZE);
    HideOld(states[|ops|]);
    states, ops := Extend(states, ops, AddOp(k, 2));
    states, ops := BringForward(states, ops, DCACHE_SIZE - 1);
    Uncovered(states[|ops|]);
    states, ops := Extend(states, ops, AddOp(Named(200), 3));
    var m := |ops|;
    states, ops := Extend(states, ops, LookupOp(Named(200)));
    StartsEmpty(k);
    HitsReturnLast(states, ops, k);
    Uncovering(states, ops, k, m);
  }

  lemma StartsEmpty(k: Key)
    ensures |Empty().chains| == DCACHE_HASH_QUEUES && Answer(Empty(), k) == None
  {
  }

  lemma Uncovering(states: seq<Cache>, ops: seq<Op>, k: Key, m: nat)
    requires Run(states, ops) && m < |ops| && |states| == |ops| + 1
    requires |states[m].chains| == DCACHE_HASH_QUEUES && states[m].lru2 != [] && Uncovers(states[m], ops[m], k)
    ensures !NeverUncovers(states, ops, k, |ops|)
  {
  }
}
