/** The in-place pass of `posix_lock_file` over an inode's lock list (fs/locks.c:875-991). */
module PosixPass {
  import opened LockTypes
  import opened PosixLocks
  import opened PosixVisit

  datatype Errno = Ok | EBUSY | EAGAIN | EDEADLK | ERESTARTSYS

  /** The requests a 32-bit `off_t` spoils: the caller asks for everything up to
      OFFSET_MAX while one of its locks of the same type touches that range. */
  predicate WrapHits(locks: seq<FileLock>, c: FileLock) {
    && c.ltype != UnLck && c.end == OFFSET_MAX
    && exists i :: 0 <= i < |locks| && locks[i].owner == c.owner &&
         locks[i].ltype == c.ltype && c.start - 1 <= locks[i].end
  }

  /** Of these, the ones that also spoil the map: the lock that should have been merged is followed by one of the
      other type. */
  predicate MapHits(locks: seq<FileLock>, c: FileLock) {
    && c.ltype != UnLck && c.end == OFFSET_MAX
    && exists i, j :: 0 <= i < j < |locks| && locks[i].owner == c.owner && locks[j].owner == c.owner &&
         locks[i].ltype == c.ltype && c.start - 1 <= locks[i].end && locks[j].ltype != c.ltype
  }

  predicate StartsWithFlock(locks: seq<FileLock>) {
    locks != [] && locks[0].kind == Flock
  }

  // ---------- the list while the pass is under way ----------

  /** `before` splits the list after the kept locks and the lock `caller` points to. */
  function Whole(a: seq<FileLock>, own: seq<FileLock>, b: seq<FileLock>, p: Progress): seq<FileLock>
    requires p.j <= p.k <= |own|
  {
    a + own[..p.j] + p.mid + own[p.k..] + b
  }

  lemma AtBefore(a: seq<FileLock>, own: seq<FileLock>, b: seq<FileLock>, p: Progress, c: FileLock)
    requires p.j <= p.k <= |own|
    requires forall x :: 0 <= x < |b| ==> b[x].owner != c.owner
    requires forall x :: 0 <= x < |own| ==> own[x].owner == c.owner
    ensures var w, before := Whole(a, own, b, p), |a| + p.j + |p.mid|;
            && (before < |w| && w[before].owner == c.owner <==> p.k < |own|)
            && (p.k < |own| ==> before < |w| && w[before] == own[p.k])
            && (p.mid != [] ==> w[before - 1] == p.mid[|p.mid| - 1])
            && (p.j > 0 ==> w[|a| + p.j - 1] == own[p.j - 1])
  {
  }

  lemma WholeSkip(a: seq<FileLock>, own: seq<FileLock>, b: seq<FileLock>, p: Progress, q: Progress)
    requires p.j == p.k < |own| && p.mid == [] && q.j == q.k == p.k + 1 && q.mid == []
    ensures Whole(a, own, b, q) == Whole(a, own, b, p)
  {
    assert own[..p.j] + own[p.k..] == own[..q.j] + own[q.k..];
    assert Whole(a, own, b, p) == a + (own[..p.j] + own[p.k..]) + b;
  }

  lemma WholeReplace(a: seq<FileLock>, own: seq<FileLock>, b: seq<FileLock>, p: Progress, q: Progress)
    requires p.j <= p.k < |own| && p.mid == [] && q.j == p.j && q.k == p.k + 1 && |q.mid| == 1
    ensures var before := |a| + p.j;
            before < |Whole(a, own, b, p)| &&
            Whole(a, own, b, q) == Whole(a, own, b, p)[before := q.mid[0]]
  {
  }

  lemma WholeDelete(a: seq<FileLock>, own: seq<FileLock>, b: seq<FileLock>, p: Progress, q: Progress)
    requires p.j <= p.k < |own| && q.j == p.j && q.k == p.k + 1 && q.mid == p.mid
    ensures var w, before := Whole(a, own, b, p), |a| + p.j + |p.mid|;
            before < |w| && Whole(a, own, b, q) == w[..before] + w[before + 1..]
  {
  }

  lemma WholeMerge(a: seq<FileLock>, own: seq<FileLock>, b: seq<FileLock>, p: Progress, q: Progress)
    requires p.j <= p.k < |own| && q.j == p.j && q.k == p.k + 1 && |p.mid| == |q.mid| == 1
    ensures var w, before := Whole(a, own, b, p), |a| + p.j + 1;
            && before < |w|
            && var grown := w[before - 1 := q.mid[0]];
               Whole(a, own, b, q) == grown[..before] + grown[before + 1..]
  {
    WholeGrow(a, own, b, p, p.(mid := q.mid));
    WholeDelete(a, own, b, p.(mid := q.mid), q);
  }

  lemma WholeGrow(a: seq<FileLock>, own: seq<FileLock>, b: seq<FileLock>, p: Progress, q: Progress)
    requires p.j <= p.k <= |own| && q.j == p.j && q.k == p.k && |p.mid| == |q.mid| == 1
    ensures var before := |a| + p.j + 1;
            before - 1 < |Whole(a, own, b, p)| &&
            Whole(a, own, b, q) == Whole(a, own, b, p)[before - 1 := q.mid[0]]
  {
  }

  // ---------- accounting for the woken tasks, step by step ----------

  lemma AccountSame(own: seq<FileLock>, p: Progress, q: Progress, woken: seq<Pid>)
    requires p.j == p.k < |own| && p.mid == [] && Accounted(own, p, woken)
    requires q.j == p.j && q.k == p.k + 1 && |q.mid| == 1 && q.mid[0].blocked == own[p.k].blocked
    ensures Accounted(own, q, woken)
  {
    SleepersNext(own, p.j, p.k);
    SleepersOne(q.mid[0]);
  }

  lemma AccountWoken(own: seq<FileLock>, p: Progress, q: Progress, woken: seq<Pid>)
    requires p.j <= p.k < |own| && Accounted(own, p, woken)
    requires q.j == p.j && q.k == p.k + 1 && Sleepers(q.mid) == Sleepers(p.mid)
    ensures Accounted(own, q, woken + own[p.k].blocked)
  {
    SleepersNext(own, p.j, p.k);
    SetOfConcat(woken, own[p.k].blocked);
  }

  lemma AccountSkip(own: seq<FileLock>, p: Progress, q: Progress, woken: seq<Pid>)
    requires p.j == p.k < |own| && p.mid == [] && Accounted(own, p, woken)
    requires q.j == q.k == p.k + 1 && q.mid == []
    ensures Accounted(own, q, woken)
  {
    assert own[p.j..p.k] == own[q.j..q.k] == [];
  }

  /** Wrapping spoils `fl_end + 1` for OFFSET_MAX only. */
  lemma EndPlusOneFacts(e: int)
    requires 0 <= e <= OFFSET_MAX
    ensures EndPlusOne(e, true) == if e == OFFSET_MAX then -0x8000_0000 else e + 1
  {
  }

  /** The local variables of `posix_lock_file` during the pass.  `left` and `right` are list
      positions, -1 for NULL; `cs` and `ce` are the fields of the lock `caller` points to. */
  datatype Cursor = Cursor(before: nat, cs: int, ce: int, added: bool, left: int, right: int)

  /** Loop invariant: list and cursor agree with the progress through the caller's run. */
  ghost predicate At(flock: seq<FileLock>, a: seq<FileLock>, own: seq<FileLock>, b: seq<FileLock>,
                     c: FileLock, wrap: bool, p: Progress, cur: Cursor)
  {
    && Own(own, c) && Request(c) && Good(own, c, wrap, p)
    && (forall x :: 0 <= x < |b| ==> b[x].owner != c.owner)
    && flock == Whole(a, own, b, p)
    && cur.before == |a| + p.j + |p.mid|
    && cur.cs == p.cs && cur.ce == p.ce && cur.added == p.added
    && cur.left == (if p.hasLeft then |a| + p.j - 1 else -1) && cur.right == -1
  }

  /** The plain facts the loop body needs. */
  lemma Facts(flock: seq<FileLock>, a: seq<FileLock>, own: seq<FileLock>, b: seq<FileLock>,
              c: FileLock, wrap: bool, p: Progress, cur: Cursor)
    requires At(flock, a, own, b, c, wrap, p, cur)
    ensures p.j <= p.k <= |own| && (!p.added ==> p.j == p.k && p.mid == []) && |p.mid| <= 1
    ensures p.mid != [] <==> p.added && c.ltype != UnLck
    ensures p.hasLeft ==> p.j > 0
    ensures c.end <= p.ce <= OFFSET_MAX
    ensures cur.before < |flock| && flock[cur.before].owner == c.owner <==> p.k < |own|
    ensures p.k < |own| ==> cur.before < |flock| && flock[cur.before] == own[p.k] && WellFormed(own[p.k])
    ensures p.mid != [] ==> flock[cur.before - 1] == p.mid[0]
    ensures c.end < p.ce && p.k < |own| ==> p.ce < own[p.k].start
  {
    AtBefore(a, own, b, p, c);
    if p.k < |own| { Neighbours(own, c, p); }
  }

  /** The pass has stopped at the wrapped comparison with a lock that should have been merged. */
  ghost predicate Stuck(own: seq<FileLock>, c: FileLock, p: Progress) {
    && p.k < |own| && own[p.k].ltype == c.ltype && c.ltype != UnLck
    && p.ce == c.end == OFFSET_MAX && c.start - 1 <= own[p.k].end
  }

  /** With a wrapping `off_t` nothing has been merged yet when `fl_end + 1` goes wrong. */
  lemma WrapStop(own: seq<FileLock>, c: FileLock, p: Progress)
    requires Own(own, c) && Request(c) && Good(own, c, true, p) && p.k < |own|
    requires p.ce == OFFSET_MAX && own[p.k].ltype == c.ltype && p.cs - 1 <= own[p.k].end
    ensures Stuck(own, c, p)
  {
    Neighbours(own, c, p);
    assert p.cs < c.start ==> HeldBetween(own, p.j, p.k, c.ltype, c.start - 1);
  }

  /** The shape of list and cursor when the pass is over; `cut` says whether it stopped at a
      lock reaching beyond the caller. */
  ghost predicate Over(flock: seq<FileLock>, a: seq<FileLock>, own: seq<FileLock>, b: seq<FileLock>,
                       c: FileLock, p: Progress, cut: bool, cur: Cursor)
  {
    && p.j <= p.k <= |own| && (p.hasLeft ==> p.j > 0) && (cut ==> p.k < |own|)
    && (!p.added ==> p.j == p.k && p.mid == []) && (c.ltype == UnLck && p.hasLeft ==> p.added)
    && flock == Whole(a, own, b, p)
    && cur.before == |a| + p.j + |p.mid| && cur.cs == p.cs && cur.ce == p.ce
    && cur.added == (p.added || (cut && c.ltype == UnLck))
    && cur.right == (if cut then cur.before else -1)
    && (if cut && own[p.k].start < p.cs
        then p.j == p.k && p.mid == [] && !p.hasLeft && cur.left == cur.before
        else cur.left == if p.hasLeft then |a| + p.j - 1 else -1)
  }

  lemma EndsHere(flock: seq<FileLock>, a: seq<FileLock>, own: seq<FileLock>, b: seq<FileLock>,
                 c: FileLock, wrap: bool, p: Progress, cur: Cursor)
    requires At(flock, a, own, b, c, wrap, p, cur)
    ensures cur.right < 0 && Over(flock, a, own, b, c, p, false, cur)
  {
  }

  lemma EndsCut(flock: seq<FileLock>, a: seq<FileLock>, own: seq<FileLock>, b: seq<FileLock>,
                c: FileLock, wrap: bool, p: Progress, cur: Cursor, cur': Cursor)
    requires At(flock, a, own, b, c, wrap, p, cur) && Stop(own, c, p, true)
    requires cur' == cur.(right := cur.before,
                          left := if own[p.k].start < p.cs then cur.before else cur.left,
                          added := cur.added || c.ltype == UnLck)
    ensures Over(flock, a, own, b, c, p, true, cur')
  {
    if own[p.k].start < p.cs { StraddlerIsFirst(own, c, wrap, p); }
  }

  // ---------- each branch of the loop body keeps the invariant ----------

  lemma SkipAt(flock: seq<FileLock>, a: seq<FileLock>, own: seq<FileLock>, b: seq<FileLock>,
               c: FileLock, wrap: bool, p: Progress, cur: Cursor)
    returns (q: Progress)
    requires At(flock, a, own, b, c, wrap, p, cur) && p.k < |own|
    requires if own[p.k].ltype == c.ltype then own[p.k].end < p.cs - 1 else own[p.k].end < p.cs
    ensures At(flock, a, own, b, c, wrap, q, cur.(before := cur.before + 1))
    ensures q == p.(j := p.k + 1, k := p.k + 1) && p.mid == []
  {
    Facts(flock, a, own, b, c, wrap, p, cur);
    SkipStep(own, c, wrap, p);
    q := p.(j := p.k + 1, k := p.k + 1);
    hide Good, Own, Whole;
    WholeSkip(a, own, b, p, q);
  }

  lemma LeftAt(flock: seq<FileLock>, a: seq<FileLock>, own: seq<FileLock>, b: seq<FileLock>,
               c: FileLock, wrap: bool, p: Progress, cur: Cursor)
    returns (q: Progress)
    requires At(flock, a, own, b, c, wrap, p, cur) && p.k < |own|
    requires own[p.k].ltype != c.ltype && p.cs <= own[p.k].end <= p.ce && own[p.k].start < p.cs
    ensures var added := cur.added || c.ltype == UnLck;
            At(flock, a, own, b, c, wrap, q,
               cur.(before := cur.before + 1, left := cur.before, added := added))
    ensures q == p.(j := p.k + 1, k := p.k + 1, hasLeft := true, added := p.added || c.ltype == UnLck)
  {
    Facts(flock, a, own, b, c, wrap, p, cur);
    LeftStep(own, c, wrap, p);
    q := p.(j := p.k + 1, k := p.k + 1, hasLeft := true, added := p.added || c.ltype == UnLck);
    hide Good, Own, Whole;
    WholeSkip(a, own, b, p, q);
  }

  lemma MergeFirstAt(flock: seq<FileLock>, a: seq<FileLock>, own: seq<FileLock>, b: seq<FileLock>,
                     c: FileLock, wrap: bool, p: Progress, cur: Cursor, m: FileLock)
    returns (q: Progress)
    requires At(flock, a, own, b, c, wrap, p, cur) && p.k < |own| && !p.added
    requires own[p.k].ltype == c.ltype && !(wrap && p.ce == OFFSET_MAX)
    requires p.cs - 1 <= own[p.k].end && own[p.k].start <= p.ce + 1
    requires m == own[p.k].(start := Min(p.cs, own[p.k].start), end := Max(p.ce, own[p.k].end))
    ensures cur.before < |flock|
    ensures At(flock[cur.before := m], a, own, b, c, wrap, q,
               Cursor(cur.before + 1, m.start, m.end, true, cur.left, -1))
    ensures q == p.(k := p.k + 1, mid := [m], added := true, cs := m.start, ce := m.end) && p.mid == []
  {
    Facts(flock, a, own, b, c, wrap, p, cur);
    MergeStep(own, c, wrap, p, m);
    q := p.(k := p.k + 1, mid := [m], added := true, cs := m.start, ce := m.end);
    hide Good, Own, Whole;
    WholeReplace(a, own, b, p, q);
  }

  lemma MergeMoreAt(flock: seq<FileLock>, a: seq<FileLock>, own: seq<FileLock>, b: seq<FileLock>,
                    c: FileLock, wrap: bool, p: Progress, cur: Cursor, m: FileLock)
    returns (q: Progress)
    requires At(flock, a, own, b, c, wrap, p, cur) && p.k < |own| && p.added && p.mid != []
    requires own[p.k].ltype == c.ltype && !(wrap && p.ce == OFFSET_MAX)
    requires p.cs - 1 <= own[p.k].end && own[p.k].start <= p.ce + 1
    requires m == p.mid[0].(start := Min(p.cs, own[p.k].start), end := Max(p.ce, own[p.k].end))
    ensures 0 < cur.before < |flock|
    ensures var grown := flock[cur.before - 1 := m];
            At(grown[..cur.before] + grown[cur.before + 1..], a, own, b, c, wrap, q,
               cur.(cs := m.start, ce := m.end))
    ensures q == p.(k := p.k + 1, mid := [m], added := true, cs := m.start, ce := m.end)
  {
    hide Good, Own, Whole, WellFormed, MidOk;
    Facts(flock, a, own, b, c, wrap, p, cur);
    MergeStep(own, c, wrap, p, m);
    q := p.(k := p.k + 1, mid := [m], added := true, cs := m.start, ce := m.end);
    WholeMerge(a, own, b, p, q);
  }

  lemma DeleteAt(flock: seq<FileLock>, a: seq<FileLock>, own: seq<FileLock>, b: seq<FileLock>,
                 c: FileLock, wrap: bool, p: Progress, cur: Cursor)
    returns (q: Progress)
    requires At(flock, a, own, b, c, wrap, p, cur) && p.k < |own|
    requires own[p.k].ltype != c.ltype && (c.ltype == UnLck || p.added)
    requires p.cs <= own[p.k].start <= p.ce && own[p.k].end <= p.ce
    ensures cur.before < |flock|
    ensures At(flock[..cur.before] + flock[cur.before + 1..], a, own, b, c, wrap, q,
               cur.(added := true))
    ensures q == p.(k := p.k + 1, added := true)
  {
    Facts(flock, a, own, b, c, wrap, p, cur);
    DeleteStep(own, c, wrap, p);
    q := p.(k := p.k + 1, added := true);
    hide Good, Own, Whole;
    WholeDelete(a, own, b, p, q);
  }

  lemma ReplaceAt(flock: seq<FileLock>, a: seq<FileLock>, own: seq<FileLock>, b: seq<FileLock>,
                  c: FileLock, wrap: bool, p: Progress, cur: Cursor, m: FileLock)
    returns (q: Progress)
    requires At(flock, a, own, b, c, wrap, p, cur) && p.k < |own|
    requires own[p.k].ltype != c.ltype && c.ltype != UnLck && !p.added
    requires p.cs <= own[p.k].start && own[p.k].end <= p.ce
    requires m == own[p.k].(start := p.cs, end := p.ce, ltype := c.ltype, blocked := [])
    ensures cur.before < |flock|
    ensures At(flock[cur.before := m], a, own, b, c, wrap, q,
               cur.(before := cur.before + 1, added := true))
    ensures q == p.(k := p.k + 1, mid := [m], added := true)
  {
    Facts(flock, a, own, b, c, wrap, p, cur);
    ReplaceStep(own, c, wrap, p, m);
    q := p.(k := p.k + 1, mid := [m], added := true);
    hide Good, Own, Whole;
    WholeReplace(a, own, b, p, q);
  }

  lemma OverFacts(flock: seq<FileLock>, a: seq<FileLock>, own: seq<FileLock>, b: seq<FileLock>,
                  c: FileLock, p: Progress, cut: bool, cur: Cursor)
    requires Over(flock, a, own, b, c, p, cut, cur)
    ensures p.j <= p.k <= |own| && (p.hasLeft ==> p.j > 0) && (cut ==> p.k < |own|)
    ensures cur.cs == p.cs && cur.ce == p.ce
    ensures cur.before == |a| + p.j + |p.mid| <= |flock|
    ensures cur.right == (if cut then cur.before else -1)
    ensures !cur.added ==> p.mid == [] && (c.ltype != UnLck ==> |Middle(c, p, 0)| == 1)
    ensures cur.added ==> |Middle(c, p, 0)| == |p.mid|
    ensures if cut && own[p.k].start < p.cs
            then p.mid == [] && !p.hasLeft && cur.left == cur.before == |a| + p.j
            else cur.left == if p.hasLeft then |a| + p.j - 1 else -1
  {
  }

  /** The list after a new lock has been inserted, if one was needed. */
  function Inserted(flock: seq<FileLock>, c: FileLock, cur: Cursor, id1: nat): seq<FileLock>
    requires cur.before <= |flock|
  {
    if !cur.added then flock[..cur.before] + [NewLock(c, id1)] + flock[cur.before..] else flock
  }

  lemma InsertedIs(flock: seq<FileLock>, a: seq<FileLock>, own: seq<FileLock>, b: seq<FileLock>,
                   c: FileLock, p: Progress, cut: bool, cur: Cursor, id1: nat)
    requires Over(flock, a, own, b, c, p, cut, cur) && (c.ltype == UnLck ==> cur.added)
    ensures cur.before <= |flock|
    ensures Inserted(flock, c, cur, id1) ==
            (a + own[..p.j]) + Middle(c, p, id1) + (own[p.k..] + b)
  {
    var x, y := a + own[..p.j], own[p.k..] + b;
    assert flock == x + p.mid + y;
    if !cur.added { assert flock[..cur.before] == x && flock[cur.before..] == y; }
  }

  /** Trimming or splitting at the right end of the pass. */
  lemma RightIs(x: seq<FileLock>, m: seq<FileLock>, y: seq<FileLock>, l: FileLock, r: FileLock)
    requires y != []
    ensures var f, right := x + m + y, |x| + |m|;
            && f[right] == y[0]
            && f[right := r] == x + m + ([r] + y[1..])
            && (f[..|x|] + [l] + f[|x|..])[right + 1 := r] == (x + [l]) + m + ([r] + y[1..])
  {
    var f := x + m + y;
    assert f[..|x|] == x && f[|x|..] == m + y;
  }

  /** Trimming at the left end of the pass. */
  lemma LeftIs(x: seq<FileLock>, m: seq<FileLock>, y: seq<FileLock>, l: FileLock)
    requires x != []
    ensures var f, left := x + m + y, |x| - 1;
            f[left] == x[left] && f[left := l] == (x[..left] + [l]) + m + y
  {
  }

  lemma Reassociate(a: seq<FileLock>, k: seq<FileLock>, m: seq<FileLock>, t: seq<FileLock>, b: seq<FileLock>)
    ensures (a + k) + m + (t + b) == a + (k + m + t) + b
  {
  }

  /** The left end of the caller's run after trimming. */
  lemma LeftEnd(a: seq<FileLock>, own: seq<FileLock>, p: Progress, cut: bool, id2: nat,
                x: seq<FileLock>, x': seq<FileLock>)
    requires p.j <= p.k <= |own| && (p.hasLeft ==> p.j > 0) && (cut ==> p.k < |own|) && x == a + own[..p.j]
    requires x' == if cut && own[p.k].start < p.cs
                   then x + [TrimEnd(own[p.k], p.cs - 1).(id := id2)]
                   else if p.hasLeft then x[..|x| - 1] + [TrimEnd(own[p.j - 1], p.cs - 1)] else x
    ensures x' == a + Kept(own, p, cut, id2)
  {
    if p.hasLeft { assert x[..|x| - 1] == a + own[..p.j - 1]; }
  }

  /** The right end. */
  lemma RightEnd(own: seq<FileLock>, b: seq<FileLock>, p: Progress, cut: bool, y: seq<FileLock>, y': seq<FileLock>)
    requires p.k <= |own| && (cut ==> p.k < |own|) && y == own[p.k..] + b
    requires y' == if cut then [TrimStart(own[p.k], p.ce + 1)] + y[1..] else y
    ensures y' == Tail(own, p, cut) + b
  {
    if cut { assert y[1..] == own[p.k + 1..] + b; }
  }

  /** An unlock that met none of the caller's locks leaves the list alone. */
  lemma NothingToUnlock(a: seq<FileLock>, own: seq<FileLock>, b: seq<FileLock>,
                        c: FileLock, p: Progress, id1: nat, id2: nat)
    requires p.j == p.k <= |own| && p.mid == [] && !p.hasLeft && c.ltype == UnLck
    ensures a + Rebuilt(own, c, p, false, id1, id2) + b == Whole(a, own, b, p)
    ensures TrimWakes(own, p, false) == []
  {
  }

  lemma StartAt(flock: seq<FileLock>, c: FileLock, wrap: bool, a: seq<FileLock>, own: seq<FileLock>,
                b: seq<FileLock>)
    requires Canonical(flock) && Request(c) && Split(flock, c, a, own, b)
    ensures At(flock, a, own, b, c, wrap, Start(c), Cursor(|a|, c.start, c.end, false, -1, -1))
  {
    SplitOwn(flock, c, a, own, b);
    assert Whole(a, own, b, Start(c)) == a + own + b;
  }

  /** Stopping at the wrapped comparison leaves two locks of the same type that overlap. */
  lemma StuckNotCanonical(locks: seq<FileLock>, c: FileLock, a: seq<FileLock>, own: seq<FileLock>,
                          b: seq<FileLock>, p: Progress, id1: nat, id2: nat)
    requires Split(locks, c, a, own, b) && Own(own, c) && Request(c) && Good(own, c, true, p)
    requires Stuck(own, c, p)
    ensures WrapHits(locks, c)
    ensures var f := a + Rebuilt(own, c, p, false, id1, id2) + b; !Canonical(f) && HasPosix(f)
  {
    var l, m, r := Kept(own, p, false, id2), Middle(c, p, id1), Tail(own, p, false);
    assert locks[|a| + p.k] == own[p.k];
    var f := a + (l + m + r) + b;
    assert f[|a| + |l|] == m[0] && f[|a| + |l| + 1] == own[p.k];
    assert !Before(m[0], own[p.k]);
    assert WellFormed(own[p.k]);
  }

  ghost predicate HasPosix(locks: seq<FileLock>) { exists i :: 0 <= i < |locks| && locks[i].kind == Posix }

  /** Nobody gets a byte that was neither held nor asked for. */
  ghost predicate Within(locks: seq<FileLock>, c: FileLock, locks': seq<FileLock>) {
    forall o, ty, b :: Holds(locks', o, ty, b) ==>
      Holds(locks, o, ty, b) || (o == c.owner && ty == c.ltype != UnLck && c.start <= b <= c.end)
  }

  lemma StuckWithin(locks: seq<FileLock>, c: FileLock, a: seq<FileLock>, own: seq<FileLock>, b: seq<FileLock>,
                    p: Progress, id1: nat, id2: nat)
    requires Split(locks, c, a, own, b) && Own(own, c) && Request(c) && Good(own, c, true, p)
    ensures Within(locks, c, a + Rebuilt(own, c, p, false, id1, id2) + b)
  {
    StuckOwners(own, c, p, id1, id2);
    GoodBounds(own, c, p);
    var r := Rebuilt(own, c, p, false, id1, id2);
    hide Good, Rebuilt, Own, Request, Split, Holds;
    forall o, ty, x | Holds(a + r + b, o, ty, x)
      ensures Holds(locks, o, ty, x) || (o == c.owner && ty == c.ltype != UnLck && c.start <= x <= c.end)
    {
      JoinBytes(locks, c, a, own, b, r, o, ty, x);
      if o == c.owner {
        StuckBytes(own, c, p, id1, id2, ty, x);
        HoldsConcat(own[..p.k], own[p.k..], o, ty, x);
        assert own == own[..p.k] + own[p.k..];
      }
    }
  }

  /** A pass that ends where it should has not met a request that wrapping spoils. */
  lemma StopNotHit(locks: seq<FileLock>, c: FileLock, a: seq<FileLock>, own: seq<FileLock>,
                   b: seq<FileLock>, p: Progress, cut: bool)
    requires Split(locks, c, a, own, b) && Own(own, c) && Request(c) && Good(own, c, true, p)
    requires Stop(own, c, p, cut)
    ensures !WrapHits(locks, c)
  {
    forall i | 0 <= i < |locks| && locks[i].owner == c.owner
      ensures |a| <= i < |a| + |own| && locks[i] == own[i - |a|]
    {
    }
    assert p.k < |own| ==> WellFormed(own[p.k]);
  }

  /** The locks that the stopped pass has dealt with are dealt with as they should be. */
  lemma StuckPieces(own: seq<FileLock>, c: FileLock, p: Progress, id1: nat, id2: nat)
    requires Own(own, c) && Request(c) && Good(own, c, true, p)
    ensures Pieces(own[..p.k], c, true, p, false)
    ensures Rebuilt(own, c, p, false, id1, id2) == Rebuilt(own[..p.k], c, p, false, id1, id2) + own[p.k..]
  {
    hide Rebuilt, Own, Request;
    StuckGood(own, c, p);
    StuckOwn(own, c, p.k);
    StuckTail(own, c, p, id1, id2);
  }

  lemma StuckOwn(own: seq<FileLock>, c: FileLock, k: nat)
    requires Own(own, c) && k <= |own|
    ensures Own(own[..k], c)
  {
  }

  lemma StuckGood(own: seq<FileLock>, c: FileLock, p: Progress)
    requires Own(own, c) && Good(own, c, true, p)
    ensures Good(own[..p.k], c, true, p)
  {
    var done := own[..p.k];
    forall b | p.cs <= b < c.start || c.end < b <= p.ce ensures HeldBetween(done, p.j, p.k, c.ltype, b) {
      assert HeldBetween(own, p.j, p.k, c.ltype, b);
      var x :| p.j <= x < p.k && own[x].ltype == c.ltype && own[x].start <= b <= own[x].end;
      assert done[x] == own[x];
    }
    if p.mid != [] { StuckMid(own, c, p); }
  }

  lemma StuckTail(own: seq<FileLock>, c: FileLock, p: Progress, id1: nat, id2: nat)
    requires p.j <= p.k <= |own| && (p.hasLeft ==> p.j > 0)
    ensures Rebuilt(own, c, p, false, id1, id2) == Rebuilt(own[..p.k], c, p, false, id1, id2) + own[p.k..]
  {
    assert own[..p.k][..p.j] == own[..p.j] && own[..p.k][p.k..] == [];
    if p.hasLeft { assert own[..p.k][..p.j - 1] == own[..p.j - 1]; }
  }

  lemma StuckMid(own: seq<FileLock>, c: FileLock, p: Progress)
    requires p.j <= p.k <= |own| && p.mid != [] && MidOk(own, c, p, p.mid[0])
    ensures MidOk(own[..p.k], c, p, p.mid[0])
  {
    var m := p.mid[0];
    var x :| p.j <= x < p.k && m.id == own[x].id && (m.blocked == [] || GrownFrom(m, own[x]));
    assert own[..p.k][x] == own[x];
  }

  lemma StuckBytes(own: seq<FileLock>, c: FileLock, p: Progress, id1: nat, id2: nat, ty: LockType, b: int)
    requires Own(own, c) && Request(c) && Good(own, c, true, p)
    ensures Holds(Rebuilt(own, c, p, false, id1, id2), c.owner, ty, b) <==>
            (if c.start <= b <= c.end then ty == c.ltype && ty != UnLck else Holds(own, c.owner, ty, b)) ||
            Holds(own[p.k..], c.owner, ty, b)
  {
    hide Good, Own, Rebuilt, Request;
    StuckPieces(own, c, p, id1, id2);
    GoodBounds(own, c, p);
    var done := own[..p.k];
    RebuiltBytes(done, c, true, p, false, id1, id2, ty, b);
    HoldsConcat(Rebuilt(done, c, p, false, id1, id2), own[p.k..], c.owner, ty, b);
    assert own == done + own[p.k..];
    HoldsConcat(done, own[p.k..], c.owner, ty, b);
  }

  lemma GoodBounds(own: seq<FileLock>, c: FileLock, p: Progress)
    requires Good(own, c, true, p)
    ensures p.j <= p.k <= |own| && (p.hasLeft ==> p.j > 0)
  {
  }

  /** With the pass stopped at lock `p.k` the map is right exactly when all the locks from there on are of the
      caller's type. */
  lemma StuckRun(own: seq<FileLock>, c: FileLock, p: Progress, id1: nat, id2: nat)
    requires Own(own, c) && Request(c) && Good(own, c, true, p) && Stuck(own, c, p)
    ensures var r := Rebuilt(own, c, p, false, id1, id2);
            (forall ty, b :: Holds(r, c.owner, ty, b) <==>
               if c.start <= b <= c.end then ty == c.ltype && ty != UnLck else Holds(own, c.owner, ty, b))
            <==> forall x :: p.k < x < |own| ==> own[x].ltype == c.ltype
  {
    var r, rest := Rebuilt(own, c, p, false, id1, id2), own[p.k..];
    forall ty, b ensures Holds(r, c.owner, ty, b) <==>
      (if c.start <= b <= c.end then ty == c.ltype && ty != UnLck else Holds(own, c.owner, ty, b)) ||
      Holds(rest, c.owner, ty, b)
    {
      StuckBytes(own, c, p, id1, id2, ty, b);
    }
    forall ty, b | Holds(rest, c.owner, ty, b) ensures Holds(own, c.owner, ty, b) {
      HoldsConcat(own[..p.k], rest, c.owner, ty, b);
      assert own == own[..p.k] + rest;
    }
    hide Good, Rebuilt;
    forall x | p.k < x < |own| && own[x].ltype != c.ltype
      ensures c.start <= own[x].start <= c.end && Holds(rest, c.owner, own[x].ltype, own[x].start)
    {
      assert Before(own[p.k], own[x]) && WellFormed(own[x]) && WellFormed(own[p.k]);
      assert rest[x - p.k] == own[x];
      assert Covers(rest[x - p.k], c.owner, own[x].ltype, own[x].start);
    }
    if forall x :: p.k < x < |own| ==> own[x].ltype == c.ltype {
      forall ty, b | Holds(rest, c.owner, ty, b) ensures ty == c.ltype {
        var i :| 0 <= i < |rest| && Covers(rest[i], c.owner, ty, b);
        assert rest[i] == own[p.k + i];
      }
    }
  }

  /** The exact condition, for the whole list. */
  lemma StuckMap(locks: seq<FileLock>, c: FileLock, a: seq<FileLock>, own: seq<FileLock>, b: seq<FileLock>,
                 p: Progress, id1: nat, id2: nat)
    requires Split(locks, c, a, own, b) && Own(own, c) && Request(c) && Good(own, c, true, p) && Stuck(own, c, p)
    ensures MapOk(locks, c, a + Rebuilt(own, c, p, false, id1, id2) + b) <==> !MapHits(locks, c)
  {
    StuckRun(own, c, p, id1, id2);
    StuckOwners(own, c, p, id1, id2);
    StuckHits(locks, c, a, own, b, p);
    var r := Rebuilt(own, c, p, false, id1, id2);
    hide Good, Rebuilt, Own, Request, Stuck, MapHits, Split;
    forall o, ty, x
      ensures o != c.owner ==> (Holds(a + r + b, o, ty, x) <==> Holds(locks, o, ty, x))
      ensures o == c.owner ==> (Holds(a + r + b, o, ty, x) <==> Holds(r, o, ty, x))
      ensures o == c.owner ==> (Holds(locks, o, ty, x) <==> Holds(own, o, ty, x))
    {
      JoinBytes(locks, c, a, own, b, r, o, ty, x);
    }
  }

  lemma StuckOwners(own: seq<FileLock>, c: FileLock, p: Progress, id1: nat, id2: nat)
    requires Own(own, c) && Request(c) && Good(own, c, true, p)
    ensures var r := Rebuilt(own, c, p, false, id1, id2); forall k :: 0 <= k < |r| ==> r[k].owner == c.owner
  {
    StuckPieces(own, c, p, id1, id2);
    RebuiltOrdered(own[..p.k], c, true, p, false, id1, id2);
  }

  lemma StuckHits(locks: seq<FileLock>, c: FileLock, a: seq<FileLock>, own: seq<FileLock>, b: seq<FileLock>, p: Progress)
    requires Split(locks, c, a, own, b) && Own(own, c) && Good(own, c, true, p) && Stuck(own, c, p)
    ensures MapHits(locks, c) <==> exists x :: p.k < x < |own| && own[x].ltype != c.ltype
  {
    forall i | 0 <= i < |locks| && locks[i].owner == c.owner
      ensures |a| <= i < |a| + |own| && locks[i] == own[i - |a|]
    {
    }
    if x :| p.k < x < |own| && own[x].ltype != c.ltype {
      assert locks[|a| + p.k] == own[p.k] && locks[|a| + x] == own[x];
    }
  }

  /** What has been made of the caller's run where the pass ends. */
  ghost predicate Halted(own: seq<FileLock>, c: FileLock, wrap: bool, r: Passed) {
    && Good(own, c, wrap, r.p) && Accounted(own, r.p, r.woken)
    && (Stop(own, c, r.p, r.cut) || (wrap && Stuck(own, c, r.p) && !r.cut))
  }

  lemma MeetSameOk(own: seq<FileLock>, c: FileLock, wrap: bool, p: Progress, woken: seq<Pid>)
    requires Own(own, c) && Request(c) && Good(own, c, wrap, p) && Accounted(own, p, woken)
    requires p.k < |own| && own[p.k].ltype == c.ltype
    ensures match Meet(own[p.k], c, p, wrap)
            case Goes(q, more) => Good(own, c, wrap, q) && Accounted(own, q, woken + more)
            case Stops(cut) => Halted(own, c, wrap, Passed(p, cut, woken))
  {
    hide Accounted, HeldBetween, MidOk;
    var fl := own[p.k];
    EndPlusOneFacts(p.ce);
    assert WellFormed(fl) && woken + [] == woken;
    if fl.end < p.cs - 1 {
      SkipStep(own, c, wrap, p);
      AccountSkip(own, p, p.(j := p.k + 1, k := p.k + 1), woken);
    } else if fl.start > EndPlusOne(p.ce, wrap) {
      if wrap && p.ce == OFFSET_MAX { WrapStop(own, c, p); }
    } else {
      MergeOk(own, c, wrap, p, woken);
    }
  }

  lemma MergeOk(own: seq<FileLock>, c: FileLock, wrap: bool, p: Progress, woken: seq<Pid>)
    requires Own(own, c) && Request(c) && Good(own, c, wrap, p) && Accounted(own, p, woken)
    requires p.k < |own| && own[p.k].ltype == c.ltype && own[p.k].end >= p.cs - 1
    requires own[p.k].start <= EndPlusOne(p.ce, wrap)
    ensures MeetSame(own[p.k], p, wrap).Goes?
    ensures var v := MeetSame(own[p.k], p, wrap); Good(own, c, wrap, v.p) && Accounted(own, v.p, woken + v.woken)
  {
    hide HeldBetween, MidOk, Accounted;
    var fl, q := own[p.k], MeetSame(own[p.k], p, wrap).p;
    EndPlusOneFacts(p.ce);
    assert WellFormed(fl) && woken + [] == woken;
    MergeStep(own, c, wrap, p, q.mid[0]);
    if p.mid == [] {
      AccountSame(own, p, q, woken);
    } else {
      SleepersOne(q.mid[0]);
      SleepersOne(p.mid[0]);
      assert p.mid == [p.mid[0]] && q.mid == [q.mid[0]];
      AccountWoken(own, p, q, woken);
    }
  }

  lemma MeetOtherOk(own: seq<FileLock>, c: FileLock, wrap: bool, p: Progress, woken: seq<Pid>)
    requires Own(own, c) && Request(c) && Good(own, c, wrap, p) && Accounted(own, p, woken)
    requires p.k < |own| && own[p.k].ltype != c.ltype
    ensures match Meet(own[p.k], c, p, wrap)
            case Goes(q, more) => Good(own, c, wrap, q) && Accounted(own, q, woken + more)
            case Stops(cut) => Halted(own, c, wrap, Passed(p, cut, woken))
  {
    hide Accounted, HeldBetween, MidOk;
    var fl := own[p.k];
    assert WellFormed(fl) && woken + [] == woken;
    if fl.end < p.cs {
      SkipStep(own, c, wrap, p);
      AccountSkip(own, p, p.(j := p.k + 1, k := p.k + 1), woken);
    } else if fl.start <= p.ce && fl.end <= p.ce {
      InsideOk(own, c, wrap, p, woken);
    }
  }

  lemma InsideOk(own: seq<FileLock>, c: FileLock, wrap: bool, p: Progress, woken: seq<Pid>)
    requires Own(own, c) && Request(c) && Good(own, c, wrap, p) && Accounted(own, p, woken)
    requires p.k < |own| && own[p.k].ltype != c.ltype && p.cs <= own[p.k].end <= p.ce
    requires own[p.k].start <= p.ce
    ensures MeetOther(own[p.k], c, p).Goes?
    ensures var v := MeetOther(own[p.k], c, p); Good(own, c, wrap, v.p) && Accounted(own, v.p, woken + v.woken)
  {
    hide Accounted, HeldBetween, MidOk, Good;
    var fl, q := own[p.k], MeetOther(own[p.k], c, p).p;
    assert woken + [] == woken;
    GoodMid(own, c, wrap, p);
    if fl.start < p.cs {
      LeftStep(own, c, wrap, p);
      AccountSkip(own, p, q, woken);
    } else if p.added || c.ltype == UnLck {
      DeleteStep(own, c, wrap, p);
      AccountWoken(own, p, q, woken);
    } else {
      ReplaceStep(own, c, wrap, p, q.mid[0]);
      SleepersOne(q.mid[0]);
      assert q.mid == [q.mid[0]];
      AccountWoken(own, p, q, woken);
    }
  }

  lemma GoodMid(own: seq<FileLock>, c: FileLock, wrap: bool, p: Progress)
    requires Good(own, c, wrap, p)
    ensures p.j <= p.k <= |own| && (!p.added ==> p.j == p.k && p.mid == []) && (p.hasLeft ==> p.j > 0)
  {
  }

  /** The pass ends where it should or at the wrapped comparison, with everything accounted for. */
  lemma {:induction false} PassHalts(own: seq<FileLock>, c: FileLock, wrap: bool, p: Progress, woken: seq<Pid>)
    requires Own(own, c) && Request(c) && Good(own, c, wrap, p) && Accounted(own, p, woken)
    ensures InRun(own, p) && Halted(own, c, wrap, Pass(own, c, wrap, p, woken))
    decreases |own| - p.k
  {
    hide Good, Accounted, Own, Request, Stop, Stuck, Meet;
    GoodMid(own, c, wrap, p);
    if p.k == |own| {
      EndOfRun(own, c, p);
    } else {
      if own[p.k].ltype == c.ltype { MeetSameOk(own, c, wrap, p, woken); } else { MeetOtherOk(own, c, wrap, p, woken); }
      match Meet(own[p.k], c, p, wrap)
      case Stops(_) =>
      case Goes(q, more) =>
        assert q.k == p.k + 1 by { MeetNext(own[p.k], c, p, wrap); }
        PassHalts(own, c, wrap, q, woken + more);
    }
  }

  lemma MeetNext(fl: FileLock, c: FileLock, p: Progress, wrap: bool)
    ensures Meet(fl, c, p, wrap).Goes? ==> Meet(fl, c, p, wrap).p.k == p.k + 1
  {
  }

  lemma EndOfRun(own: seq<FileLock>, c: FileLock, p: Progress)
    requires p.k == |own|
    ensures Stop(own, c, p, false)
  {
  }

  /** The exact effect of the call, wrapped or not. */
  lemma ApplyingOk(locks: seq<FileLock>, c: FileLock, id1: nat, id2: nat, wrap: bool)
    requires Canonical(locks) && DistinctIds(locks) && Request(c)
    requires id1 != id2 && id1 !in Ids(locks) && id2 !in Ids(locks)
    ensures var r := Applying(locks, c, id1, id2, wrap);
            if wrap && WrapHits(locks, c)
            then && !Canonical(r.locks) && HasPosix(r.locks) && Within(locks, c, r.locks)
                 && (MapOk(locks, c, r.locks) <==> !MapHits(locks, c))
            else Applied(locks, c, id1, id2, r.locks, r.woken)
  {
    hide HasPosix, Within, Canonical, Applied, WrapHits, MapHits, MapOk, Split, Good, Accounted, Own, Stop, Stuck, Rebuilt, Applying;
    var n := Seek(locks, c.owner, true, 0);
    var a, own, b := SplitExists(locks, c, n);
    SplitOwn(locks, c, a, own, b);
    PartsAre(locks, c, a, own, b, id1, id2, wrap);
    assert Good(own, c, wrap, Start(c)) && Accounted(own, Start(c), []) by { StartGood(own, c, wrap); }
    PassHalts(own, c, wrap, Start(c), []);
    var r := Pass(own, c, wrap, Start(c), []);
    if Stop(own, c, r.p, r.cut) {
      if wrap { StopNotHit(locks, c, a, own, b, r.p, r.cut); }
      RebuiltApplied(locks, c, wrap, a, own, b, r.p, r.cut, id1, id2, r.woken, r.woken + TrimWakes(own, r.p, r.cut));
    } else {
      StuckNotCanonical(locks, c, a, own, b, r.p, id1, id2);
      StuckMap(locks, c, a, own, b, r.p, id1, id2);
      StuckWithin(locks, c, a, own, b, r.p, id1, id2);
    }
  }

  lemma StartGood(own: seq<FileLock>, c: FileLock, wrap: bool)
    requires Own(own, c) && Request(c)
    ensures Good(own, c, wrap, Start(c)) && Accounted(own, Start(c), [])
  {
  }

  /** The visit has gone as `Meet` says. */
  predicate Took(own: seq<FileLock>, c: FileLock, wrap: bool, p: Progress, woken: seq<Pid>,
                 stop: bool, cur': Cursor, woken': seq<Pid>, p': Progress)
    requires p.k < |own|
  {
    match Meet(own[p.k], c, p, wrap)
    case Stops(cut) => stop && p' == p && woken' == woken && cut == (cur'.right >= 0)
    case Goes(q, more) => !stop && p' == q && woken' == woken + more
  }

  lemma TookSame(own: seq<FileLock>, c: FileLock, wrap: bool, p: Progress, woken: seq<Pid>,
                 cur': Cursor, woken': seq<Pid>, p': Progress, m: FileLock)
    requires p.k < |own| && own[p.k].ltype == c.ltype && own[p.k].end >= p.cs - 1
    requires own[p.k].start <= EndPlusOne(p.ce, wrap)
    requires m == (if p.mid == [] then own[p.k] else p.mid[0])
                  .(start := Min(p.cs, own[p.k].start), end := Max(p.ce, own[p.k].end))
    requires p' == p.(k := p.k + 1, mid := [m], added := true, cs := m.start, ce := m.end)
    requires woken' == woken + if p.mid == [] then [] else own[p.k].blocked
    ensures Took(own, c, wrap, p, woken, false, cur', woken', p')
  {
  }

  lemma TookSkip(own: seq<FileLock>, c: FileLock, wrap: bool, p: Progress, woken: seq<Pid>, cur': Cursor, p': Progress)
    requires p.k < |own| && own[p.k].ltype == c.ltype && own[p.k].end < p.cs - 1
    requires p' == p.(j := p.k + 1, k := p.k + 1)
    ensures Took(own, c, wrap, p, woken, false, cur', woken, p')
  {
  }

  lemma TookStop(own: seq<FileLock>, c: FileLock, wrap: bool, p: Progress, woken: seq<Pid>, cur': Cursor)
    requires p.k < |own| && own[p.k].ltype == c.ltype && own[p.k].end >= p.cs - 1
    requires own[p.k].start > EndPlusOne(p.ce, wrap) && cur'.right < 0
    ensures Took(own, c, wrap, p, woken, true, cur', woken, p)
  {
  }

  /** A lock of another type: where the pass stops, and where it goes on. */
  lemma TookOther(own: seq<FileLock>, c: FileLock, wrap: bool, p: Progress, woken: seq<Pid>,
                  stop: bool, cur': Cursor, woken': seq<Pid>, p': Progress)
    requires p.k < |own| && own[p.k].ltype != c.ltype
    requires var fl := own[p.k];
             && (stop <==> fl.end >= p.cs && (fl.start > p.ce || fl.end > p.ce))
             && (stop ==> p' == p && woken' == woken && (cur'.right >= 0 <==> fl.start <= p.ce))
             && (!stop && fl.start < p.cs ==> woken' == woken)
             && (!stop && fl.start >= p.cs && fl.end >= p.cs ==> woken' == woken + fl.blocked)
             && (!stop && fl.end < p.cs ==> p' == p.(j := p.k + 1, k := p.k + 1) && woken' == woken)
             && (!stop && fl.end >= p.cs ==>
                  var added := p.added || c.ltype == UnLck;
                  p' == if fl.start < p.cs then p.(j := p.k + 1, k := p.k + 1, hasLeft := true, added := added)
                        else if added then p.(k := p.k + 1, added := true)
                        else p.(k := p.k + 1, added := true,
                                mid := [fl.(start := p.cs, end := p.ce, ltype := c.ltype, blocked := [])]))
    ensures Took(own, c, wrap, p, woken, stop, cur', woken', p')
  {
    assert woken + [] == woken;
  }

  class Inode {
    var flock: seq<FileLock>

    /** Insert the new lock and trim its neighbours (fs/locks.c:967-991). */
    method Finish(ghost a: seq<FileLock>, ghost own: seq<FileLock>, ghost b: seq<FileLock>,
                  c: FileLock, ghost p: Progress, ghost cut: bool, cur: Cursor, id1: nat, id2: nat)
      returns (woken: seq<Pid>)
      requires Over(flock, a, own, b, c, p, cut, cur)
      modifies this
      ensures flock == a + Rebuilt(own, c, p, cut, id1, id2) + b
      ensures woken == TrimWakes(own, p, cut)
    {
      woken := [];
      if !cur.added && c.ltype == UnLck {
        NothingToUnlock(a, own, b, c, p, id1, id2);
        return;
      }
      InsertedIs(flock, a, own, b, c, p, cut, cur, id1);
      OverFacts(flock, a, own, b, c, p, cut, cur);
      ghost var x, m, y := a + own[..p.j], Middle(c, p, id1), own[p.k..] + b;
      hide Whole, Over, Kept, Tail, Middle;
      var right := cur.right;
      if !cur.added {
        flock := flock[..cur.before] + [NewLock(c, id1)] + flock[cur.before..];
        if right >= 0 { right := right + 1; }
      }
      woken := Trim(a, own, b, p, cut, cur, right, id2, x, m, y);
      Reassociate(a, Kept(own, p, cut, id2), m, Tail(own, p, cut), b);
    }

    /** Both cuts, once the new lock is in its place. */
    method Trim(ghost a: seq<FileLock>, ghost own: seq<FileLock>, ghost b: seq<FileLock>, ghost p: Progress,
                ghost cut: bool, cur: Cursor, right: int, id2: nat,
                ghost x: seq<FileLock>, ghost m: seq<FileLock>, ghost y: seq<FileLock>)
      returns (woken: seq<Pid>)
      requires p.j <= p.k <= |own| && (p.hasLeft ==> p.j > 0) && (cut ==> p.k < |own|)
      requires x == a + own[..p.j] && y == own[p.k..] + b && flock == x + m + y
      requires cur.cs == p.cs && cur.ce == p.ce && right == (if cut then |x| + |m| else -1)
      requires cur.right == if cut then cur.before else -1
      requires if cut && own[p.k].start < p.cs
               then !p.hasLeft && cur.left == cur.before == |x|
               else cur.left == if p.hasLeft then |x| - 1 else -1
      requires cut && cur.left == cur.right ==> own[p.k].start < p.cs
      modifies this
      ensures flock == (a + Kept(own, p, cut, id2)) + m + (Tail(own, p, cut) + b)
      ensures woken == TrimWakes(own, p, cut)
    {
      hide Kept, Tail;
      ghost var x', y' := x, y;
      var wokenRight, wokenLeft: seq<Pid> := [], [];
      if right >= 0 {
        wokenRight, x', y' := CutRight(x, m, y, cur.before, right, cur.left == cur.right, cur.ce, id2);
      }
      if cur.left >= 0 {
        wokenLeft, x' := CutLeft(x', m, y', cur.left, cur.cs);
      }
      LeftEnd(a, own, p, cut, id2, x, x');
      RightEnd(own, b, p, cut, y, y');
      assert wokenLeft == if p.hasLeft then own[p.j - 1].blocked else [];
      woken := wokenRight + wokenLeft;
    }

    /** The lock at `right` reaches beyond the caller: cut off its head, and put a copy of it in
        front when the new lock breaks it in two pieces (fs/locks.c:975-987). */
    method CutRight(ghost x: seq<FileLock>, ghost m: seq<FileLock>, ghost y: seq<FileLock>,
                    before: nat, right: nat, split: bool, ce: int, id2: nat)
      returns (woken: seq<Pid>, ghost x': seq<FileLock>, ghost y': seq<FileLock>)
      requires flock == x + m + y && y != [] && right == |x| + |m|
      requires split ==> before == |x|
      modifies this
      ensures woken == y[0].blocked
      ensures y' == [TrimStart(y[0], ce + 1)] + y[1..]
      ensures x' == if split then x + [y[0].(id := id2, blocked := [])] else x
      ensures flock == x' + m + y'
    {
      var fl := flock[right];
      var copy := fl.(id := id2, blocked := []);
      RightIs(x, m, y, copy, TrimStart(fl, ce + 1));
      woken := fl.blocked;
      x', y' := x, [TrimStart(fl, ce + 1)] + y[1..];
      if split {
        flock := flock[..before] + [copy] + flock[before..];
        flock := flock[right + 1 := TrimStart(fl, ce + 1)];
        x' := x + [copy];
      } else {
        flock := flock[right := TrimStart(fl, ce + 1)];
      }
    }

    /** The lock at `left` reaches into the caller: cut off its end (fs/locks.c:988-991). */
    method CutLeft(ghost x: seq<FileLock>, ghost m: seq<FileLock>, ghost y: seq<FileLock>,
                   left: nat, cs: int)
      returns (woken: seq<Pid>, ghost x': seq<FileLock>)
      requires flock == x + m + y && left == |x| - 1
      modifies this
      ensures woken == x[left].blocked
      ensures x' == x[..left] + [TrimEnd(x[left], cs - 1)]
      ensures flock == x' + m + y
    {
      LeftIs(x, m, y, TrimEnd(flock[left], cs - 1));
      woken := flock[left].blocked;
      flock := flock[left := TrimEnd(flock[left], cs - 1)];
      x' := x[..left] + [TrimEnd(x[left], cs - 1)];
    }

    /** Loop body for a lock of the caller's own type (fs/locks.c:892-920). */
    method VisitSame(ghost a: seq<FileLock>, ghost own: seq<FileLock>, ghost b: seq<FileLock>,
                     c: FileLock, wrap: bool, ghost p: Progress, cur: Cursor, woken: seq<Pid>)
      returns (stop: bool, cur': Cursor, woken': seq<Pid>, ghost p': Progress)
      requires At(flock, a, own, b, c, wrap, p, cur)
      requires cur.before < |flock| && flock[cur.before].owner == c.owner
      requires flock[cur.before].ltype == c.ltype
      modifies this
      ensures p.k < |own|
      ensures !stop ==> At(flock, a, own, b, c, wrap, p', cur') && p'.k == p.k + 1
      ensures stop ==> Over(flock, a, own, b, c, p', cur'.right >= 0, cur')
      ensures Took(own, c, wrap, p, woken, stop, cur', woken', p')
    {
      var fl := flock[cur.before];
      stop, cur', woken', p' := false, cur, woken, p;
      Facts(flock, a, own, b, c, wrap, p, cur);
      EndPlusOneFacts(cur.ce);
      ghost var q := p;
      hide Good, Own, Whole, Took, Over;
      if fl.end < cur.cs - 1 {
        q := SkipAt(flock, a, own, b, c, wrap, p, cur);
        cur' := cur.(before := cur.before + 1);
        TookSkip(own, c, wrap, p, woken, cur', q);
      } else if fl.start > EndPlusOne(cur.ce, wrap) {
        stop := true;
        EndsHere(flock, a, own, b, c, wrap, p, cur);
        TookStop(own, c, wrap, p, woken, cur);
        return;
      } else {
        var cs, ce := Min(cur.cs, fl.start), Max(cur.ce, fl.end);
        if cur.added {
          var grown := flock[cur.before - 1].(start := cs, end := ce);
          q := MergeMoreAt(flock, a, own, b, c, wrap, p, cur, grown);
          flock := flock[cur.before - 1 := grown];
          flock := flock[..cur.before] + flock[cur.before + 1..];
          woken' := woken + fl.blocked;
          cur' := cur.(cs := cs, ce := ce);
          TookSame(own, c, wrap, p, woken, cur', woken', q, grown);
        } else {
          var grown := fl.(start := cs, end := ce);
          q := MergeFirstAt(flock, a, own, b, c, wrap, p, cur, grown);
          flock := flock[cur.before := grown];
          cur' := Cursor(cur.before + 1, cs, ce, true, cur.left, cur.right);
          assert woken + [] == woken;
          TookSame(own, c, wrap, p, woken, cur', woken, q, grown);
        }
      }
      p' := q;
    }

    /** Loop body for a lock of another type (fs/locks.c:921-960). */
    method VisitOther(ghost a: seq<FileLock>, ghost own: seq<FileLock>, ghost b: seq<FileLock>,
                      c: FileLock, wrap: bool, ghost p: Progress, cur: Cursor, woken: seq<Pid>)
      returns (stop: bool, cur': Cursor, woken': seq<Pid>, ghost p': Progress)
      requires At(flock, a, own, b, c, wrap, p, cur)
      requires cur.before < |flock| && flock[cur.before].owner == c.owner
      requires flock[cur.before].ltype != c.ltype
      modifies this
      ensures p.k < |own|
      ensures !stop ==> At(flock, a, own, b, c, wrap, p', cur') && p'.k == p.k + 1
      ensures stop ==> Over(flock, a, own, b, c, p', cur'.right >= 0, cur')
      ensures Took(own, c, wrap, p, woken, stop, cur', woken', p')
    {
      var fl := flock[cur.before];
      stop, cur', woken', p' := false, cur, woken, p;
      Facts(flock, a, own, b, c, wrap, p, cur);
      ghost var q := p;
      hide Good, Own, Whole, Took, Over;
      if fl.end < cur.cs {
        q := SkipAt(flock, a, own, b, c, wrap, p, cur);
        cur' := cur.(before := cur.before + 1);
      } else if fl.start > cur.ce {
        EndsHere(flock, a, own, b, c, wrap, p, cur);
        stop := true;
        TookOther(own, c, wrap, p, woken, stop, cur', woken', p');
        return;
      } else {
        if c.ltype == UnLck { cur' := cur'.(added := true); }
        if fl.start < cur.cs { cur' := cur'.(left := cur.before); }
        if fl.end > cur.ce {
          cur', stop := cur'.(right := cur.before), true;
          EndsCut(flock, a, own, b, c, wrap, p, cur, cur');
          TookOther(own, c, wrap, p, woken, stop, cur', woken', p');
          return;
        }
        if fl.start >= cur.cs {
          // this lock lies inside the request
          if cur'.added {
            q := DeleteAt(flock, a, own, b, c, wrap, p, cur);
            flock := flock[..cur.before] + flock[cur.before + 1..];
          } else {
            var changed := fl.(start := cur.cs, end := cur.ce, ltype := c.ltype, blocked := []);
            q := ReplaceAt(flock, a, own, b, c, wrap, p, cur, changed);
            flock := flock[cur.before := changed];
            cur' := cur'.(added := true, before := cur.before + 1);
          }
          woken' := woken + fl.blocked;
        } else {
          q := LeftAt(flock, a, own, b, c, wrap, p, cur);
          cur' := cur'.(before := cur.before + 1);
        }
      }
      p' := q;
      TookOther(own, c, wrap, p, woken, stop, cur', woken', p');
    }

    /** Apply `c` to the list.  `id1` and `id2` are the locks allocated in advance. */
    method PosixApply(c: FileLock, id1: nat, id2: nat, wrap: bool)
      returns (error: Errno, woken: seq<Pid>)
      requires Request(c)
      requires StartsWithFlock(flock) || Canonical(flock)
      requires DistinctIds(flock) && id1 != id2 && id1 !in Ids(flock) && id2 !in Ids(flock)
      modifies this
      ensures error == if StartsWithFlock(old(flock)) then EBUSY else Ok
      ensures error == EBUSY ==> flock == old(flock) && woken == []
      ensures error == Ok ==> After(flock, woken) == Applying(old(flock), c, id1, id2, wrap)
      ensures error == Ok ==>
                if wrap && WrapHits(old(flock), c)
                then !Canonical(flock) && (MapOk(old(flock), c, flock) <==> !MapHits(old(flock), c))
                else Applied(old(flock), c, id1, id2, flock, woken)
    {
      hide At, Over, Canonical, Split, Applied, WrapHits, MapHits, MapOk, DistinctIds, Ids, Meet, Rebuilt, Applying;
      error, woken := Ok, [];
      if flock != [] && flock[0].kind == Flock {
        return EBUSY, woken;
      }
      // up to the first lock of the caller
      var before := 0;
      while before < |flock| && flock[before].owner != c.owner
        invariant 0 <= before <= |flock| && flock == old(flock)
        invariant forall x :: 0 <= x < before ==> flock[x].owner != c.owner
      {
        before := before + 1;
      }
      ghost var a, own, b := SplitExists(flock, c, before);
      var cur := Cursor(before, c.start, c.end, false, -1, -1);
      ghost var p := Start(c);
      StartAt(flock, c, wrap, a, own, b);
      PartsAre(flock, c, a, own, b, id1, id2, wrap);
      ApplyingOk(flock, c, id1, id2, wrap);
      var stop := false;
      // along the caller's locks
      while !stop && cur.before < |flock| && flock[cur.before].owner == c.owner
        invariant if stop then Over(flock, a, own, b, c, p, cur.right >= 0, cur)
                  else At(flock, a, own, b, c, wrap, p, cur)
        invariant InRun(own, p)
        invariant Pass(own, c, wrap, Start(c), []) ==
                  if stop then Passed(p, cur.right >= 0, woken) else Pass(own, c, wrap, p, woken)
        decreases |own| - p.k, !stop
      {
        Facts(flock, a, own, b, c, wrap, p, cur);
        ghost var q := p;
        if flock[cur.before].ltype == c.ltype {
          stop, cur, woken, q := VisitSame(a, own, b, c, wrap, p, cur, woken);
        } else {
          stop, cur, woken, q := VisitOther(a, own, b, c, wrap, p, cur, woken);
        }
        if !stop { Facts(flock, a, own, b, c, wrap, q, cur); }
        p := q;
      }
      if !stop {
        Facts(flock, a, own, b, c, wrap, p, cur);
        EndsHere(flock, a, own, b, c, wrap, p, cur);
      }
      var wokenNow := Finish(a, own, b, c, p, cur.right >= 0, cur, id1, id2);
      woken := woken + wokenNow;
    }
  }
}
