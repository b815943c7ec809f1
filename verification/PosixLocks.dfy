/** `posix_lock_file` once it can no longer sleep (fs/locks.c:875-991): the single
    in-place pass that merges, replaces, deletes, trims and splits the caller's locks.

    The pass touches only the run `own` of the caller's locks in the list.  This module
    follows that run through the loop; the loop itself is in `PosixPass`. */
module PosixLocks {
  import opened LockTypes

  /** How far the pass has come through `own`.
      `own[..j]` is kept; `own[j..k]` has been merged into or replaced by the new lock,
      or deleted; `mid` is the list lock that `caller` points to by now, if any.
      [cs, ce] is the caller's range, which merging extends. */
  datatype Progress = Progress(
    j: nat, k: nat, mid: seq<FileLock>, hasLeft: bool, cs: int, ce: int, added: bool)

  predicate HeldBetween(own: seq<FileLock>, j: nat, k: nat, ty: LockType, b: int)
    requires j <= k <= |own|
  {
    exists x :: j <= x < k && own[x].ltype == ty && own[x].start <= b <= own[x].end
  }

  predicate Own(own: seq<FileLock>, c: FileLock) {
    && AllWellFormed(own) && Ordered(own)
    && (forall x :: 0 <= x < |own| ==> own[x].owner == c.owner)
  }

  predicate Request(c: FileLock) {
    c.kind == Posix && c.owner.Task? && 0 <= c.start <= c.end <= OFFSET_MAX && c.blocked == []
  }

  /** The lock that `caller` points to is one of the consumed ones, with the caller's
      range and type; it has kept its waiters only if it has merely grown. */
  predicate MidOk(own: seq<FileLock>, c: FileLock, p: Progress, m: FileLock)
    requires p.j <= p.k <= |own|
  {
    && m.kind == Posix && m.owner == c.owner && m.ltype == c.ltype
    && m.start == p.cs && m.end == p.ce
    && exists x :: p.j <= x < p.k && m.id == own[x].id &&
         (m.blocked == [] || GrownFrom(m, own[x]))
  }

  /** Loop invariant of the pass. */
  ghost predicate Good(own: seq<FileLock>, c: FileLock, wrap: bool, p: Progress) {
    && p.j <= p.k <= |own|
    && 0 <= p.cs <= c.start && c.end <= p.ce <= OFFSET_MAX
    // everything kept lies below the caller, except the lock to be trimmed
    && (forall x :: 0 <= x < p.j ==>
          && (own[x].ltype == c.ltype ==> own[x].end < p.cs - 1)
          && (own[x].end < p.cs || (p.hasLeft && x == p.j - 1)))
    && (p.hasLeft ==>
          && p.j > 0 && p.cs == c.start && own[p.j - 1].ltype != c.ltype
          && own[p.j - 1].start < p.cs <= own[p.j - 1].end <= p.ce)
    // everything consumed lies inside the caller
    && (forall x :: p.j <= x < p.k ==> p.cs <= own[x].start && own[x].end <= p.ce)
    // the caller has grown only over bytes it held with this type already
    && (forall b :: (p.cs <= b < c.start || c.end < b <= p.ce) ==>
          HeldBetween(own, p.j, p.k, c.ltype, b))
    && (c.end < p.ce ==>
          p.j < p.k && own[p.k - 1].end == p.ce && own[p.k - 1].ltype == c.ltype)
    && (!p.added ==> p.j == p.k && p.cs == c.start && p.ce == c.end)
    && |p.mid| <= 1 && (p.mid != [] <==> p.added && c.ltype != UnLck)
    && (p.mid != [] ==> MidOk(own, c, p, p.mid[0]))
    && (c.ltype == UnLck ==> p.cs == c.start && p.ce == c.end && (p.added <==> p.hasLeft || p.j < p.k))
    && (wrap && c.end == OFFSET_MAX ==>
          forall x :: 0 <= x < p.k && own[x].ltype == c.ltype ==> own[x].end < c.start - 1)
  }

  function Start(c: FileLock): Progress {
    Progress(0, 0, [], false, c.start, c.end, false)
  }

  /** Where the pass stops.  `cut` says that it stopped at a lock reaching beyond the caller. */
  predicate Stop(own: seq<FileLock>, c: FileLock, p: Progress, cut: bool) {
    && p.k <= |own|
    && (cut ==>
          && p.k < |own| && own[p.k].ltype != c.ltype
          && own[p.k].start <= p.ce < own[p.k].end && p.cs <= own[p.k].end)
    && (!cut && p.k < |own| ==>
          p.ce < own[p.k].start && (own[p.k].ltype == c.ltype ==> p.ce + 1 < own[p.k].start))
  }

  function Min(a: int, b: int): int { if a < b then a else b }

  function Max(a: int, b: int): int { if a > b then a else b }

  // ---------- one lemma per way through the loop body ----------

  /** Everything the pass has seen lies before the lock it looks at. */
  lemma Neighbours(own: seq<FileLock>, c: FileLock, p: Progress)
    requires Own(own, c) && p.j <= p.k < |own|
    ensures p.j < p.k ==> Before(own[p.k - 1], own[p.k])
    ensures forall x :: 0 <= x < p.j ==> Before(own[x], own[p.k])
  {
  }

  lemma SkipStep(own: seq<FileLock>, c: FileLock, wrap: bool, p: Progress)
    requires Own(own, c) && Request(c) && Good(own, c, wrap, p) && p.k < |own|
    requires if own[p.k].ltype == c.ltype then own[p.k].end < p.cs - 1 else own[p.k].end < p.cs
    ensures !p.added && !p.hasLeft
    ensures Good(own, c, wrap, p.(j := p.k + 1, k := p.k + 1))
  {
    Neighbours(own, c, p);
  }

  lemma MergeStep(own: seq<FileLock>, c: FileLock, wrap: bool, p: Progress, m: FileLock)
    requires Own(own, c) && Request(c) && Good(own, c, wrap, p) && p.k < |own|
    requires own[p.k].ltype == c.ltype
    requires p.cs - 1 <= own[p.k].end && own[p.k].start <= p.ce + 1
    requires !(wrap && p.ce == OFFSET_MAX)
    requires m == if p.added
                  then p.mid[0].(start := Min(p.cs, own[p.k].start), end := Max(p.ce, own[p.k].end))
                  else own[p.k].(start := Min(p.cs, own[p.k].start), end := Max(p.ce, own[p.k].end))
    ensures Good(own, c, wrap, p.(k := p.k + 1, mid := [m], added := true,
                                  cs := m.start, ce := m.end))
  {
    hide HeldBetween, MidOk;
    var q := p.(k := p.k + 1, mid := [m], added := true, cs := m.start, ce := m.end);
    Neighbours(own, c, p);
    forall b | q.cs <= b < c.start || c.end < b <= q.ce
      ensures HeldBetween(own, q.j, q.k, c.ltype, b)
    {
      MergeHeld(own, c, wrap, p, b);
    }
    MergeMid(own, c, wrap, p, m);
  }

  /** The bytes a merge adds to the caller's range were the caller's already. */
  lemma MergeHeld(own: seq<FileLock>, c: FileLock, wrap: bool, p: Progress, b: int)
    requires Own(own, c) && Good(own, c, wrap, p) && p.k < |own| && own[p.k].ltype == c.ltype
    requires p.cs - 1 <= own[p.k].end && own[p.k].start <= p.ce + 1
    requires Min(p.cs, own[p.k].start) <= b < c.start || c.end < b <= Max(p.ce, own[p.k].end)
    ensures HeldBetween(own, p.j, p.k + 1, c.ltype, b)
  {
    if p.cs <= b < c.start || c.end < b <= p.ce {
      assert HeldBetween(own, p.j, p.k, c.ltype, b);
      var x :| p.j <= x < p.k && own[x].ltype == c.ltype && own[x].start <= b <= own[x].end;
    } else {
      assert own[p.k].start <= b <= own[p.k].end;
    }
  }

  lemma MergeMid(own: seq<FileLock>, c: FileLock, wrap: bool, p: Progress, m: FileLock)
    requires Own(own, c) && Good(own, c, wrap, p) && p.k < |own| && own[p.k].ltype == c.ltype
    requires p.added ==> p.mid != []
    requires m == if p.added
                  then p.mid[0].(start := Min(p.cs, own[p.k].start), end := Max(p.ce, own[p.k].end))
                  else own[p.k].(start := Min(p.cs, own[p.k].start), end := Max(p.ce, own[p.k].end))
    ensures MidOk(own, c, p.(k := p.k + 1, mid := [m], added := true, cs := m.start, ce := m.end), m)
  {
    if p.added {
      assert MidOk(own, c, p, p.mid[0]);
      var x :| p.j <= x < p.k && p.mid[0].id == own[x].id &&
               (p.mid[0].blocked == [] || GrownFrom(p.mid[0], own[x]));
      assert m.id == own[x].id && (m.blocked == [] || GrownFrom(m, own[x]));
    } else {
      assert GrownFrom(m, own[p.k]);
    }
  }

  lemma LeftStep(own: seq<FileLock>, c: FileLock, wrap: bool, p: Progress)
    requires Own(own, c) && Request(c) && Good(own, c, wrap, p) && p.k < |own|
    requires own[p.k].ltype != c.ltype
    requires p.cs <= own[p.k].end <= p.ce && own[p.k].start < p.cs
    ensures p.j == p.k && p.mid == [] && !p.hasLeft && p.cs == c.start && p.ce == c.end
    ensures Good(own, c, wrap, p.(j := p.k + 1, k := p.k + 1, hasLeft := true,
                                  added := p.added || c.ltype == UnLck))
  {
    Neighbours(own, c, p);
  }

  lemma ReplaceStep(own: seq<FileLock>, c: FileLock, wrap: bool, p: Progress, m: FileLock)
    requires Own(own, c) && Request(c) && Good(own, c, wrap, p) && p.k < |own|
    requires own[p.k].ltype != c.ltype && c.ltype != UnLck && !p.added
    requires p.cs <= own[p.k].start && own[p.k].end <= p.ce
    requires m == own[p.k].(start := p.cs, end := p.ce, ltype := c.ltype, blocked := [])
    ensures Good(own, c, wrap, p.(k := p.k + 1, mid := [m], added := true))
  {
    var q := p.(k := p.k + 1, mid := [m], added := true);
    assert MidOk(own, c, q, m) by { assert m.id == own[p.k].id; }
  }

  lemma DeleteStep(own: seq<FileLock>, c: FileLock, wrap: bool, p: Progress)
    requires Own(own, c) && Request(c) && Good(own, c, wrap, p) && p.k < |own|
    requires own[p.k].ltype != c.ltype && (c.ltype == UnLck || p.added)
    requires p.cs <= own[p.k].start && own[p.k].start <= p.ce && own[p.k].end <= p.ce
    ensures Good(own, c, wrap, p.(k := p.k + 1, added := true))
  {
    Neighbours(own, c, p);
    var q := p.(k := p.k + 1, added := true);
    if p.mid != [] {
      var x :| p.j <= x < p.k && p.mid[0].id == own[x].id &&
               (p.mid[0].blocked == [] || GrownFrom(p.mid[0], own[x]));
    }
    forall b | q.cs <= b < c.start || c.end < b <= q.ce
      ensures HeldBetween(own, q.j, q.k, c.ltype, b)
    {
      assert HeldBetween(own, p.j, p.k, c.ltype, b);
      var x :| p.j <= x < p.k && own[x].ltype == c.ltype && own[x].start <= b <= own[x].end;
    }
  }

  /** A lock that reaches beyond the caller on both sides is met before anything was consumed. */
  lemma StraddlerIsFirst(own: seq<FileLock>, c: FileLock, wrap: bool, p: Progress)
    requires Own(own, c) && Request(c) && Good(own, c, wrap, p) && p.k < |own|
    requires own[p.k].start < p.cs <= own[p.k].end && own[p.k].ltype != c.ltype
    ensures p.j == p.k && p.mid == [] && !p.hasLeft
  {
    Neighbours(own, c, p);
  }

  // ---------- what the pass leaves behind ----------

  function TrimEnd(l: FileLock, e: int): FileLock { l.(end := e, blocked := []) }

  function TrimStart(l: FileLock, s: int): FileLock { l.(start := s, blocked := []) }

  function NewLock(c: FileLock, id: nat): FileLock { c.(id := id, blocked := []) }

  /** Left part of the caller's run after the pass. */
  function Kept(own: seq<FileLock>, p: Progress, cut: bool, id2: nat): seq<FileLock>
    requires p.j <= p.k <= |own| && (p.hasLeft ==> p.j > 0) && (cut ==> p.k < |own|)
  {
    if cut && own[p.k].start < p.cs then own[..p.j] + [TrimEnd(own[p.k], p.cs - 1).(id := id2)]
    else if p.hasLeft then own[..p.j - 1] + [TrimEnd(own[p.j - 1], p.cs - 1)]
    else own[..p.j]
  }

  function Middle(c: FileLock, p: Progress, id1: nat): seq<FileLock> {
    if !p.added && c.ltype != UnLck then [NewLock(c, id1)] else p.mid
  }

  function Tail(own: seq<FileLock>, p: Progress, cut: bool): seq<FileLock>
    requires p.k <= |own| && (cut ==> p.k < |own|)
  {
    if cut then [TrimStart(own[p.k], p.ce + 1)] + own[p.k + 1..] else own[p.k..]
  }

  ghost predicate Pieces(own: seq<FileLock>, c: FileLock, wrap: bool, p: Progress, cut: bool) {
    && Own(own, c) && Request(c) && Good(own, c, wrap, p) && Stop(own, c, p, cut)
  }

  function Rebuilt(own: seq<FileLock>, c: FileLock, p: Progress, cut: bool, id1: nat, id2: nat)
    : seq<FileLock>
    requires p.j <= p.k <= |own| && (p.hasLeft ==> p.j > 0) && (cut ==> p.k < |own|)
  {
    Kept(own, p, cut, id2) + Middle(c, p, id1) + Tail(own, p, cut)
  }

  /** All of `l` is the caller's and lies below `cs`. */
  predicate AllBelow(l: seq<FileLock>, c: FileLock, cs: int) {
    forall x :: 0 <= x < |l| ==>
      && WellFormed(l[x]) && l[x].owner == c.owner
      && l[x].end < cs && (l[x].ltype == c.ltype ==> l[x].end + 1 < cs)
  }

  /** All of `r` is the caller's and lies above `ce`. */
  predicate AllAbove(r: seq<FileLock>, c: FileLock, ce: int) {
    forall x :: 0 <= x < |r| ==>
      && WellFormed(r[x]) && r[x].owner == c.owner
      && ce < r[x].start && (r[x].ltype == c.ltype ==> ce + 1 < r[x].start)
  }

  /** `m` is the caller's lock on [cs, ce], or nothing when the caller unlocks. */
  predicate IsCaller(m: seq<FileLock>, c: FileLock, cs: int, ce: int) {
    && |m| <= 1 && (m == [] <==> c.ltype == UnLck)
    && (m != [] ==> && WellFormed(m[0]) && m[0].owner == c.owner
                    && m[0].ltype == c.ltype && m[0].start == cs && m[0].end == ce)
  }

  lemma KeptBelow(own: seq<FileLock>, c: FileLock, wrap: bool, p: Progress, cut: bool, id2: nat)
    requires Pieces(own, c, wrap, p, cut)
    ensures Ordered(Kept(own, p, cut, id2))
    ensures AllBelow(Kept(own, p, cut, id2), c, p.cs)
  {
    var l := Kept(own, p, cut, id2);
    if cut && own[p.k].start < p.cs { StraddlerIsFirst(own, c, wrap, p); }
    forall i, j | 0 <= i < j < |l|
      ensures Before(l[i], l[j])
    {
      assert Before(own[i], own[j]);
    }
  }

  lemma TailAbove(own: seq<FileLock>, c: FileLock, wrap: bool, p: Progress, cut: bool)
    requires Pieces(own, c, wrap, p, cut)
    ensures Ordered(Tail(own, p, cut))
    ensures AllAbove(Tail(own, p, cut), c, p.ce)
  {
    var r := Tail(own, p, cut);
    forall i, j | 0 <= i < j < |r|
      ensures Before(r[i], r[j])
    {
      assert Before(own[p.k + i], own[p.k + j]);
    }
    forall x | 0 <= x < |r|
      ensures WellFormed(r[x]) && r[x].owner == c.owner && p.ce < r[x].start
      ensures r[x].ltype == c.ltype ==> p.ce + 1 < r[x].start
    {
      if x > 0 { assert Before(own[p.k], own[p.k + x]); }
    }
  }

  lemma MiddleIsTheCaller(own: seq<FileLock>, c: FileLock, wrap: bool, p: Progress, cut: bool, id1: nat)
    requires Pieces(own, c, wrap, p, cut)
    ensures IsCaller(Middle(c, p, id1), c, p.cs, p.ce)
  {
  }

  lemma JoinOrdered(l: seq<FileLock>, m: seq<FileLock>, r: seq<FileLock>, c: FileLock, cs: int, ce: int)
    requires Ordered(l) && AllBelow(l, c, cs) && cs <= ce
    requires Ordered(r) && AllAbove(r, c, ce)
    requires IsCaller(m, c, cs, ce)
    ensures Own(l + m + r, c)
  {
    var o := l + m + r;
    forall i, j | 0 <= i < j < |o|
      ensures Before(o[i], o[j])
    {
      if j < |l| {
        assert Before(l[i], l[j]);
      } else if i >= |l| + |m| {
        assert Before(r[i - |l| - |m|], r[j - |l| - |m|]);
      }
    }
  }

  /** The rebuilt run is again ordered and well formed. */
  lemma RebuiltOrdered(own: seq<FileLock>, c: FileLock, wrap: bool, p: Progress, cut: bool,
                       id1: nat, id2: nat)
    requires Pieces(own, c, wrap, p, cut)
    ensures Own(Rebuilt(own, c, p, cut, id1, id2), c)
  {
    KeptBelow(own, c, wrap, p, cut, id2);
    MiddleIsTheCaller(own, c, wrap, p, cut, id1);
    TailAbove(own, c, wrap, p, cut);
    JoinOrdered(Kept(own, p, cut, id2), Middle(c, p, id1), Tail(own, p, cut), c, p.cs, p.ce);
  }

  /** Bytes below the caller keep their locks. */
  lemma KeptBytes(own: seq<FileLock>, c: FileLock, wrap: bool, p: Progress, cut: bool, id2: nat,
                  ty: LockType, b: int)
    requires Pieces(own, c, wrap, p, cut)
    ensures Holds(Kept(own, p, cut, id2), c.owner, ty, b) <==>
            b < p.cs && Holds(own, c.owner, ty, b)
  {
    if Holds(Kept(own, p, cut, id2), c.owner, ty, b) {
      KeptBytesOld(own, c, wrap, p, cut, id2, ty, b);
    }
    if b < p.cs && Holds(own, c.owner, ty, b) {
      OldBytesKept(own, c, wrap, p, cut, id2, ty, b);
    }
  }

  lemma KeptBytesOld(own: seq<FileLock>, c: FileLock, wrap: bool, p: Progress, cut: bool, id2: nat,
                     ty: LockType, b: int)
    requires Pieces(own, c, wrap, p, cut) && Holds(Kept(own, p, cut, id2), c.owner, ty, b)
    ensures b < p.cs && Holds(own, c.owner, ty, b)
  {
    var l := Kept(own, p, cut, id2);
    KeptBelow(own, c, wrap, p, cut, id2);
    var x :| 0 <= x < |l| && Covers(l[x], c.owner, ty, b);
    var y := if x < p.j then x else p.k;
    assert Covers(own[y], c.owner, ty, b);
  }

  lemma OldBytesKept(own: seq<FileLock>, c: FileLock, wrap: bool, p: Progress, cut: bool, id2: nat,
                     ty: LockType, b: int)
    requires Pieces(own, c, wrap, p, cut) && b < p.cs && Holds(own, c.owner, ty, b)
    ensures Holds(Kept(own, p, cut, id2), c.owner, ty, b)
  {
    var l := Kept(own, p, cut, id2);
    var x :| 0 <= x < |own| && Covers(own[x], c.owner, ty, b);
    BelowIsKept(own, c, wrap, p, cut, x, b);
    var y := if x < p.j then x else p.j;
    assert Covers(l[y], c.owner, ty, b);
  }

  /** A lock with a byte below the caller is kept, or is the one cut in two. */
  lemma BelowIsKept(own: seq<FileLock>, c: FileLock, wrap: bool, p: Progress, cut: bool, x: nat, b: int)
    requires Pieces(own, c, wrap, p, cut) && x < |own| && own[x].start <= b < p.cs
    ensures x < p.j || (cut && x == p.k == p.j && !p.hasLeft)
  {
    assert p.k < x ==> Before(own[p.k], own[x]);
    if cut && own[p.k].start < p.cs { StraddlerIsFirst(own, c, wrap, p); }
  }

  /** Bytes above the caller keep their locks. */
  lemma TailBytes(own: seq<FileLock>, c: FileLock, wrap: bool, p: Progress, cut: bool,
                  ty: LockType, b: int)
    requires Pieces(own, c, wrap, p, cut)
    ensures Holds(Tail(own, p, cut), c.owner, ty, b) <==>
            p.ce < b && Holds(own, c.owner, ty, b)
  {
    if Holds(Tail(own, p, cut), c.owner, ty, b) {
      TailBytesOld(own, c, wrap, p, cut, ty, b);
    }
    if p.ce < b && Holds(own, c.owner, ty, b) {
      OldBytesTail(own, c, wrap, p, cut, ty, b);
    }
  }

  lemma TailBytesOld(own: seq<FileLock>, c: FileLock, wrap: bool, p: Progress, cut: bool,
                     ty: LockType, b: int)
    requires Pieces(own, c, wrap, p, cut) && Holds(Tail(own, p, cut), c.owner, ty, b)
    ensures p.ce < b && Holds(own, c.owner, ty, b)
  {
    var r := Tail(own, p, cut);
    TailAbove(own, c, wrap, p, cut);
    var x :| 0 <= x < |r| && Covers(r[x], c.owner, ty, b);
    assert Covers(own[p.k + x], c.owner, ty, b);
  }

  lemma OldBytesTail(own: seq<FileLock>, c: FileLock, wrap: bool, p: Progress, cut: bool,
                     ty: LockType, b: int)
    requires Pieces(own, c, wrap, p, cut) && p.ce < b && Holds(own, c.owner, ty, b)
    ensures Holds(Tail(own, p, cut), c.owner, ty, b)
  {
    var r := Tail(own, p, cut);
    var x :| 0 <= x < |own| && Covers(own[x], c.owner, ty, b);
    assert x >= p.k;
    assert Covers(r[x - p.k], c.owner, ty, b);
  }

  /** Ordered locks have no byte in common. */
  lemma Disjoint(own: seq<FileLock>, x: nat, y: nat, b: int)
    requires Ordered(own) && x < |own| && y < |own|
    requires own[x].start <= b <= own[x].end && own[y].start <= b <= own[y].end
    ensures x == y
  {
    assert x < y ==> Before(own[x], own[y]);
    assert y < x ==> Before(own[y], own[x]);
  }

  /** Inside its extended range but outside the request, the caller already held its type. */
  lemma GrownBytes(own: seq<FileLock>, c: FileLock, wrap: bool, p: Progress, cut: bool,
                   ty: LockType, b: int)
    requires Pieces(own, c, wrap, p, cut)
    requires p.cs <= b <= p.ce && !(c.start <= b <= c.end)
    ensures Holds(own, c.owner, ty, b) <==> ty == c.ltype
  {
    assert HeldBetween(own, p.j, p.k, c.ltype, b);
    var x :| p.j <= x < p.k && own[x].ltype == c.ltype && own[x].start <= b <= own[x].end;
    assert Covers(own[x], c.owner, c.ltype, b);
    if Holds(own, c.owner, ty, b) {
      var y :| 0 <= y < |own| && Covers(own[y], c.owner, ty, b);
      Disjoint(own, x, y, b);
    }
  }

  /** The rebuilt run means the old one with exactly the requested bytes overwritten. */
  lemma RebuiltBytes(own: seq<FileLock>, c: FileLock, wrap: bool, p: Progress, cut: bool,
                     id1: nat, id2: nat, ty: LockType, b: int)
    requires Pieces(own, c, wrap, p, cut)
    ensures Holds(Rebuilt(own, c, p, cut, id1, id2), c.owner, ty, b) <==>
            if c.start <= b <= c.end then ty == c.ltype && ty != UnLck
            else Holds(own, c.owner, ty, b)
  {
    var l, m, r := Kept(own, p, cut, id2), Middle(c, p, id1), Tail(own, p, cut);
    HoldsConcat(l + m, r, c.owner, ty, b);
    HoldsConcat(l, m, c.owner, ty, b);
    KeptBytes(own, c, wrap, p, cut, id2, ty, b);
    TailBytes(own, c, wrap, p, cut, ty, b);
    MiddleIsTheCaller(own, c, wrap, p, cut, id1);
    assert Holds(m, c.owner, ty, b) <==> m != [] && Covers(m[0], c.owner, ty, b);
    if p.cs <= b <= p.ce && !(c.start <= b <= c.end) { GrownBytes(own, c, wrap, p, cut, ty, b); }
  }

  /** Only a lock that has grown keeps its waiters, and every lock is an old one or new. */
  lemma RebuiltWaiters(own: seq<FileLock>, c: FileLock, wrap: bool, p: Progress, cut: bool,
                       id1: nat, id2: nat)
    requires Pieces(own, c, wrap, p, cut) && DistinctIds(own)
    requires id1 != id2 && id1 !in Ids(own) && id2 !in Ids(own)
    ensures var o := Rebuilt(own, c, p, cut, id1, id2);
            && WaitersKept(own, o) && DistinctIds(o)
            && Ids(o) <= Ids(own) + {id1, id2}
  {
    var o := Rebuilt(own, c, p, cut, id1, id2);
    var from := Origins(own, c, wrap, p, cut, id1, id2);
    forall i | 0 <= i < |o| && o[i].blocked != []
      ensures exists k :: 0 <= k < |own| && GrownFrom(o[i], own[k])
    {
      assert GrownFrom(o[i], own[from[i]]);
    }
    forall i, j | 0 <= i < j < |o|
      ensures o[i].id != o[j].id
    {
      assert from[i] != from[j];
    }
    forall i | 0 <= i < |o|
      ensures o[i].id in Ids(own) + {id1, id2}
    {
      if 0 <= from[i] { assert own[from[i]].id in Ids(own); }
    }
  }

  /** `from[i]` is the old lock that `o[i]` used to be; -1 and -2 stand for the two new locks. */
  predicate ComesFrom(o: seq<FileLock>, own: seq<FileLock>, from: seq<int>, id1: nat, id2: nat) {
    && |from| == |o|
    && forall i :: 0 <= i < |o| ==>
         && -2 <= from[i] < |own|
         && o[i].id == (if from[i] == -1 then id1 else if from[i] == -2 then id2 else own[from[i]].id)
         && (o[i].blocked != [] ==> 0 <= from[i] && GrownFrom(o[i], own[from[i]]))
  }

  lemma Origins(own: seq<FileLock>, c: FileLock, wrap: bool, p: Progress, cut: bool,
                id1: nat, id2: nat) returns (from: seq<int>)
    requires Pieces(own, c, wrap, p, cut)
    ensures ComesFrom(Rebuilt(own, c, p, cut, id1, id2), own, from, id1, id2)
    ensures forall i, j :: 0 <= i < j < |from| ==> from[i] != from[j]
  {
    var l, m, r := Kept(own, p, cut, id2), Middle(c, p, id1), Tail(own, p, cut);
    var fl := KeptOrigins(own, c, wrap, p, cut, id1, id2);
    var fm := MiddleOrigins(own, c, wrap, p, cut, id1, id2);
    var fr := TailOrigins(own, c, wrap, p, cut, id1, id2);
    ComesFromConcat(l, m, own, fl, fm, id1, id2);
    ComesFromConcat(l + m, r, own, fl + fm, fr, id1, id2);
    from := fl + fm + fr;
    DistinctJoin(fl, fm, fr, p.j, p.k);
  }

  lemma DistinctJoin(a: seq<int>, b: seq<int>, d: seq<int>, j: nat, k: nat)
    requires j <= k && |b| <= 1 && |a| <= j + 1
    requires forall i :: 0 <= i < |a| ==> a[i] == (if i < j then i else -2)
    requires |b| == 1 ==> b[0] == -1 || j <= b[0] < k
    requires forall i :: 0 <= i < |d| ==> d[i] == k + i
    ensures forall i, j :: 0 <= i < j < |a + b + d| ==> (a + b + d)[i] != (a + b + d)[j]
  {
  }

  lemma MiddleOrigins(own: seq<FileLock>, c: FileLock, wrap: bool, p: Progress, cut: bool,
                      id1: nat, id2: nat) returns (from: seq<int>)
    requires Pieces(own, c, wrap, p, cut)
    ensures ComesFrom(Middle(c, p, id1), own, from, id1, id2)
    ensures |from| <= 1 && (|from| == 1 ==> from[0] == -1 || p.j <= from[0] < p.k)
  {
    var m := Middle(c, p, id1);
    if p.mid != [] {
      var x :| p.j <= x < p.k && p.mid[0].id == own[x].id &&
               (p.mid[0].blocked == [] || GrownFrom(p.mid[0], own[x]));
      from := [x];
    } else {
      from := seq(|m|, x => -1);
    }
  }

  lemma TailOrigins(own: seq<FileLock>, c: FileLock, wrap: bool, p: Progress, cut: bool,
                    id1: nat, id2: nat) returns (from: seq<int>)
    requires Pieces(own, c, wrap, p, cut)
    ensures ComesFrom(Tail(own, p, cut), own, from, id1, id2)
    ensures forall i :: 0 <= i < |from| ==> from[i] == p.k + i
  {
    hide Pieces, ComesFrom, Tail;
    PiecesFacts(own, c, wrap, p, cut);
    from := TailFrom(own, p, cut, id1, id2);
  }

  lemma TailFrom(own: seq<FileLock>, p: Progress, cut: bool, id1: nat, id2: nat) returns (from: seq<int>)
    requires p.k <= |own| && (cut ==> p.k < |own|)
    ensures ComesFrom(Tail(own, p, cut), own, from, id1, id2)
    ensures forall i :: 0 <= i < |from| ==> from[i] == p.k + i
  {
    var r := Tail(own, p, cut);
    from := seq(|r|, x => p.k + x);
    forall i | 0 <= i < |r| ensures r[i].id == own[p.k + i].id && (r[i].blocked != [] ==> GrownFrom(r[i], own[p.k + i])) {
      if cut && i > 0 { assert r[i] == own[p.k + 1..][i - 1]; }
    }
  }

  lemma PiecesFacts(own: seq<FileLock>, c: FileLock, wrap: bool, p: Progress, cut: bool)
    requires Pieces(own, c, wrap, p, cut)
    ensures p.j <= p.k <= |own| && (p.hasLeft ==> p.j > 0) && (cut ==> p.k < |own|)
    ensures cut && own[p.k].start < p.cs ==> !p.hasLeft
  {
    if cut && own[p.k].start < p.cs { StraddlerIsFirst(own, c, wrap, p); }
  }

  lemma KeptOrigins(own: seq<FileLock>, c: FileLock, wrap: bool, p: Progress, cut: bool,
                    id1: nat, id2: nat) returns (from: seq<int>)
    requires Pieces(own, c, wrap, p, cut)
    ensures ComesFrom(Kept(own, p, cut, id2), own, from, id1, id2)
    ensures |from| <= p.j + 1
    ensures forall i :: 0 <= i < |from| ==> from[i] == (if i < p.j then i else -2)
  {
    hide Pieces, ComesFrom, Kept;
    PiecesFacts(own, c, wrap, p, cut);
    from := KeptFrom(own, p, cut, id1, id2);
  }

  lemma KeptFrom(own: seq<FileLock>, p: Progress, cut: bool, id1: nat, id2: nat) returns (from: seq<int>)
    requires p.j <= p.k <= |own| && (p.hasLeft ==> p.j > 0) && (cut ==> p.k < |own|)
    requires cut && own[p.k].start < p.cs ==> !p.hasLeft
    ensures ComesFrom(Kept(own, p, cut, id2), own, from, id1, id2)
    ensures |from| <= p.j + 1
    ensures forall i :: 0 <= i < |from| ==> from[i] == (if i < p.j then i else -2)
  {
    var l := Kept(own, p, cut, id2);
    from := seq(|l|, x => if x < p.j then x else -2);
  }

  lemma ComesFromConcat(a: seq<FileLock>, b: seq<FileLock>, own: seq<FileLock>,
                        fa: seq<int>, fb: seq<int>, id1: nat, id2: nat)
    requires ComesFrom(a, own, fa, id1, id2) && ComesFrom(b, own, fb, id1, id2)
    ensures ComesFrom(a + b, own, fa + fb, id1, id2)
  {
  }

  // ---------- who is woken ----------

  /** Consumed locks hand their sleepers to the lock in the middle or to `woken`. */
  ghost predicate Accounted(own: seq<FileLock>, p: Progress, woken: seq<Pid>)
    requires p.j <= p.k <= |own|
  {
    Sleepers(own[p.j..p.k]) == Sleepers(p.mid) + SetOf(woken)
  }

  lemma SleepersOne(l: FileLock)
    ensures Sleepers([l]) == SetOf(l.blocked)
  {
    assert [l][0] == l;
  }

  lemma SleepersNext(own: seq<FileLock>, j: nat, k: nat)
    requires j <= k < |own|
    ensures Sleepers(own[j..k + 1]) == Sleepers(own[j..k]) + SetOf(own[k].blocked)
  {
    assert own[j..k + 1] == own[j..k] + [own[k]];
    SleepersConcat(own[j..k], [own[k]]);
    SleepersOne(own[k]);
  }

  /** The tasks woken when the locks right and left of the caller are trimmed. */
  function TrimWakes(own: seq<FileLock>, p: Progress, cut: bool): seq<Pid>
    requires p.j <= p.k <= |own| && (p.hasLeft ==> p.j > 0) && (cut ==> p.k < |own|)
  {
    (if cut then own[p.k].blocked else []) + (if p.hasLeft then own[p.j - 1].blocked else [])
  }

  /** Whoever slept on the caller's run still sleeps there, or has been woken. */
  lemma RebuiltSleepers(own: seq<FileLock>, c: FileLock, p: Progress, cut: bool,
                        id1: nat, id2: nat, woken: seq<Pid>)
    requires p.j <= p.k <= |own| && (p.hasLeft ==> p.j > 0) && (cut ==> p.k < |own|)
    requires cut && own[p.k].start < p.cs ==> !p.hasLeft
    requires p.mid != [] ==> p.added
    requires Accounted(own, p, woken)
    ensures Sleepers(own) ==
            Sleepers(Rebuilt(own, c, p, cut, id1, id2)) + SetOf(woken + TrimWakes(own, p, cut))
  {
    var right := if cut then own[p.k].blocked else [];
    var left := if p.hasLeft then own[p.j - 1].blocked else [];
    var l, m, r := Kept(own, p, cut, id2), Middle(c, p, id1), Tail(own, p, cut);
    var sl, sm, sr := Sleepers(l), Sleepers(m), Sleepers(r);
    assert Sleepers(own[..p.j]) == sl + SetOf(left) by { KeptSleepers(own, p, cut, id2); }
    assert Sleepers(own[p.k..]) == sr + SetOf(right) by { TailSleepers(own, p, cut); }
    assert Sleepers(own[p.j..p.k]) == sm + SetOf(woken) by { MiddleSleepers(c, p, id1); }
    assert Sleepers(own) == (sl + SetOf(left)) + (sm + SetOf(woken)) + (sr + SetOf(right)) by {
      ThreeParts(own, p.j, p.k);
      SleepersJoin(own[..p.j], own[p.j..p.k], own[p.k..]);
    }
    assert Sleepers(l + m + r) == sl + sm + sr by { SleepersJoin(l, m, r); }
    assert SetOf(woken + (right + left)) == SetOf(woken) + (SetOf(right) + SetOf(left)) by {
      SetOfConcat(woken, right + left);
      SetOfConcat(right, left);
    }
    Regroup(sl, sm, sr, SetOf(left), SetOf(woken), SetOf(right));
    assert TrimWakes(own, p, cut) == right + left;
  }

  lemma Regroup<T>(a: set<T>, b: set<T>, c: set<T>, x: set<T>, y: set<T>, z: set<T>)
    ensures (a + x) + (b + y) + (c + z) == (a + b + c) + (y + (z + x))
  {
  }

  lemma ThreeParts<T>(s: seq<T>, j: nat, k: nat)
    requires j <= k <= |s|
    ensures s == s[..j] + s[j..k] + s[k..]
  {
  }

  lemma SleepersJoin(l: seq<FileLock>, m: seq<FileLock>, r: seq<FileLock>)
    ensures Sleepers(l + m + r) == Sleepers(l) + Sleepers(m) + Sleepers(r)
  {
    SleepersConcat(l, m);
    SleepersConcat(l + m, r);
  }

  lemma MiddleSleepers(c: FileLock, p: Progress, id1: nat)
    requires p.mid != [] ==> p.added
    ensures Sleepers(Middle(c, p, id1)) == Sleepers(p.mid)
  {
    SleepersOne(NewLock(c, id1));
  }

  lemma KeptSleepers(own: seq<FileLock>, p: Progress, cut: bool, id2: nat)
    requires p.j <= p.k <= |own| && (p.hasLeft ==> p.j > 0) && (cut ==> p.k < |own|)
    requires cut && own[p.k].start < p.cs ==> !p.hasLeft
    ensures Sleepers(own[..p.j]) ==
            Sleepers(Kept(own, p, cut, id2)) + SetOf(if p.hasLeft then own[p.j - 1].blocked else [])
  {
    if cut && own[p.k].start < p.cs {
      SleepersConcat(own[..p.j], [TrimEnd(own[p.k], p.cs - 1).(id := id2)]);
      SleepersOne(TrimEnd(own[p.k], p.cs - 1).(id := id2));
    } else if p.hasLeft {
      SleepersNext(own, 0, p.j - 1);
      SleepersConcat(own[..p.j - 1], [TrimEnd(own[p.j - 1], p.cs - 1)]);
      SleepersOne(TrimEnd(own[p.j - 1], p.cs - 1));
    }
  }

  lemma TailSleepers(own: seq<FileLock>, p: Progress, cut: bool)
    requires p.k <= |own| && (cut ==> p.k < |own|)
    ensures Sleepers(own[p.k..]) ==
            Sleepers(Tail(own, p, cut)) + SetOf(if cut then own[p.k].blocked else [])
  {
    if cut {
      assert own[p.k..] == [own[p.k]] + own[p.k + 1..];
      SleepersConcat([own[p.k]], own[p.k + 1..]);
      SleepersOne(own[p.k]);
      SleepersConcat([TrimStart(own[p.k], p.ce + 1)], own[p.k + 1..]);
      SleepersOne(TrimStart(own[p.k], p.ce + 1));
    }
  }

  // ---------- the whole list ----------

  /** The map from owners and bytes to lock types changes exactly on the request. */
  ghost predicate MapOk(locks: seq<FileLock>, c: FileLock, locks': seq<FileLock>) {
    forall o, ty, b :: Holds(locks', o, ty, b) <==>
      if o == c.owner && c.start <= b <= c.end then ty == c.ltype && ty != UnLck
      else Holds(locks, o, ty, b)
  }

  /** What a successful call does to a file's list: the caller's bytes [start, end] take the
      requested type and nothing else changes; the list stays canonical; a block list
      survives only on a lock that has grown; every other sleeper is woken. */
  ghost predicate Applied(locks: seq<FileLock>, c: FileLock, id1: nat, id2: nat,
                          locks': seq<FileLock>, woken: seq<Pid>)
  {
    && Canonical(locks') && MapOk(locks, c, locks')
    && WaitersKept(locks, locks')
    && DistinctIds(locks') && Ids(locks') <= Ids(locks) + {id1, id2}
    && Sleepers(locks) == Sleepers(locks') + SetOf(woken)
  }

  /** `locks` splits into locks of others, the caller's locks, and locks of others. */
  ghost predicate Split(locks: seq<FileLock>, c: FileLock,
                        a: seq<FileLock>, own: seq<FileLock>, b: seq<FileLock>)
  {
    && locks == a + own + b
    && (forall x :: 0 <= x < |a| ==> a[x].owner != c.owner)
    && (forall x :: 0 <= x < |own| ==> own[x].owner == c.owner)
    && (forall x :: 0 <= x < |b| ==> b[x].owner != c.owner)
    && (own == [] ==> b == [])
  }

  lemma SplitExists(locks: seq<FileLock>, c: FileLock, n: nat)
    returns (a: seq<FileLock>, own: seq<FileLock>, b: seq<FileLock>)
    requires Canonical(locks) && n <= |locks|
    requires forall x :: 0 <= x < n ==> locks[x].owner != c.owner
    requires n < |locks| ==> locks[n].owner == c.owner
    ensures Split(locks, c, a, own, b) && a == locks[..n]
  {
    var k := n;
    while k < |locks| && locks[k].owner == c.owner
      invariant n <= k <= |locks|
      invariant forall x :: n <= x < k ==> locks[x].owner == c.owner
    {
      k := k + 1;
    }
    a, own, b := locks[..n], locks[n..k], locks[k..];
    forall x | 0 <= x < |b|
      ensures b[x].owner != c.owner
    {
      assert b[x] == locks[k + x];
      assert locks[k].owner != c.owner && locks[n].owner == c.owner;
    }
  }

  lemma SplitOwn(locks: seq<FileLock>, c: FileLock,
                 a: seq<FileLock>, own: seq<FileLock>, b: seq<FileLock>)
    requires Canonical(locks) && Split(locks, c, a, own, b)
    ensures Own(own, c)
    ensures DistinctIds(locks) ==> DistinctIds(own)
    ensures Ids(own) <= Ids(locks)
  {
    assert forall x :: 0 <= x < |own| ==> own[x] == locks[|a| + x];
    forall i, j | 0 <= i < j < |own|
      ensures Before(own[i], own[j])
    {
      assert locks[|a| + i].owner == locks[|a| + j].owner;
    }
  }

  lemma JoinCanonical(locks: seq<FileLock>, c: FileLock, a: seq<FileLock>, own: seq<FileLock>,
                      b: seq<FileLock>, own': seq<FileLock>)
    requires Canonical(locks) && Split(locks, c, a, own, b) && Own(own', c)
    ensures Canonical(a + own' + b)
  {
    var n := a + own' + b;
    // old positions of the locks of others
    forall i | 0 <= i < |n| && n[i].owner != c.owner
      ensures i < |a| || i >= |a| + |own'|
      ensures n[i] == locks[if i < |a| then i else i - |own'| + |own|]
    {
    }
    forall i, j | 0 <= i < j < |n| && n[i].owner == n[j].owner
      ensures Before(n[i], n[j])
      ensures forall k :: i < k < j ==> n[k].owner == n[i].owner
    {
      if n[i].owner == c.owner {
        assert Before(own'[i - |a|], own'[j - |a|]);
      } else {
        var i', j' := if i < |a| then i else i - |own'| + |own|, if j < |a| then j else j - |own'| + |own|;
        assert locks[i'].owner == locks[j'].owner;
        assert own != [] ==> locks[|a|].owner == c.owner;
        assert !(i < |a| <= j);
        forall k | i < k < j
          ensures n[k].owner == n[i].owner
        {
          var k' := if k < |a| then k else k - |own'| + |own|;
          assert n[k] == locks[k'] && i' < k' < j';
        }
      }
    }
  }

  lemma JoinWaiters(locks: seq<FileLock>, c: FileLock, a: seq<FileLock>, own: seq<FileLock>,
                    b: seq<FileLock>, own': seq<FileLock>, id1: nat, id2: nat)
    requires Split(locks, c, a, own, b) && DistinctIds(locks)
    requires WaitersKept(own, own') && DistinctIds(own') && Ids(own') <= Ids(own) + {id1, id2}
    requires id1 !in Ids(locks) && id2 !in Ids(locks)
    ensures var n := a + own' + b;
            WaitersKept(locks, n) && DistinctIds(n) && Ids(n) <= Ids(locks) + {id1, id2}
  {
    var n := a + own' + b;
    forall i | 0 <= i < |n| && n[i].blocked != []
      ensures exists k :: 0 <= k < |locks| && GrownFrom(n[i], locks[k])
    {
      if i < |a| {
        assert GrownFrom(n[i], locks[i]);
      } else if i < |a| + |own'| {
        var k :| 0 <= k < |own| && GrownFrom(own'[i - |a|], own[k]);
        assert GrownFrom(n[i], locks[|a| + k]);
      } else {
        assert GrownFrom(n[i], locks[i - |own'| + |own|]);
      }
    }
    forall i | 0 <= i < |own'|
      ensures own'[i].id in {id1, id2} ||
              exists k :: |a| <= k < |a| + |own| && own'[i].id == locks[k].id
    {
      assert own'[i].id in Ids(own');
      if own'[i].id in Ids(own) {
        var k :| 0 <= k < |own| && own[k].id == own'[i].id;
        assert locks[|a| + k] == own[k];
      }
    }
    JoinIds(locks, |a|, |a| + |own|, own', id1, id2);
    assert locks[..|a|] == a && locks[|a| + |own|..] == b;
  }

  lemma JoinIds(locks: seq<FileLock>, lo: nat, hi: nat, own': seq<FileLock>, id1: nat, id2: nat)
    requires lo <= hi <= |locks| && DistinctIds(locks) && DistinctIds(own')
    requires id1 !in Ids(locks) && id2 !in Ids(locks)
    requires forall i :: 0 <= i < |own'| ==>
      (own'[i].id in {id1, id2} || exists k :: lo <= k < hi && own'[i].id == locks[k].id)
    ensures var n := locks[..lo] + own' + locks[hi..];
            DistinctIds(n) && Ids(n) <= Ids(locks) + {id1, id2}
  {
    forall i | 0 <= i < |locks| ensures locks[i].id !in {id1, id2}
    {
      assert locks[i].id in Ids(locks);
    }
  }

  lemma JoinBytes(locks: seq<FileLock>, c: FileLock, a: seq<FileLock>, own: seq<FileLock>,
                  b: seq<FileLock>, own': seq<FileLock>, o: Owner, ty: LockType, x: int)
    requires Split(locks, c, a, own, b)
    requires forall k :: 0 <= k < |own'| ==> own'[k].owner == c.owner
    ensures o != c.owner ==> (Holds(a + own' + b, o, ty, x) <==> Holds(locks, o, ty, x))
    ensures o == c.owner ==> (Holds(a + own' + b, o, ty, x) <==> Holds(own', o, ty, x))
    ensures o == c.owner ==> (Holds(locks, o, ty, x) <==> Holds(own, o, ty, x))
  {
    HoldsConcat(a + own', b, o, ty, x);
    HoldsConcat(a, own', o, ty, x);
    HoldsConcat(a + own, b, o, ty, x);
    HoldsConcat(a, own, o, ty, x);
  }

  /** The pass, once it has stopped, has applied the request. */
  lemma RebuiltApplied(locks: seq<FileLock>, c: FileLock, wrap: bool, a: seq<FileLock>,
                       own: seq<FileLock>, b: seq<FileLock>, p: Progress, cut: bool,
                       id1: nat, id2: nat, woken: seq<Pid>, woken': seq<Pid>)
    requires Canonical(locks) && DistinctIds(locks) && Split(locks, c, a, own, b)
    requires id1 != id2 && id1 !in Ids(locks) && id2 !in Ids(locks)
    requires Pieces(own, c, wrap, p, cut) && Accounted(own, p, woken)
    requires woken' == woken + TrimWakes(own, p, cut)
    ensures Applied(locks, c, id1, id2, a + Rebuilt(own, c, p, cut, id1, id2) + b, woken')
  {
    var own' := Rebuilt(own, c, p, cut, id1, id2);
    SplitOwn(locks, c, a, own, b);
    RebuiltOrdered(own, c, wrap, p, cut, id1, id2);
    RebuiltWaiters(own, c, wrap, p, cut, id1, id2);
    if cut && own[p.k].start < p.cs { StraddlerIsFirst(own, c, wrap, p); }
    RebuiltSleepers(own, c, p, cut, id1, id2, woken);
    JoinCanonical(locks, c, a, own, b, own');
    JoinWaiters(locks, c, a, own, b, own', id1, id2);
    SleepersJoin(a, own, b);
    SleepersJoin(a, own', b);
    forall o, ty, x
      ensures Holds(a + own' + b, o, ty, x) <==>
              if o == c.owner && c.start <= x <= c.end then ty == c.ltype && ty != UnLck
              else Holds(locks, o, ty, x)
    {
      JoinBytes(locks, c, a, own, b, own', o, ty, x);
      if o == c.owner { RebuiltBytes(own, c, wrap, p, cut, id1, id2, ty, x); }
    }
  }
}
