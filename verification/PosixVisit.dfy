/** What the pass of `posix_lock_file` (fs/locks.c:883-991) makes of a list, as a function: which lock it stops at,
    what it has made of the locks before it, and whom it wakes. */
module PosixVisit {
  import opened LockTypes
  import opened PosixLocks

  /** `caller->fl_end + 1`, in unbounded arithmetic or on a 32-bit `off_t`. */
  function EndPlusOne(e: int, wrap: bool): int {
    if wrap then Wrap32(e + 1) else e + 1
  }

  datatype Visit = Goes(p: Progress, woken: seq<Pid>) | Stops(cut: bool)

  /** A lock of the caller's own type (fs/locks.c:892-920). */
  function MeetSame(fl: FileLock, p: Progress, wrap: bool): Visit {
    if fl.end < p.cs - 1 then Goes(p.(j := p.k + 1, k := p.k + 1), [])
    else if fl.start > EndPlusOne(p.ce, wrap) then Stops(false)
    else
      var cs, ce := Min(p.cs, fl.start), Max(p.ce, fl.end);
      var m := (if p.mid == [] then fl else p.mid[0]).(start := cs, end := ce);
      Goes(p.(k := p.k + 1, mid := [m], added := true, cs := cs, ce := ce), if p.mid == [] then [] else fl.blocked)
  }

  /** A lock of another type (fs/locks.c:921-960). */
  function MeetOther(fl: FileLock, c: FileLock, p: Progress): Visit {
    if fl.end < p.cs then Goes(p.(j := p.k + 1, k := p.k + 1), [])
    else if fl.start > p.ce then Stops(false)
    else if fl.end > p.ce then Stops(true)
    else if fl.start < p.cs then
      Goes(p.(j := p.k + 1, k := p.k + 1, hasLeft := true, added := p.added || c.ltype == UnLck), [])
    else if p.added || c.ltype == UnLck then Goes(p.(k := p.k + 1, added := true), fl.blocked)
    else
      var m := fl.(start := p.cs, end := p.ce, ltype := c.ltype, blocked := []);
      Goes(p.(k := p.k + 1, mid := [m], added := true), fl.blocked)
  }

  function Meet(fl: FileLock, c: FileLock, p: Progress, wrap: bool): Visit {
    if fl.ltype == c.ltype then MeetSame(fl, p, wrap) else MeetOther(fl, c, p)
  }

  predicate InRun(own: seq<FileLock>, p: Progress) { p.j <= p.k <= |own| && (p.hasLeft ==> p.j > 0) }

  datatype Passed = Passed(p: Progress, cut: bool, woken: seq<Pid>)

  /** From lock `p.k` of the caller's run on. */
  function Pass(own: seq<FileLock>, c: FileLock, wrap: bool, p: Progress, woken: seq<Pid>): (r: Passed)
    requires InRun(own, p)
    ensures InRun(own, r.p) && (r.cut ==> r.p.k < |own|)
    decreases |own| - p.k
  {
    if p.k == |own| then Passed(p, false, woken)
    else
      match Meet(own[p.k], c, p, wrap)
      case Stops(cut) => Passed(p, cut, woken)
      case Goes(q, more) => Pass(own, c, wrap, q, woken + more)
  }

  /** The first position from `i` on that is, or is not, the owner's. */
  function Seek(locks: seq<FileLock>, o: Owner, mine: bool, i: nat): (k: nat)
    requires i <= |locks|
    ensures i <= k <= |locks| && (k < |locks| ==> (locks[k].owner == o) == mine)
    ensures forall x :: i <= x < k ==> (locks[x].owner == o) != mine
    decreases |locks| - i
  {
    if i == |locks| || (locks[i].owner == o) == mine then i else Seek(locks, o, mine, i + 1)
  }

  datatype After = After(locks: seq<FileLock>, woken: seq<Pid>)

  /** The whole call: the caller's run rebuilt in its place. */
  function Applying(locks: seq<FileLock>, c: FileLock, id1: nat, id2: nat, wrap: bool): After {
    var i := Seek(locks, c.owner, true, 0);
    var k := Seek(locks, c.owner, false, i);
    var own := locks[i..k];
    var r := Pass(own, c, wrap, Start(c), []);
    After(locks[..i] + Rebuilt(own, c, r.p, r.cut, id1, id2) + locks[k..], r.woken + TrimWakes(own, r.p, r.cut))
  }

  /** The parts of a list that has the caller's locks in one run. */
  lemma PartsAre(locks: seq<FileLock>, c: FileLock, a: seq<FileLock>, own: seq<FileLock>, b: seq<FileLock>,
                 id1: nat, id2: nat, wrap: bool)
    requires Split(locks, c, a, own, b)
    ensures var r := Pass(own, c, wrap, Start(c), []);
            Applying(locks, c, id1, id2, wrap) ==
            After(a + Rebuilt(own, c, r.p, r.cut, id1, id2) + b, r.woken + TrimWakes(own, r.p, r.cut))
  {
    hide Pass, Rebuilt, TrimWakes, Start;
    var i := Seek(locks, c.owner, true, 0);
    var k := Seek(locks, c.owner, false, i);
    assert own != [] ==> locks[|a|] == own[0];
    assert forall x :: 0 <= x < |a| ==> locks[x] == a[x];
    assert i == |a|;
    assert b != [] ==> locks[|a| + |own|] == b[0];
    assert forall x :: 0 <= x < |own| ==> locks[|a| + x] == own[x];
    assert k == |a| + |own|;
    assert locks[..i] == a && locks[i..k] == own && locks[k..] == b;
  }
}
