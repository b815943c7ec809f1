/** What one pass over a file's lock list decides: the scans of `posix_lock_file`,
    `flock_lock_file` and `locks_mandatory_area` (fs/locks.c:486-538, 742-799, 841-879)
    and the removal of locks at close time (fs/locks.c:398-442). */
module LockOutcomes {
  import opened LockTypes
  import opened PosixPass

  datatype Outcome = Fail(error: Errno) | Sleep(at: nat) | Apply

  datatype Search = Busy | Same | Change(at: nat) | Absent

  predicate StartsWithPosix(locks: seq<FileLock>) {
    locks != [] && locks[0].kind == Posix
  }

  /** Position of the first lock in the way of `req`; the length of the list if there is none. */
  function FirstBlocker(locks: seq<FileLock>, req: FileLock): (i: nat)
    ensures i <= |locks| && (forall k :: 0 <= k < i ==> !Blocks(locks[k], req))
    ensures i < |locks| ==> Blocks(locks[i], req)
  {
    if locks == [] then 0
    else if Blocks(locks[0], req) then 0
    else
      assert forall k :: 0 < k < |locks| ==> locks[k] == locks[1..][k - 1];
      1 + FirstBlocker(locks[1..], req)
  }

  function PosixOutcome(locks: seq<FileLock>, req: FileLock, wait: bool, deadlock: bool, signal: bool)
    : Outcome
  {
    var i := FirstBlocker(locks, req);
    if StartsWithFlock(locks) then Fail(EBUSY)
    else if req.ltype == UnLck || i == |locks| then Apply
    else if !wait then Fail(EAGAIN)
    else if deadlock then Fail(EDEADLK)
    else if signal then Fail(ERESTARTSYS)
    else Sleep(i)
  }

  function AccessOutcome(locks: seq<FileLock>, req: FileLock, nonblock: bool, deadlock: bool, signal: bool)
    : Outcome
  {
    var i := FirstBlocker(locks, req);
    if !StartsWithPosix(locks) || i == |locks| then Apply
    else if nonblock then Fail(EAGAIN)
    else if signal then Fail(ERESTARTSYS)
    else if deadlock then Fail(EDEADLK)
    else Sleep(i)
  }

  function FlockOutcome(locks: seq<FileLock>, req: FileLock, wait: bool, signal: bool): Outcome {
    var i := FirstBlocker(locks, req);
    if signal then Fail(ERESTARTSYS)
    else if StartsWithPosix(locks) then Fail(EBUSY)
    else if i == |locks| then Apply
    else if !wait then Fail(EAGAIN)
    else Sleep(i)
  }

  /** Position of the first lock of the same open file. */
  function FirstOfFile(locks: seq<FileLock>, filp: nat): (i: nat)
    ensures i <= |locks| && (forall k :: 0 <= k < i ==> locks[k].filp != filp)
    ensures i < |locks| ==> locks[i].filp == filp
  {
    if locks == [] then 0
    else if locks[0].filp == filp then 0
    else
      assert forall k :: 0 < k < |locks| ==> locks[k] == locks[1..][k - 1];
      1 + FirstOfFile(locks[1..], filp)
  }

  function SearchOutcome(locks: seq<FileLock>, req: FileLock): (r: Search)
    ensures r.Change? ==> r.at < |locks|
  {
    var i := FirstOfFile(locks, req.filp);
    if StartsWithPosix(locks) then Busy
    else if i == |locks| then Absent
    else if locks[i].ltype == req.ltype then Same
    else Change(i)
  }

  predicate FlockRequest(c: FileLock) {
    && c.kind == Flock && c.owner == NoTask && c.start == 0 && c.end == OFFSET_MAX
    && c.blocked == []
  }

  /** A list of FLOCK locks: whole-file locks, and a write lock shares the file with no lock
      of another open file. */
  predicate FlockList(locks: seq<FileLock>) {
    && (forall i :: 0 <= i < |locks| ==>
          && locks[i].kind == Flock && locks[i].owner == NoTask && locks[i].ltype != UnLck
          && locks[i].start == 0 && locks[i].end == OFFSET_MAX)
    && (forall i, j :: 0 <= i < |locks| && 0 <= j < |locks| && locks[i].filp != locks[j].filp ==>
          locks[i].ltype == RdLck)
  }

  function Enqueue(locks: seq<FileLock>, i: nat, t: Pid): seq<FileLock>
    requires i < |locks|
  {
    locks[i := locks[i].(blocked := locks[i].blocked + [t])]
  }

  // ---------- closing a file ----------

  /** Whose locks a close removes: the task's POSIX locks, or the open file's FLOCK locks if
      this is the last close of it. */
  datatype Closer = ByTask(owner: Owner) | ByFile(filp: nat) | Nobody

  function CloserOf(locks: seq<FileLock>, t: Pid, filp: nat, last: bool): Closer {
    if StartsWithPosix(locks) then ByTask(Task(t)) else if last then ByFile(filp) else Nobody
  }

  predicate Drops(who: Closer, l: FileLock) {
    match who
    case ByTask(o) => l.owner == o
    case ByFile(f) => l.filp == f
    case Nobody => false
  }

  function Remaining(locks: seq<FileLock>, who: Closer): seq<FileLock> {
    if locks == [] then []
    else if Drops(who, locks[0]) then Remaining(locks[1..], who)
    else [locks[0]] + Remaining(locks[1..], who)
  }

  function Dropped(locks: seq<FileLock>, who: Closer): seq<Pid> {
    if locks == [] then []
    else if Drops(who, locks[0]) then locks[0].blocked + Dropped(locks[1..], who)
    else Dropped(locks[1..], who)
  }

  /** `r` are the members of `locks` at the positions `idx`, in order. */
  ghost predicate Picks(r: seq<FileLock>, locks: seq<FileLock>, idx: seq<nat>) {
    && |idx| == |r|
    && (forall i :: 0 <= i < |idx| ==> idx[i] < |locks| && r[i] == locks[idx[i]])
    && (forall i, j :: 0 <= i < j < |idx| ==> idx[i] < idx[j])
  }

  lemma PicksLater(r: seq<FileLock>, first: FileLock, locks: seq<FileLock>, idx: seq<nat>) returns (later: seq<nat>)
    requires Picks(r, locks, idx)
    ensures Picks(r, [first] + locks, later) && Picks([first] + r, [first] + locks, [0] + later)
  {
    later := seq(|idx|, i requires 0 <= i < |idx| => idx[i] + 1);
  }

  /** The locks that stay, in their old order: `idx` lists their old positions. */
  lemma {:induction false} RemainingAt(locks: seq<FileLock>, who: Closer) returns (idx: seq<nat>)
    ensures Picks(Remaining(locks, who), locks, idx)
    ensures forall i :: 0 <= i < |idx| ==> !Drops(who, Remaining(locks, who)[i])
  {
    hide Drops, Picks;
    if locks == [] {
      idx := [];
      assert Picks([], [], []) by { NothingPicked(); }
    } else {
      var r := Remaining(locks[1..], who);
      var rest := RemainingAt(locks[1..], who);
      var later := PicksLater(r, locks[0], locks[1..], rest);
      assert locks == [locks[0]] + locks[1..];
      idx := if Drops(who, locks[0]) then later else [0] + later;
      PicksLength(r, locks[1..], rest);
      PicksLength(r, locks, later);
    }
  }

  lemma NothingPicked()
    ensures Picks([], [], [])
  {
  }

  lemma PicksLength(r: seq<FileLock>, locks: seq<FileLock>, idx: seq<nat>)
    requires Picks(r, locks, idx)
    ensures |idx| == |r|
  {
  }

  /** A close takes away the closer's locks and nothing else. */
  lemma {:induction false} RemainingHolds(locks: seq<FileLock>, o: Owner, who: Owner, ty: LockType, b: int)
    ensures Holds(Remaining(locks, ByTask(who)), o, ty, b) <==> o != who && Holds(locks, o, ty, b)
  {
    if locks != [] {
      RemainingHolds(locks[1..], o, who, ty, b);
      assert locks == [locks[0]] + locks[1..];
      HoldsConcat([locks[0]], locks[1..], o, ty, b);
      HoldsConcat([locks[0]], Remaining(locks[1..], ByTask(who)), o, ty, b);
      assert Holds([locks[0]], o, ty, b) <==> Covers([locks[0]][0], o, ty, b);
    }
  }

  lemma RemainingCanonical(locks: seq<FileLock>, who: Closer)
    requires Canonical(locks)
    ensures Canonical(Remaining(locks, who))
  {
    var r := Remaining(locks, who);
    var idx := RemainingAt(locks, who);
    forall i, j | 0 <= i < j < |r| && r[i].owner == r[j].owner
      ensures Before(r[i], r[j])
    {
      assert Before(locks[idx[i]], locks[idx[j]]);
    }
    forall i, j, k | 0 <= i < j < k < |r| && r[i].owner == r[k].owner
      ensures r[j].owner == r[i].owner
    {
      assert locks[idx[j]].owner == locks[idx[i]].owner;
    }
  }

  /** The lists that survive belong to locks that survive. */
  lemma RemainingKeeps(locks: seq<FileLock>, who: Closer)
    requires DistinctIds(locks)
    ensures var r := Remaining(locks, who);
            && DistinctIds(r) && Ids(r) <= Ids(locks) && WaitersKept(locks, r)
            && (FlockList(locks) ==> FlockList(r))
  {
    var r := Remaining(locks, who);
    var idx := RemainingAt(locks, who);
    forall i | 0 <= i < |r| ensures GrownFrom(r[i], locks[idx[i]]) && r[i].id in Ids(locks) {}
  }

  lemma {:induction false} RemainingSleepers(locks: seq<FileLock>, who: Closer)
    ensures Sleepers(locks) == Sleepers(Remaining(locks, who)) + SetOf(Dropped(locks, who))
  {
    if locks != [] {
      RemainingSleepers(locks[1..], who);
      SetOfConcat(locks[0].blocked, Dropped(locks[1..], who));
    }
  }

  // ---------- the passes as loops ----------

  lemma NoneRemain(who: Closer)
    ensures Remaining([], who) == [] && Dropped([], who) == []
  {
  }

  lemma RemainingNext(locks: seq<FileLock>, who: Closer, i: nat)
    requires i < |locks|
    ensures var rest := locks[i + 1..];
            if Drops(who, locks[i])
            then Remaining(locks[i..], who) == Remaining(rest, who) &&
                 Dropped(locks[i..], who) == locks[i].blocked + Dropped(rest, who)
            else locks[..i] + Remaining(locks[i..], who) == locks[..i + 1] + Remaining(rest, who) &&
                 Dropped(locks[i..], who) == Dropped(rest, who)
  {
    assert locks[i..][1..] == locks[i + 1..];
    assert locks[..i + 1] == locks[..i] + [locks[i]];
  }

  lemma CutOut(locks: seq<FileLock>, i: nat)
    requires i < |locks|
    ensures var cut := locks[..i] + locks[i + 1..]; cut[..i] == locks[..i] && cut[i..] == locks[i + 1..]
  {
  }

  /** `posix_remove_locks` and `flock_remove_locks`: unlink every lock of the closer. */
  method RemoveLocks(inode: Inode, who: Closer) returns (woken: seq<Pid>)
    modifies inode
    ensures inode.flock == Remaining(old(inode.flock), who)
    ensures woken == Dropped(old(inode.flock), who)
  {
    hide Remaining, Dropped, Drops;
    woken := [];
    var before := 0;
    assert inode.flock[0..] == inode.flock;
    NoneRemain(who);
    while before < |inode.flock|
      invariant 0 <= before <= |inode.flock|
      invariant inode.flock[..before] + Remaining(inode.flock[before..], who) == Remaining(old(inode.flock), who)
      invariant woken + Dropped(inode.flock[before..], who) == Dropped(old(inode.flock), who)
      decreases |inode.flock| - before
    {
      var fl := inode.flock[before];
      var flock := inode.flock;
      RemainingNext(flock, who, before);
      if Drops(who, fl) {
        inode.flock := flock[..before] + flock[before + 1..];
        woken := woken + fl.blocked;
        CutOut(flock, before);
      } else {
        before := before + 1;
      }
    }
    assert inode.flock[before..] == [] && inode.flock[..before] == inode.flock;
  }

  /** The scan for a lock in the way of `req`. */
  method FindBlocker(inode: Inode, req: FileLock) returns (i: nat)
    ensures i == FirstBlocker(inode.flock, req)
  {
    i := 0;
    while i < |inode.flock| && !Blocks(inode.flock[i], req)
      invariant i <= |inode.flock|
      invariant forall k :: 0 <= k < i ==> !Blocks(inode.flock[k], req)
    {
      i := i + 1;
    }
  }
}
