/** The calls of fs/locks.c between two sleeps, as they run on an inode. */
module LockCalls {
  import opened Lists
  import opened LockTypes
  import opened PosixLocks
  import opened PosixPass
  import opened PosixVisit
  import opened Deadlock
  import opened LockOutcomes

  /** `posix_make_lock` (fs/locks.c:543-594): the absolute range of a `struct flock`, with the
      sums taken on a 32-bit `off_t`; None when the call fails with EINVAL. */
  datatype Range = Invalid | Range(start: int, end: int)

  function PosixMakeRange(base: int, lstart: int, len: int): Range {
    var start := Wrap32(base + lstart);
    if start < 0 || len < 0 then Invalid
    else
      var end := Wrap32(start + len - 1);
      Range(start, if len == 0 || end < 0 then OFFSET_MAX else end)
  }

  predicate InRange(r: Range, b: int)
    requires r.Range?
  {
    r.start <= b <= r.end
  }

  /** Byte `b` is one the caller asked for; length 0 means up to the end of the file. */
  predicate Asked(start: int, len: int, b: int) {
    start <= b <= OFFSET_MAX && (len == 0 || b < start + len)
  }

  predicate Is32(x: int) { -0x8000_0000 <= x < 0x8000_0000 }

  /** Overflow is caught: the range is the requested one, cut off at OFFSET_MAX, and the call fails
      exactly when it would begin before byte 0 or beyond OFFSET_MAX, or has negative length. */
  lemma MakeRangeIsExact(base: int, lstart: int, len: int)
    requires Is32(base) && 0 <= base && Is32(lstart) && Is32(len)
    ensures var r := PosixMakeRange(base, lstart, len);
            && (r == Invalid <==> base + lstart < 0 || base + lstart > OFFSET_MAX || len < 0)
            && (r.Range? ==>
                  && 0 <= r.start <= r.end <= OFFSET_MAX
                  && forall b :: InRange(r, b) <==> Asked(base + lstart, len, b))
  {
    assert Wrap32(base + lstart) == if base + lstart > OFFSET_MAX then base + lstart - 0x1_0000_0000 else base + lstart;
  }

  ghost predicate WouldDeadlock(locks: seq<FileLock>, req: FileLock, t: Pid, w: Graph) {
    var i := FirstBlocker(locks, req);
    i < |locks| && locks[i].owner.Task? && Reaches(w, locks[i].owner.pid, t)
  }

  /** `posix_lock_file` from `repeat` to its next sleep or its return (fs/locks.c:841-1001). */
  method PosixLockFile(inode: Inode, req: FileLock, t: Pid, wait: bool, signal: bool,
                       table: seq<FileLock>, ghost w: Graph, id1: nat, id2: nat, wrap: bool)
    returns (out: Outcome, woken: seq<Pid>)
    requires Request(req) && req.owner == Task(t)
    requires StartsWithFlock(inode.flock) || Canonical(inode.flock)
    requires DistinctIds(inode.flock) && id1 != id2 && id1 !in Ids(inode.flock) && id2 !in Ids(inode.flock)
    requires IsGraph(w, table) && Acyclic(w)
    modifies inode
    ensures out == PosixOutcome(old(inode.flock), req, wait, WouldDeadlock(old(inode.flock), req, t, w), signal)
    ensures out.Fail? ==> inode.flock == old(inode.flock) && woken == []
    ensures out.Sleep? ==>
              out.at < |old(inode.flock)| && inode.flock == Enqueue(old(inode.flock), out.at, t) && woken == []
    ensures out.Apply? ==> After(inode.flock, woken) == Applying(old(inode.flock), req, id1, id2, wrap)
    ensures out.Apply? ==>
              if wrap && WrapHits(old(inode.flock), req)
              then !Canonical(inode.flock) && (MapOk(old(inode.flock), req, inode.flock) <==> !MapHits(old(inode.flock), req))
              else Applied(old(inode.flock), req, id1, id2, inode.flock, woken)
  {
    woken := [];
    if req.ltype != UnLck {
      if inode.flock != [] && inode.flock[0].kind == Flock {
        return Fail(EBUSY), woken;
      }
      var i := FindBlocker(inode, req);
      if i < |inode.flock| {
        if !wait {
          return Fail(EAGAIN), woken;
        }
        assert WellFormed(inode.flock[i]);
        var deadlock := PosixLocksDeadlock(table, t, inode.flock[i].owner.pid, w);
        if deadlock {
          return Fail(EDEADLK), woken;
        }
        if signal {
          return Fail(ERESTARTSYS), woken;
        }
        inode.flock := Enqueue(inode.flock, i, t);
        return Sleep(i), woken;
      }
    }
    var error: Errno;
    error, woken := inode.PosixApply(req, id1, id2, wrap);
    out := if error == Ok then Apply else Fail(error);
  }

  /** `locks_mandatory_area` from `repeat` to its next sleep or its return (fs/locks.c:502-538).
      `Apply` stands for access granted. */
  method MandatoryArea(inode: Inode, req: FileLock, t: Pid, nonblock: bool, signal: bool,
                       table: seq<FileLock>, ghost w: Graph)
    returns (out: Outcome)
    requires req.owner == Task(t) && req.ltype != UnLck
    requires StartsWithFlock(inode.flock) || Canonical(inode.flock)
    requires IsGraph(w, table) && Acyclic(w)
    modifies inode
    ensures out == AccessOutcome(old(inode.flock), req, nonblock, WouldDeadlock(old(inode.flock), req, t, w), signal)
    ensures !out.Sleep? ==> inode.flock == old(inode.flock)
    ensures out.Sleep? ==>
              out.at < |old(inode.flock)| && inode.flock == Enqueue(old(inode.flock), out.at, t)
  {
    if inode.flock == [] || inode.flock[0].kind == Flock {
      return Apply;
    }
    var i := 0;
    while i < |inode.flock|
      invariant 0 <= i <= |inode.flock| && inode.flock == old(inode.flock)
      invariant forall k :: 0 <= k < i ==> !Blocks(inode.flock[k], req)
    {
      var fl := inode.flock[i];
      assert WellFormed(fl);
      // the source passes the arguments in the other order here
      ConflictIsSymmetric(fl, req);
      if PosixLocksConflict(fl, req) {
        if nonblock {
          return Fail(EAGAIN);
        }
        if signal {
          return Fail(ERESTARTSYS);
        }
        var deadlock := PosixLocksDeadlock(table, t, fl.owner.pid, w);
        if deadlock {
          return Fail(EDEADLK);
        }
        inode.flock := Enqueue(inode.flock, i, t);
        return Sleep(i);
      }
      i := i + 1;
    }
    out := Apply;
  }

  /** `flock_lock_file` from `repeat` to its next sleep or its return (fs/locks.c:776-806). */
  method FlockLockFile(inode: Inode, req: FileLock, t: Pid, wait: bool, signal: bool, id: nat)
    returns (out: Outcome)
    requires FlockRequest(req)
    requires StartsWithPosix(inode.flock) || FlockList(inode.flock)
    modifies inode
    ensures out == FlockOutcome(old(inode.flock), req, wait, signal)
    ensures out.Fail? ==> inode.flock == old(inode.flock)
    ensures out.Sleep? ==>
              out.at < |old(inode.flock)| && inode.flock == Enqueue(old(inode.flock), out.at, t)
    ensures out.Apply? ==> inode.flock == [NewLock(req, id)] + old(inode.flock)
  {
    if signal {
      return Fail(ERESTARTSYS);
    }
    if inode.flock != [] && inode.flock[0].kind == Posix {
      return Fail(EBUSY);
    }
    var i := FindBlocker(inode, req);
    if i < |inode.flock| {
      if !wait {
        return Fail(EAGAIN);
      }
      inode.flock := Enqueue(inode.flock, i, t);
      return Sleep(i);
    }
    inode.flock := [NewLock(req, id)] + inode.flock;
    out := Apply;
  }

  /** The search of `flock_lock_file` for the open file's own lock (fs/locks.c:742-772).  A lock of
      another type is unlinked and handed back; its waiters are woken at once by an unlock and
      drained one by one otherwise. */
  method FlockSearchFile(inode: Inode, req: FileLock) returns (found: Search, dead: seq<FileLock>)
    modifies inode
    ensures found == SearchOutcome(old(inode.flock), req)
    ensures found.Change? ==>
              && found.at < |old(inode.flock)| && dead == [old(inode.flock)[found.at]]
              && inode.flock == RemoveAt(old(inode.flock), found.at)
    ensures !found.Change? ==> dead == [] && inode.flock == old(inode.flock)
  {
    dead := [];
    if inode.flock != [] && inode.flock[0].kind == Posix {
      return Busy, dead;
    }
    var before := 0;
    while before < |inode.flock| && inode.flock[before].filp != req.filp
      invariant 0 <= before <= |inode.flock| && inode.flock == old(inode.flock)
      invariant forall k :: 0 <= k < before ==> inode.flock[k].filp != req.filp
    {
      before := before + 1;
    }
    if before == |inode.flock| {
      return Absent, dead;
    }
    var fl := inode.flock[before];
    if fl.ltype == req.ltype {
      return Same, dead;
    }
    dead := [fl];
    inode.flock := inode.flock[..before] + inode.flock[before + 1..];
    found := Change(before);
  }

  /** An explicit FLOCK unlock removes one lock.  It releases the open file exactly when that was
      the only lock the file had. */
  lemma UnlockReleasesIff(locks: seq<FileLock>, filp: nat)
    requires FirstOfFile(locks, filp) < |locks|
    ensures var k := FirstOfFile(locks, filp);
            (forall i :: 0 <= i < |locks| - 1 ==> RemoveAt(locks, k)[i].filp != filp) <==>
            (forall i :: k < i < |locks| ==> locks[i].filp != filp)
  {
    var k := FirstOfFile(locks, filp);
    var r := RemoveAt(locks, k);
    assert forall i :: 0 <= i < |r| ==> r[i] == locks[if i < k then i else i + 1];
    if forall i :: 0 <= i < |r| ==> r[i].filp != filp {
      forall i | k < i < |locks| ensures locks[i].filp != filp { assert r[i - 1] == locks[i]; }
    }
  }
}
