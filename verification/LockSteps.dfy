/** The code of `LockCalls`, run on a reachable state, takes the steps of `LockProtocol`; in particular the search
    over the table of all locks decides what the protocol calls a deadlock (fs/locks.c:691-714). */
module LockSteps {
  import opened Lists
  import opened LockTypes
  import opened PosixLocks
  import opened PosixPass
  import opened Deadlock
  import opened LockOutcomes
  import opened LockCalls
  import opened LockProtocol

  /** `file_lock_table`: the locks of all files. */
  ghost predicate IsTable(s: State, table: seq<FileLock>) {
    forall l :: l in table <==> exists ino :: InFile(s, ino, l)
  }

  /** The block lists of the table are the waits of the protocol. */
  lemma TableIsGraph(s: State, table: seq<FileLock>)
    requires Inv(s) && IsTable(s, table)
    ensures IsGraph(WaitGraph(s), table)
  {
    hide Acyclic, FilesOk, IdsOk, NobodyStranded;
    forall x, y ensures x in WaitGraph(s) && WaitGraph(s)[x] == y <==> WaitsFor(table, x, y) {
      if WaitsFor(table, x, y) { TableWait(s, table, x, y); }
      if x in WaitGraph(s) && WaitGraph(s)[x] == y { GraphWait(s, table, x); }
    }
  }

  lemma TableWait(s: State, table: seq<FileLock>, x: Pid, y: Pid)
    requires Inv(s) && IsTable(s, table) && WaitsFor(table, x, y)
    ensures x in WaitGraph(s) && WaitGraph(s)[x] == y
  {
    hide Acyclic, FilesOk, IdsOk, NobodyStranded, TasksOk;
    var i :| 0 <= i < |table| && table[i].owner == Task(y) && x in table[i].blocked;
    assert table[i] in table;
    assert Placed(s, table[i]) && WaiterOk(s, table[i], x);
    assert OnList(s, x);
  }

  lemma GraphWait(s: State, table: seq<FileLock>, x: Pid)
    requires Inv(s) && IsTable(s, table) && x in WaitGraph(s)
    ensures WaitsFor(table, x, WaitGraph(s)[x])
  {
    hide Acyclic, FilesOk, IdsOk, NobodyStranded;
    var l :| Placed(s, l) && x in l.blocked;
    assert WaiterOk(s, l, x) && l.owner == s.tasks[x].on;
    // a drained lock has no owner to wait for
    assert forall t :: IsDead(s, t, l) ==> l.owner == NoTask;
    assert l in table;
    var i :| 0 <= i < |table| && table[i] == l;
  }

  lemma ListFacts(s: State, ino: Ino)
    requires Inv(s) && ino in s.files
    ensures var locks := s.files[ino];
            && (StartsWithFlock(locks) || Canonical(locks)) && (StartsWithPosix(locks) || FlockList(locks))
            && DistinctIds(locks) && s.next !in Ids(locks) && s.next + 1 !in Ids(locks)
            && Acyclic(WaitGraph(s))
  {
    var locks := s.files[ino];
    InvList(s, ino);
    if !StartsWithFlock(locks) { EmptyIsCanonical(locks); }
    if !StartsWithPosix(locks) { EmptyIsFlock(locks); }
    forall i | 0 <= i < |locks| ensures locks[i].id < s.next {
      assert InFile(s, ino, locks[i]) && Placed(s, locks[i]);
    }
  }

  /** `posix_lock_file` from `repeat` is the step `PosixTry`. */
  method PosixStretch(inode: Inode, req: FileLock, t: Pid, wait: bool, signal: bool, table: seq<FileLock>,
                      id1: nat, id2: nat, ghost s: State, ghost ino: Ino)
    returns (out: Outcome, woken: seq<Pid>, ghost s': State)
    requires Inv(s) && ino in s.files && IsTable(s, table) && inode.flock == s.files[ino]
    requires Request(req) && req.owner == Task(t) && id1 == s.next && id2 == s.next + 1
    modifies inode
    ensures PosixTry(s, t, ino, req, wait, signal, s') && ino in s'.files && s'.files[ino] == inode.flock
    ensures if out.Apply? then s' == Update(s, ino, inode.flock, woken, s.next + 2) else woken == []
    ensures out == PosixOutcome(s.files[ino], req, wait, Deadlocks(s, t, s.files[ino], req), signal)
  {
    hide Inv, Canonical, Applied, Acyclic, WaitGraph, IsGraph, Reaches, Request;
    ListFacts(s, ino);
    TableIsGraph(s, table);
    out, woken := PosixLockFile(inode, req, t, wait, signal, table, WaitGraph(s), id1, id2, false);
    s' := match out
          case Fail(_) => s
          case Sleep(i) => Block(s, t, ino, i, req, Setlkw)
          case Apply => Update(s, ino, inode.flock, woken, s.next + 2);
    assert out.Apply? ==> AppliedFrom(s.files[ino], req, s.next, inode.flock, woken);
  }

  /** `locks_mandatory_area` from `repeat` is the step `AccessTry`. */
  method AccessStretch(inode: Inode, req: FileLock, t: Pid, nonblock: bool, signal: bool, table: seq<FileLock>,
                       ghost s: State, ghost ino: Ino)
    returns (out: Outcome, ghost s': State)
    requires Inv(s) && ino in s.files && IsTable(s, table) && inode.flock == s.files[ino]
    requires req.owner == Task(t) && req.ltype != UnLck
    modifies inode
    ensures AccessTry(s, t, ino, req, nonblock, signal, s') && ino in s'.files && s'.files[ino] == inode.flock
    ensures out == AccessOutcome(s.files[ino], req, nonblock, Deadlocks(s, t, s.files[ino], req), signal)
  {
    hide Inv, Canonical, Acyclic, WaitGraph, IsGraph, Reaches;
    ListFacts(s, ino);
    TableIsGraph(s, table);
    out := MandatoryArea(inode, req, t, nonblock, signal, table, WaitGraph(s));
    s' := if out.Sleep? then Block(s, t, ino, out.at, req, Access) else s;
  }

  /** `flock_lock_file` from `repeat` is the step `FlockGrant`. */
  method GrantStretch(inode: Inode, req: FileLock, t: Pid, wait: bool, signal: bool, id: nat,
                      ghost s: State, ghost ino: Ino)
    returns (out: Outcome, ghost s': State)
    requires Inv(s) && ino in s.files && inode.flock == s.files[ino] && FlockRequest(req) && id == s.next
    modifies inode
    ensures FlockGrant(s, t, ino, req, wait, signal, s') && ino in s'.files && s'.files[ino] == inode.flock
    ensures out == FlockOutcome(s.files[ino], req, wait, signal)
  {
    hide Inv, Canonical, FlockList, Acyclic, WaitGraph;
    ListFacts(s, ino);
    out := FlockLockFile(inode, req, t, wait, signal, id);
    s' := match out
          case Fail(_) => s
          case Sleep(i) => Block(s, t, ino, i, req, FlockCall)
          case Apply => Update(s, ino, inode.flock, [], s.next + 1);
  }

  /** `flock_lock_file` from `search` is the step `FlockSearch`. */
  method SearchStretch(inode: Inode, req: FileLock, t: Pid, wait: bool, signal: bool, id: nat,
                       ghost s: State, ghost ino: Ino)
    returns (found: Search, ghost s': State)
    requires Inv(s) && ino in s.files && inode.flock == s.files[ino] && FlockRequest(req) && id == s.next
    modifies inode
    ensures FlockSearch(s, t, ino, req, wait, signal, s') && ino in s'.files && s'.files[ino] == inode.flock
  {
    hide Inv, Canonical, FlockList, Acyclic, WaitGraph, FlockGrant, Wake;
    var dead;
    found, dead := FlockSearchFile(inode, req);
    s' := s;
    if found.Change? {
      s' := if req.ltype == UnLck then Update(s, ino, inode.flock, dead[0].blocked, s.next)
            else s.(files := s.files[ino := inode.flock], tasks := s.tasks[t := Draining(ino, req, wait, dead[0])]);
    } else if found.Absent? && req.ltype != UnLck {
      var out;
      out, s' := GrantStretch(inode, req, t, wait, signal, id, s, ino);
    }
  }
}
