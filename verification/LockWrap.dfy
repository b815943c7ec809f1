/** The lock protocol on a 32-bit `off_t`, where `caller->fl_end + 1` wraps for OFFSET_MAX (fs/locks.c:898): the
    step that loses the invariant, and what even that step keeps. */
module LockWrap {
  import opened LockTypes
  import opened PosixLocks
  import opened PosixVisit
  import opened PosixPass
  import opened Deadlock
  import opened LockOutcomes
  import opened LockProtocol
  import opened LockCalls
  import opened LockSteps

  ghost predicate Applies(s: State, t: Pid, ino: Ino, req: FileLock, wait: bool, signal: bool)
    requires ino in s.files
  {
    PosixOutcome(s.files[ino], req, wait, Deadlocks(s, t, s.files[ino], req), signal).Apply?
  }

  /** `PosixTry` with the arithmetic of the source. */
  ghost predicate WrapTry(s: State, t: Pid, ino: Ino, req: FileLock, wait: bool, signal: bool, s': State)
    requires ino in s.files
  {
    if Applies(s, t, ino, req, wait, signal) then
      var r := Applying(s.files[ino], req, s.next, s.next + 1, true);
      s' == Update(s, ino, r.locks, r.woken, s.next + 2)
    else PosixTry(s, t, ino, req, wait, signal, s')
  }

  ghost predicate WrapNext(s: State, step: Step, s': State) {
    match step
    case SetLk(t, ino, req, wait, signal) =>
      && RunningIn(s, t, ino) && Request(req) && req.owner == Task(t)
      && WrapTry(s, t, ino, req, wait, signal, s')
    case ResumeSetLk(t, signal) =>
      && WokenFrom(s, t, Setlkw)
      && WrapTry(Unblock(s, t), t, s.tasks[t].ino, s.tasks[t].req, true, signal, s')
    case _ => Next(s, step, s')
  }

  /** A request up to OFFSET_MAX is applied while its owner has a lock of the type that touches it. */
  ghost predicate Spoils(s: State, step: Step) {
    match step
    case SetLk(t, ino, req, wait, signal) =>
      ino in s.files && Applies(s, t, ino, req, wait, signal) && WrapHits(s.files[ino], req)
    case ResumeSetLk(t, signal) =>
      && WokenFrom(s, t, Setlkw)
      && var s1, ino, req := Unblock(s, t), s.tasks[t].ino, s.tasks[t].req;
         Applies(s1, t, ino, req, true, signal) && WrapHits(s1.files[ino], req)
    case _ => false
  }

  lemma NextIds(s: State, ino: Ino)
    requires Inv(s) && ino in s.files
    ensures s.next !in Ids(s.files[ino]) && s.next + 1 !in Ids(s.files[ino]) && DistinctIds(s.files[ino])
  {
    InvList(s, ino);
  }

  /** The call as the protocol has it, unless it is one that wrapping spoils. */
  lemma TryIff(s: State, t: Pid, ino: Ino, req: FileLock, wait: bool, signal: bool, s': State)
    requires Inv(s) && t in s.tasks && s.tasks[t] == Running && ino in s.files
    requires Request(req) && req.owner == Task(t) && WrapTry(s, t, ino, req, wait, signal, s')
    ensures Inv(s') <==> !(Applies(s, t, ino, req, wait, signal) && WrapHits(s.files[ino], req))
    ensures ino in s'.files
  {
    hide Inv, Canonical, Exclusive, Request, Applied, WrapHits, Applying, Within, MapOk, MapHits, DistinctIds, Ids;
    var locks := s.files[ino];
    if Applies(s, t, ino, req, wait, signal) {
      InvList(s, ino);
      EmptyIsCanonical(locks);
      NextIds(s, ino);
      ApplyingOk(locks, req, s.next, s.next + 1, true);
      var r := Applying(locks, req, s.next, s.next + 1, true);
      if WrapHits(locks, req) {
        Mixed(s', ino);
      } else {
        assert AppliedFrom(locks, req, s.next, r.locks, r.woken);
        assert PosixTry(s, t, ino, req, wait, signal, s');
        PosixTryInv(s, t, ino, req, wait, signal, s');
      }
    } else {
      PosixTryInv(s, t, ino, req, wait, signal, s');
      TryFiles(s, t, ino, req, wait, signal, s');
    }
  }

  lemma TryFiles(s: State, t: Pid, ino: Ino, req: FileLock, wait: bool, signal: bool, s': State)
    requires ino in s.files && PosixTry(s, t, ino, req, wait, signal, s')
    ensures ino in s'.files
  {
  }

  lemma Mixed(s: State, ino: Ino)
    requires ino in s.files && !Canonical(s.files[ino]) && HasPosix(s.files[ino])
    ensures !Inv(s)
  {
    hide Canonical, Exclusive;
    assert !FlockList(s.files[ino]);
    assert !ListOk(s.files[ino]);
  }

  /** Every step keeps the invariant if and only if it is not one that wrapping spoils. */
  lemma WrapNextInv(s: State, step: Step, s': State)
    requires Inv(s) && WrapNext(s, step, s')
    ensures Inv(s') <==> !Spoils(s, step)
  {
    hide Inv, WrapTry, Applies, WrapHits, Request, PosixTry, AccessTry, FlockGrant, FlockSearch;
    match step
    case SetLk(t, ino, req, wait, signal) => TryIff(s, t, ino, req, wait, signal, s');
    case ResumeSetLk(t, signal) =>
      WaitingFacts(s, t);
      UnblockInv(s, t);
      TryIff(Unblock(s, t), t, s.tasks[t].ino, s.tasks[t].req, true, signal, s');
    case _ => NextInv(s, step, s');
  }

  ghost predicate WrapRun(states: seq<State>, steps: seq<Step>) {
    && |states| == |steps| + 1 && Init(states[0])
    && forall i :: 0 <= i < |steps| ==> WrapNext(states[i], steps[i], states[i + 1])
  }

  lemma {:induction false} UpTo(states: seq<State>, steps: seq<Step>, n: nat)
    requires WrapRun(states, steps) && n < |states|
    requires forall i :: 0 <= i < n ==> !Spoils(states[i], steps[i])
    ensures Inv(states[n])
  {
    hide Inv, WrapNext, Spoils;
    if n == 0 {
      InitInv(states[0]);
    } else {
      UpTo(states, steps, n - 1);
      WrapNextInv(states[n - 1], steps[n - 1], states[n - 1 + 1]);
    }
  }

  /** Over every run all states satisfy the invariant if and only if no request is spoiled. */
  lemma RunIff(states: seq<State>, steps: seq<Step>)
    requires WrapRun(states, steps)
    ensures (forall n :: 0 <= n < |states| ==> Inv(states[n]))
            <==> forall n :: 0 <= n < |steps| ==> !Spoils(states[n], steps[n])
  {
    hide Inv, WrapNext, Spoils;
    if forall n :: 0 <= n < |states| ==> Inv(states[n]) {
      forall n | 0 <= n < |steps| ensures !Spoils(states[n], steps[n]) {
        assert Inv(states[n]) && Inv(states[n + 1]);
        WrapNextInv(states[n], steps[n], states[n + 1]);
      }
    } else {
      var n :| 0 <= n < |states| && !Inv(states[n]);
      if forall i :: 0 <= i < n ==> !Spoils(states[i], steps[i]) { UpTo(states, steps, n); }
    }
  }

  /** Even a spoiled request leaves no write lock on a byte that another task has locked. */
  lemma StillExclusive(s: State, t: Pid, ino: Ino, req: FileLock, wait: bool, signal: bool, s': State)
    requires Inv(s) && t in s.tasks && s.tasks[t] == Running && ino in s.files
    requires Request(req) && req.owner == Task(t) && WrapTry(s, t, ino, req, wait, signal, s')
    requires Applies(s, t, ino, req, wait, signal) && WrapHits(s.files[ino], req)
    ensures ino in s'.files && Exclusive(s'.files[ino])
  {
    hide Inv, Canonical, Request, Applied, WrapHits, Applying, MapOk, MapHits, DistinctIds, Ids;
    var locks := s.files[ino];
    InvList(s, ino);
    EmptyIsCanonical(locks);
    NextIds(s, ino);
    ApplyingOk(locks, req, s.next, s.next + 1, true);
    WithinExclusive(locks, req, s'.files[ino]);
  }

  lemma WithinExclusive(locks: seq<FileLock>, req: FileLock, locks': seq<FileLock>)
    requires Canonical(locks) && Exclusive(locks) && Within(locks, req, locks')
    requires req.ltype == UnLck || FirstBlocker(locks, req) == |locks|
    ensures Exclusive(locks')
  {
    hide Canonical, FirstBlocker, Holds;
    forall o1, o2, ty, b | Holds(locks', o1, WrLck, b) && Holds(locks', o2, ty, b) ensures o1 == o2 {
      if o1 != o2 && req.ltype != UnLck && req.start <= b <= req.end {
        if o1 == req.owner && req.ltype == WrLck { NoOther(locks, req, o2, ty, b); }
        if o2 == req.owner { NoOther(locks, req, o1, WrLck, b); }
      }
    }
  }

  /** `posix_lock_file` from `repeat`, on a 32-bit `off_t`, is the step `WrapTry`. */
  method WrapStretch(inode: Inode, req: FileLock, t: Pid, wait: bool, signal: bool, table: seq<FileLock>,
                     id1: nat, id2: nat, ghost s: State, ghost ino: Ino)
    returns (out: Outcome, woken: seq<Pid>, ghost s': State)
    requires Inv(s) && ino in s.files && IsTable(s, table) && inode.flock == s.files[ino]
    requires Request(req) && req.owner == Task(t) && id1 == s.next && id2 == s.next + 1
    modifies inode
    ensures WrapTry(s, t, ino, req, wait, signal, s') && ino in s'.files && s'.files[ino] == inode.flock
    ensures if out.Apply? then s' == Update(s, ino, inode.flock, woken, s.next + 2) else woken == []
  {
    hide Inv, Canonical, Applied, Acyclic, WaitGraph, IsGraph, Reaches, Request, Applying, WrapHits, MapHits, MapOk;
    ListFacts(s, ino);
    TableIsGraph(s, table);
    out, woken := PosixLockFile(inode, req, t, wait, signal, table, WaitGraph(s), id1, id2, true);
    s' := match out
          case Fail(_) => s
          case Sleep(i) => Block(s, t, ino, i, req, Setlkw)
          case Apply => Update(s, ino, inode.flock, woken, s.next + 2);
  }

  const FIRST := FileLock(0, Posix, Task(5), 0, WrLck, 20, 30, [])
  const SECOND := FileLock(0, Posix, Task(5), 0, WrLck, 10, OFFSET_MAX, [])

  /** One task locks bytes 20 to 30 and then all from 10 on: the second request is spoiled. */
  lemma SpoiledRun() returns (states: seq<State>, steps: seq<Step>)
    ensures WrapRun(states, steps) && |steps| == 2 && Spoils(states[1], steps[1]) && !Inv(states[2])
  {
    hide Inv, Init, Spoils, WrapNext;
    var s0 := State(map[0 := []], map[5 := Running], 0);
    var first, second := SetLk(5, 0, FIRST, true, false), SetLk(5, 0, SECOND, true, false);
    var s1 := LockOf(s0, 0, FIRST);
    var s2 := LockOf(s1, 0, SECOND);
    states, steps := [s0, s1, s2], [first, second];
    assert Init(s0) by { StartOf(s0); }
    FirstStep(s0);
    SecondStep(s1);
    UpTo([s0, s1], [first], 1);
    WrapNextInv(s1, second, s2);
  }

  ghost function LockOf(s: State, ino: Ino, req: FileLock): State
    requires ino in s.files
  {
    var r := Applying(s.files[ino], req, s.next, s.next + 1, true);
    Update(s, ino, r.locks, r.woken, s.next + 2)
  }

  lemma StartOf(s: State)
    requires s == State(map[0 := []], map[5 := Running], 0)
    ensures Init(s)
  {
  }

  lemma FirstStep(s: State)
    requires s == State(map[0 := []], map[5 := Running], 0)
    ensures WrapNext(s, SetLk(5, 0, FIRST, true, false), LockOf(s, 0, FIRST)) && !Spoils(s, SetLk(5, 0, FIRST, true, false))
    ensures LockOf(s, 0, FIRST) == State(map[0 := [FIRST]], map[5 := Running], 2)
  {
    assert Applying([], FIRST, 0, 1, true) == After([FIRST], []);
    assert s.files[0 := [FIRST]] == map[0 := [FIRST]];
    assert Wake(s.tasks, []) == map[5 := Running];
  }

  lemma SecondStep(s: State)
    requires s == State(map[0 := [FIRST]], map[5 := Running], 2)
    ensures WrapNext(s, SetLk(5, 0, SECOND, true, false), LockOf(s, 0, SECOND))
    ensures Spoils(s, SetLk(5, 0, SECOND, true, false))
  {
    hide Applying;
    assert FirstBlocker([FIRST], SECOND) == 1;
    assert [FIRST][0].ltype == WrLck;
  }
}
