/** When an open file comes to hold two FLOCK locks (fs/locks.c:742-806): only when a request that slept is
    granted while the open file already holds one, since the search for it is not repeated after the sleep. */
module FlockOnce {
  import opened Lists
  import opened LockTypes
  import opened PosixLocks
  import opened PosixPass
  import opened LockOutcomes
  import opened LockCalls
  import opened LockProtocol

  /** No two FLOCK locks of one open file. */
  ghost predicate Single(locks: seq<FileLock>) {
    forall i, j :: 0 <= i < j < |locks| && locks[i].kind == Flock && locks[j].kind == Flock ==>
      locks[i].filp != locks[j].filp
  }

  ghost predicate OneEach(s: State) { forall ino :: ino in s.files ==> Single(s.files[ino]) }

  /** A request that slept is granted now, and its open file has a lock already. */
  ghost predicate GrantsSecond(s: State, step: Step) {
    && step.ResumeFlock? && WokenFrom(s, step.t, FlockCall)
    && var locks, req := s.files[s.tasks[step.t].ino], s.tasks[step.t].req;
       FlockOutcome(locks, req, true, step.signal) == Apply && FirstOfFile(locks, req.filp) < |locks|
  }

  // ---------- lists ----------

  lemma PosixSingle(locks: seq<FileLock>)
    requires Canonical(locks)
    ensures Single(locks)
  {
    assert forall i :: 0 <= i < |locks| ==> WellFormed(locks[i]);
  }

  predicate SameFiles(a: seq<FileLock>, b: seq<FileLock>) {
    |a| == |b| && forall i :: 0 <= i < |a| ==> a[i].kind == b[i].kind && a[i].filp == b[i].filp
  }

  lemma SameSingle(a: seq<FileLock>, b: seq<FileLock>)
    requires SameFiles(a, b) && Single(a)
    ensures Single(b)
  {
  }

  lemma RemoveSingle(locks: seq<FileLock>, k: nat)
    requires k < |locks| && Single(locks)
    ensures Single(RemoveAt(locks, k))
  {
    var r := RemoveAt(locks, k);
    forall i, j | 0 <= i < j < |r| && r[i].kind == Flock && r[j].kind == Flock ensures r[i].filp != r[j].filp {
      assert r[i] == locks[if i < k then i else i + 1] && r[j] == locks[if j < k then j else j + 1];
    }
  }

  lemma RemainingSingle(locks: seq<FileLock>, who: Closer)
    requires Single(locks)
    ensures Single(Remaining(locks, who))
  {
    var idx := RemainingAt(locks, who);
  }

  /** A new lock in front. */
  lemma GrantSingle(locks: seq<FileLock>, l: FileLock)
    requires Single(locks) && l.kind == Flock && forall i :: 0 <= i < |locks| ==> locks[i].kind == Flock
    ensures Single([l] + locks) <==> FirstOfFile(locks, l.filp) == |locks|
  {
    var r, k := [l] + locks, FirstOfFile(locks, l.filp);
    if k < |locks| {
      assert r[0] == l && r[k + 1] == locks[k];
    } else {
      forall i, j | 0 <= i < j < |r| ensures r[i].filp != r[j].filp {
        assert r[j] == locks[j - 1];
        if i > 0 { assert r[i] == locks[i - 1]; }
      }
    }
  }

  // ---------- steps ----------

  lemma PutFile(s: State, s': State, ino: Ino, locks: seq<FileLock>)
    requires OneEach(s) && s'.files == s.files[ino := locks]
    ensures OneEach(s') <==> Single(locks)
  {
    assert s'.files[ino] == locks;
  }

  lemma BlockOnce(s: State, t: Pid, ino: Ino, i: nat, req: FileLock, call: Call)
    requires OneEach(s) && ino in s.files && i < |s.files[ino]|
    ensures OneEach(Block(s, t, ino, i, req, call))
  {
    var locks' := Enqueue(s.files[ino], i, t);
    assert SameFiles(s.files[ino], locks');
    SameSingle(s.files[ino], locks');
    PutFile(s, Block(s, t, ino, i, req, call), ino, locks');
  }

  lemma UnblockOnce(s: State, t: Pid)
    requires OneEach(s)
    ensures OneEach(Unblock(s, t))
  {
    forall ino | ino in s.files ensures Single(StripAll(s.files[ino], t)) {
      SameSingle(s.files[ino], StripAll(s.files[ino], t));
    }
  }

  lemma PosixOnce(s: State, t: Pid, ino: Ino, req: FileLock, wait: bool, signal: bool, s': State)
    requires OneEach(s) && ino in s.files && PosixTry(s, t, ino, req, wait, signal, s')
    ensures OneEach(s')
  {
    hide Applied, Deadlocks;
    var locks := s.files[ino];
    match PosixOutcome(locks, req, wait, Deadlocks(s, t, locks, req), signal)
    case Fail(_) =>
    case Sleep(i) => BlockOnce(s, t, ino, i, req, Setlkw);
    case Apply =>
      var locks', woken :| AppliedFrom(locks, req, s.next, locks', woken) &&
                           s' == Update(s, ino, locks', woken, s.next + 2);
      AppliedCanonical(locks, req, s.next, locks', woken);
      PosixSingle(locks');
      PutFile(s, s', ino, locks');
  }

  lemma AppliedCanonical(locks: seq<FileLock>, req: FileLock, next: nat, locks': seq<FileLock>, woken: seq<Pid>)
    requires AppliedFrom(locks, req, next, locks', woken)
    ensures Canonical(locks')
  {
  }

  lemma AccessOnce(s: State, t: Pid, ino: Ino, req: FileLock, nonblock: bool, signal: bool, s': State)
    requires OneEach(s) && ino in s.files && AccessTry(s, t, ino, req, nonblock, signal, s')
    ensures OneEach(s')
  {
    hide Deadlocks;
    var locks := s.files[ino];
    match AccessOutcome(locks, req, nonblock, Deadlocks(s, t, locks, req), signal)
    case Sleep(i) => BlockOnce(s, t, ino, i, req, Access);
    case _ =>
  }

  lemma AllFlock(locks: seq<FileLock>)
    requires ListOk(locks) && !StartsWithPosix(locks)
    ensures forall i :: 0 <= i < |locks| ==> locks[i].kind == Flock
  {
    EmptyIsFlock(locks);
  }

  lemma GrantOnce(s: State, t: Pid, ino: Ino, req: FileLock, wait: bool, signal: bool, s': State)
    requires OneEach(s) && ino in s.files && ListOk(s.files[ino]) && FlockRequest(req)
    requires FlockGrant(s, t, ino, req, wait, signal, s')
    ensures OneEach(s') <==> !(FlockOutcome(s.files[ino], req, wait, signal) == Apply &&
                               FirstOfFile(s.files[ino], req.filp) < |s.files[ino]|)
  {
    hide ListOk, Single, OneEach;
    var locks := s.files[ino];
    match FlockOutcome(locks, req, wait, signal)
    case Fail(_) =>
    case Sleep(i) => BlockOnce(s, t, ino, i, req, FlockCall);
    case Apply =>
      AllFlock(locks);
      FileSingle(s, ino);
      GrantSingle(locks, NewLock(req, s.next));
      PutFile(s, s', ino, [NewLock(req, s.next)] + locks);
  }

  lemma FileSingle(s: State, ino: Ino)
    requires OneEach(s) && ino in s.files
    ensures Single(s.files[ino])
  {
  }

  lemma SearchOnce(s: State, t: Pid, ino: Ino, req: FileLock, wait: bool, signal: bool, s': State)
    requires OneEach(s) && ino in s.files && ListOk(s.files[ino]) && FlockRequest(req)
    requires FlockSearch(s, t, ino, req, wait, signal, s')
    ensures OneEach(s')
  {
    hide ListOk, Single, OneEach;
    var locks := s.files[ino];
    match SearchOutcome(locks, req)
    case Busy =>
    case Same =>
    case Absent =>
      if req.ltype != UnLck { GrantOnce(s, t, ino, req, wait, signal, s'); }
    case Change(k) =>
      FileSingle(s, ino);
      RemoveSingle(locks, k);
      PutFile(s, s', ino, RemoveAt(locks, k));
  }

  /** Leaving a block list changes nothing that a scan of the list looks at. */
  lemma StrippedScan(locks: seq<FileLock>, req: FileLock, t: Pid)
    ensures FirstBlocker(StripAll(locks, t), req) == FirstBlocker(locks, req)
    ensures FirstOfFile(StripAll(locks, t), req.filp) == FirstOfFile(locks, req.filp)
    ensures StartsWithPosix(StripAll(locks, t)) == StartsWithPosix(locks)
  {
    var r := StripAll(locks, t);
    assert forall i :: 0 <= i < |locks| ==> Blocks(r[i], req) == Blocks(locks[i], req) && r[i].filp == locks[i].filp;
  }

  lemma StrippedLength(locks: seq<FileLock>, t: Pid)
    ensures |StripAll(locks, t)| == |locks|
  {
  }

  /** Every step keeps one lock for an open file, except, always, a grant after a sleep to an open file that has
      a lock already. */
  lemma NextOnce(s: State, step: Step, s': State)
    requires Inv(s) && OneEach(s) && Next(s, step, s')
    ensures OneEach(s') <==> !GrantsSecond(s, step)
  {
    hide Inv, OneEach, Single, PosixTry, AccessTry, FlockGrant, FlockSearch, Request, ListOk;
    match step
    case SetLk(t, ino, req, wait, signal) => PosixOnce(s, t, ino, req, wait, signal, s');
    case ResumeSetLk(t, signal) =>
      UnblockOnce(s, t);
      PosixOnce(Unblock(s, t), t, s.tasks[t].ino, s.tasks[t].req, true, signal, s');
    case CheckAccess(t, ino, req, nonblock, signal) => AccessOnce(s, t, ino, req, nonblock, signal, s');
    case ResumeAccess(t, signal, nonblock, modeChanged) =>
      UnblockOnce(s, t);
      if !(signal || modeChanged) {
        AccessOnce(Unblock(s, t), t, s.tasks[t].ino, s.tasks[t].req, nonblock, false, s');
      }
    case SetFlock(t, ino, req, wait, signal) =>
      InvList(s, ino);
      SearchOnce(s, t, ino, req, wait, signal, s');
    case ResumeFlock(t, signal) => ResumeOnce(s, t, signal, s');
    case DrainWake(t) => SameFilesOnce(s, s');
    case DrainDone(t, signal) => DrainOnce(s, t, signal, s');
    case Signal(t) => SameFilesOnce(s, s');
    case Close(t, ino, filp, last) =>
      var who := CloserOf(s.files[ino], t, filp, last);
      FileSingle(s, ino);
      RemainingSingle(s.files[ino], who);
      PutFile(s, s', ino, Remaining(s.files[ino], who));
  }

  lemma SameFilesOnce(s: State, s': State)
    requires OneEach(s) && s'.files == s.files
    ensures OneEach(s')
  {
  }

  lemma ResumeOnce(s: State, t: Pid, signal: bool, s': State)
    requires Inv(s) && OneEach(s) && Next(s, ResumeFlock(t, signal), s')
    ensures OneEach(s') <==> !GrantsSecond(s, ResumeFlock(t, signal))
  {
    hide Inv, OneEach, Single, FlockGrant, ListOk, FirstBlocker, FirstOfFile, StripAll;
    var s1, ino, req := Unblock(s, t), s.tasks[t].ino, s.tasks[t].req;
    WaitingFacts(s, t);
    UnblockInv(s, t);
    InvList(s1, ino);
    UnblockOnce(s, t);
    StrippedScan(s.files[ino], req, t);
    assert s1.files[ino] == StripAll(s.files[ino], t);
    StrippedLength(s.files[ino], t);
    GrantOnce(s1, t, ino, req, true, signal, s');
  }

  lemma DrainOnce(s: State, t: Pid, signal: bool, s': State)
    requires Inv(s) && OneEach(s) && Next(s, DrainDone(t, signal), s')
    ensures OneEach(s')
  {
    hide Inv, OneEach, Single, FlockSearch, ListOk;
    var s1 := s.(tasks := s.tasks[t := Running]);
    DrainingFacts(s, t);
    InvList(s, s.tasks[t].at);
    SameFilesOnce(s, s1);
    SearchOnce(s1, t, s.tasks[t].at, s.tasks[t].want, s.tasks[t].wait, signal, s');
  }

  // ---------- runs ----------

  lemma {:induction false} RunOnce(states: seq<State>, steps: seq<Step>, n: nat)
    requires Run(states, steps) && n < |states|
    requires forall i :: 0 <= i < n ==> !GrantsSecond(states[i], steps[i])
    ensures OneEach(states[n])
  {
    hide Next, GrantsSecond;
    if n > 0 {
      RunOnce(states, steps, n - 1);
      RunInv(states, steps, n - 1);
      NextOnce(states[n - 1], steps[n - 1], states[n]);
    }
  }

  /** Over a whole run no open file ever holds two FLOCK locks if and only if no request that slept is granted
      while its open file has one. */
  lemma OneLockEachIff(states: seq<State>, steps: seq<Step>)
    requires Run(states, steps)
    ensures (forall n :: 0 <= n < |states| ==> OneEach(states[n]))
            <==> forall n :: 0 <= n < |steps| ==> !GrantsSecond(states[n], steps[n])
  {
    hide Next, GrantsSecond, OneEach;
    if forall n :: 0 <= n < |states| ==> OneEach(states[n]) {
      forall n | 0 <= n < |steps| ensures !GrantsSecond(states[n], steps[n]) {
        RunInv(states, steps, n);
        NextOnce(states[n], steps[n], states[n + 1]);
      }
    }
    if forall n :: 0 <= n < |steps| ==> !GrantsSecond(states[n], steps[n]) {
      forall n | 0 <= n < |states| ensures OneEach(states[n]) { RunOnce(states, steps, n); }
    }
  }

  /** As long as that holds an unlock frees the open file. */
  lemma UnlockFrees(s: State, t: Pid, ino: Ino, req: FileLock, wait: bool, signal: bool, s': State, l: FileLock)
    requires Inv(s) && OneEach(s) && req.ltype == UnLck && Next(s, SetFlock(t, ino, req, wait, signal), s')
    ensures InFile(s', ino, l) && l.kind == Flock ==> l.filp != req.filp
  {
    var locks, k := s.files[ino], FirstOfFile(s.files[ino], req.filp);
    InvList(s, ino);
    if !StartsWithPosix(locks) && k < |locks| {
      AllFlock(locks);
      FileSingle(s, ino);
      UnlockReleasesIff(locks, req.filp);
    }
    if StartsWithPosix(locks) { EmptyIsCanonical(locks); }
  }
}
