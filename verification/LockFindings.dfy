/** Inputs on which fs/locks.c falls short of what its comments promise. */
module LockFindings {
  import opened Lists
  import opened LockTypes
  import opened PosixLocks
  import opened PosixPass
  import opened PosixVisit
  import opened LockOutcomes
  import opened LockProtocol

  function FlockReq(filp: nat, ty: LockType): FileLock {
    FileLock(0, Flock, NoTask, filp, ty, 0, OFFSET_MAX, [])
  }

  function Sleeping(filp: nat, ty: LockType, woken: bool): TaskState {
    Waiting(0, FlockReq(filp, ty), FlockCall, 0, NoTask, woken)
  }

  function Held(blocked: seq<Pid>): FileLock { NewLock(FlockReq(8, WrLck), 0).(blocked := blocked) }

  const READ := NewLock(FlockReq(7, RdLck), 1)
  const WRITE := NewLock(FlockReq(7, WrLck), 2)

  function Files(locks: seq<FileLock>): map<Ino, seq<FileLock>> { map[0 := locks] }

  function Tasks(a: TaskState, b: TaskState): map<Pid, TaskState> { map[1 := a, 2 := b, 3 := Running] }

  /** A FLOCK request granted on the spot. */
  lemma Granted(s: State, t: Pid, req: FileLock, s': State)
    requires RunningIn(s, t, 0) && FlockRequest(req) && req.ltype != UnLck
    requires SearchOutcome(s.files[0], req) == Absent && FirstBlocker(s.files[0], req) == |s.files[0]|
    requires !StartsWithPosix(s.files[0])
    requires s' == Update(s, 0, [NewLock(req, s.next)] + s.files[0], [], s.next + 1)
    ensures Next(s, SetFlock(t, 0, req, true, false), s')
  {
  }

  /** A FLOCK request put to sleep on the first lock. */
  lemma PutToSleep(s: State, t: Pid, req: FileLock, s': State)
    requires RunningIn(s, t, 0) && FlockRequest(req) && req.ltype != UnLck
    requires SearchOutcome(s.files[0], req) == Absent && FirstBlocker(s.files[0], req) == 0 < |s.files[0]|
    requires !StartsWithPosix(s.files[0])
    requires s' == Block(s, t, 0, 0, req, FlockCall)
    ensures Next(s, SetFlock(t, 0, req, true, false), s')
  {
  }

  lemma Start() returns (s0: State, s1: State)
    ensures s0 == State(Files([]), Tasks(Running, Running), 0) && Init(s0)
    ensures s1 == State(Files([Held([])]), Tasks(Running, Running), 1)
    ensures Next(s0, SetFlock(3, 0, FlockReq(8, WrLck), true, false), s1)
  {
    s0 := State(Files([]), Tasks(Running, Running), 0);
    s1 := State(Files([Held([])]), Tasks(Running, Running), 1);
    assert [NewLock(FlockReq(8, WrLck), 0)] + [] == [Held([])];
    assert Wake(s0.tasks, []) == s0.tasks;
    assert s0.files[0 := [Held([])]] == s1.files;
    Granted(s0, 3, FlockReq(8, WrLck), s1);
  }

  lemma Queue() returns (s1: State, s2: State, s3: State)
    ensures s1 == State(Files([Held([])]), Tasks(Running, Running), 1)
    ensures s3 == State(Files([Held([1, 2])]), Tasks(Sleeping(7, RdLck, false), Sleeping(7, WrLck, false)), 1)
    ensures Next(s1, SetFlock(1, 0, FlockReq(7, RdLck), true, false), s2)
    ensures Next(s2, SetFlock(2, 0, FlockReq(7, WrLck), true, false), s3)
  {
    hide Next;
    s1, s2 := QueueFirst();
    s3 := QueueSecond(s2);
  }

  lemma QueueFirst() returns (s1: State, s2: State)
    ensures s1 == State(Files([Held([])]), Tasks(Running, Running), 1)
    ensures s2 == State(Files([Held([1])]), Tasks(Sleeping(7, RdLck, false), Running), 1)
    ensures Next(s1, SetFlock(1, 0, FlockReq(7, RdLck), true, false), s2)
  {
    hide Next;
    s1 := State(Files([Held([])]), Tasks(Running, Running), 1);
    s2 := State(Files([Held([1])]), Tasks(Sleeping(7, RdLck, false), Running), 1);
    assert Enqueue([Held([])], 0, 1) == [Held([1])] by { assert [] + [1] == [1]; }
    assert s2.files == s1.files[0 := [Held([1])]];
    assert s2.tasks == s1.tasks[1 := Sleeping(7, RdLck, false)];
    PutToSleep(s1, 1, FlockReq(7, RdLck), s2);
  }

  lemma QueueSecond(s2: State) returns (s3: State)
    requires s2 == State(Files([Held([1])]), Tasks(Sleeping(7, RdLck, false), Running), 1)
    ensures s3 == State(Files([Held([1, 2])]), Tasks(Sleeping(7, RdLck, false), Sleeping(7, WrLck, false)), 1)
    ensures Next(s2, SetFlock(2, 0, FlockReq(7, WrLck), true, false), s3)
  {
    hide Next;
    s3 := State(Files([Held([1, 2])]), Tasks(Sleeping(7, RdLck, false), Sleeping(7, WrLck, false)), 1);
    assert Enqueue([Held([1])], 0, 2) == [Held([1, 2])] by { assert [1] + [2] == [1, 2]; }
    assert s3.files == s2.files[0 := [Held([1, 2])]];
    assert s3.tasks == s2.tasks[2 := Sleeping(7, WrLck, false)];
    PutToSleep(s2, 2, FlockReq(7, WrLck), s3);
  }

  lemma CloseHolder() returns (s3: State, s4: State)
    ensures s3 == State(Files([Held([1, 2])]), Tasks(Sleeping(7, RdLck, false), Sleeping(7, WrLck, false)), 1)
    ensures s4 == State(Files([]), Tasks(Sleeping(7, RdLck, true), Sleeping(7, WrLck, true)), 1)
    ensures Next(s3, Close(3, 0, 8, true), s4)
  {
    s3 := State(Files([Held([1, 2])]), Tasks(Sleeping(7, RdLck, false), Sleeping(7, WrLck, false)), 1);
    s4 := State(Files([]), Tasks(Sleeping(7, RdLck, true), Sleeping(7, WrLck, true)), 1);
    var who := CloserOf(s3.files[0], 3, 8, true);
    assert Remaining([Held([1, 2])], who) == [] && Dropped([Held([1, 2])], who) == [1, 2] + [] == [1, 2];
    assert s4.files == s3.files[0 := []];
    assert s4.tasks == Wake(s3.tasks, [1, 2]);
  }

  /** A woken FLOCK request that nothing blocks any more. */
  lemma GrantedAfterSleep(s: State, t: Pid, s': State)
    requires WokenFrom(s, t, FlockCall) && s.tasks[t].ino == 0
    requires StripAll(s.files[0], t) == s.files[0] && !StartsWithPosix(s.files[0])
    requires FirstBlocker(s.files[0], s.tasks[t].req) == |s.files[0]|
    requires s' == Update(Unblock(s, t), 0, [NewLock(s.tasks[t].req, s.next)] + s.files[0], [], s.next + 1)
    ensures Next(s, ResumeFlock(t, false), s')
  {
  }

  lemma FirstAwake(s4: State, s5: State)
    requires s4 == State(Files([]), Tasks(Sleeping(7, RdLck, true), Sleeping(7, WrLck, true)), 1)
    requires s5 == State(Files([READ]), Tasks(Running, Sleeping(7, WrLck, true)), 2)
    ensures s5.files == Unblock(s4, 1).files[0 := [READ]]
    ensures s5.tasks == Wake(Unblock(s4, 1).tasks, [])
  {
  }

  lemma FirstGranted() returns (s4: State, s5: State)
    ensures s4 == State(Files([]), Tasks(Sleeping(7, RdLck, true), Sleeping(7, WrLck, true)), 1)
    ensures s5 == State(Files([READ]), Tasks(Running, Sleeping(7, WrLck, true)), 2)
    ensures Next(s4, ResumeFlock(1, false), s5)
  {
    s4 := State(Files([]), Tasks(Sleeping(7, RdLck, true), Sleeping(7, WrLck, true)), 1);
    s5 := State(Files([READ]), Tasks(Running, Sleeping(7, WrLck, true)), 2);
    assert [READ] + [] == [READ];
    FirstAwake(s4, s5);
    GrantedAfterSleep(s4, 1, s5);
  }

  lemma SecondGranted() returns (s5: State, s6: State)
    ensures s5 == State(Files([READ]), Tasks(Running, Sleeping(7, WrLck, true)), 2)
    ensures s6 == State(Files([WRITE, READ]), Tasks(Running, Running), 3)
    ensures Next(s5, ResumeFlock(2, false), s6)
  {
    s5 := State(Files([READ]), Tasks(Running, Sleeping(7, WrLck, true)), 2);
    s6 := State(Files([WRITE, READ]), Tasks(Running, Running), 3);
    assert StripAll([READ], 2) == [READ];
    assert [WRITE] + [READ] == [WRITE, READ];
    assert s6.files == Unblock(s5, 2).files[0 := [WRITE, READ]];
    assert s6.tasks == Wake(Unblock(s5, 2).tasks, []);
    GrantedAfterSleep(s5, 2, s6);
  }

  lemma UnlockOne() returns (s6: State, s7: State)
    ensures s6 == State(Files([WRITE, READ]), Tasks(Running, Running), 3)
    ensures s7 == State(Files([READ]), Tasks(Running, Running), 3)
    ensures Next(s6, SetFlock(1, 0, FlockReq(7, UnLck), false, false), s7)
  {
    s6 := State(Files([WRITE, READ]), Tasks(Running, Running), 3);
    s7 := State(Files([READ]), Tasks(Running, Running), 3);
    assert RemoveAt([WRITE, READ], 0) == [READ];
    assert s7.files == s6.files[0 := [READ]];
    assert s7.tasks == Wake(s6.tasks, []);
  }

  /** Tasks 1 and 2 share open file 7, and task 3 holds the file through open file 8.  Tasks 1 and 2
      queue behind it, one to read and one to write.  After the close both are granted: open file 7
      now has two locks, and its unlock takes away only one of them. */
  lemma OneOpenFileTwoLocks() returns (states: seq<State>, steps: seq<Step>)
    ensures Run(states, steps) && |states| == 8
    ensures states[6].files == Files([WRITE, READ])
    ensures steps[6] == SetFlock(1, 0, FlockReq(7, UnLck), false, false)
    ensures states[7].files == Files([READ])
  {
    hide Next, Init, Held, Tasks, Files, FlockReq, Sleeping;
    var s0, s1 := Start();
    var _, s2, s3 := Queue();
    var _, s4 := CloseHolder();
    var _, s5 := FirstGranted();
    var _, s6 := SecondGranted();
    var _, s7 := UnlockOne();
    states, steps := [s0], [];
    states, steps := Extend(states, steps, SetFlock(3, 0, FlockReq(8, WrLck), true, false), s1);
    states, steps := Extend(states, steps, SetFlock(1, 0, FlockReq(7, RdLck), true, false), s2);
    states, steps := Extend(states, steps, SetFlock(2, 0, FlockReq(7, WrLck), true, false), s3);
    states, steps := Extend(states, steps, Close(3, 0, 8, true), s4);
    states, steps := Extend(states, steps, ResumeFlock(1, false), s5);
    states, steps := Extend(states, steps, ResumeFlock(2, false), s6);
    states, steps := Extend(states, steps, SetFlock(1, 0, FlockReq(7, UnLck), false, false), s7);
  }

  lemma Extend(states: seq<State>, steps: seq<Step>, step: Step, s: State)
    returns (states': seq<State>, steps': seq<Step>)
    requires Run(states, steps) && Next(states[|states| - 1], step, s)
    ensures states' == states + [s] && steps' == steps + [step] && Run(states', steps')
  {
    hide Next;
    states', steps' := states + [s], steps + [step];
  }

  /** A request of task 5 for all bytes from 10 on. */
  const TO_THE_END := FileLock(0, Posix, Task(5), 0, WrLck, 10, OFFSET_MAX, [])

  const WRITES := FileLock(1, Posix, Task(5), 0, WrLck, 20, 30, [])
  const READS := FileLock(2, Posix, Task(5), 0, RdLck, 40, 50, [])

  /** The pass stops at the first lock: 20 is above `fl_end + 1`, which has wrapped. */
  lemma MeetsWrapped()
    ensures Meet(WRITES, TO_THE_END, PosixLocks.Start(TO_THE_END), true) == Stops(false)
  {
    hide EndPlusOne;
    EndPlusOneFacts(OFFSET_MAX);
  }

  lemma NothingMet(own: seq<FileLock>, c: FileLock, id1: nat, id2: nat)
    requires c.ltype != UnLck
    ensures var p := PosixLocks.Start(c);
            Rebuilt(own, c, p, false, id1, id2) == [NewLock(c, id1)] + own && TrimWakes(own, p, false) == []
  {
    assert own[..0] == [] && own[0..] == own;
  }

  lemma StopsAtOnce(own: seq<FileLock>, id1: nat, id2: nat)
    requires own != [] && own[0] == WRITES && forall x :: 0 <= x < |own| ==> own[x].owner == Task(5)
    ensures Applying(own, TO_THE_END, id1, id2, true) == After([NewLock(TO_THE_END, id1)] + own, [])
  {
    hide Applying, Meet, Rebuilt, TrimWakes;
    assert Split(own, TO_THE_END, [], own, []) by { assert [] + own + [] == own; }
    PartsAre(own, TO_THE_END, [], own, [], id1, id2, true);
    MeetsWrapped();
    NothingMet(own, TO_THE_END, id1, id2);
    var r := [NewLock(TO_THE_END, id1)] + own;
    assert [] + r + [] == r;
  }

  /** On a 32-bit `off_t` a lock up to the end of the file, taken while a lock of the same type is
      held further on, is put beside that lock instead of absorbing it. */
  lemma WrappedEnd()
    ensures var after := Applying([WRITES], TO_THE_END, 7, 8, true);
            && Canonical([WRITES]) && Request(TO_THE_END) && WrapHits([WRITES], TO_THE_END)
            && after == After([NewLock(TO_THE_END, 7), WRITES], []) && !Canonical(after.locks)
            && Applying([WRITES], TO_THE_END, 7, 8, false) ==
               After([WRITES.(start := 10, end := OFFSET_MAX)], [])
  {
    hide Applying;
    assert [WRITES][0].end == 30;
    StopsAtOnce([WRITES], 7, 8);
    var both := [NewLock(TO_THE_END, 7), WRITES];
    assert [NewLock(TO_THE_END, 7)] + [WRITES] == both;
    assert !Before(both[0], both[1]);
    Absorbs();
  }

  /** Without wrapping it is absorbed. */
  lemma Absorbs()
    ensures Applying([WRITES], TO_THE_END, 7, 8, false) == After([WRITES.(start := 10, end := OFFSET_MAX)], [])
  {
    var own, c := [WRITES], TO_THE_END;
    assert Split(own, c, [], own, []);
    PartsAre(own, c, [], own, [], 7, 8, false);
    var m := WRITES.(start := 10, end := OFFSET_MAX);
    var q := Progress(0, 1, [m], false, 10, OFFSET_MAX, true);
    assert Meet(WRITES, c, PosixLocks.Start(c), false) == Goes(q, []);
    assert Pass(own, c, false, q, []) == Passed(q, false, []);
    assert Rebuilt(own, c, q, false, 7, 8) == [m];
  }

  /** With a lock of the other type behind it, that lock keeps its bytes: byte 45 is then held with both
      types. */
  lemma WrappedMap()
    ensures var own, after := [WRITES, READS], Applying([WRITES, READS], TO_THE_END, 7, 8, true).locks;
            && Canonical(own) && Request(TO_THE_END) && MapHits(own, TO_THE_END)
            && Holds(after, Task(5), WrLck, 45) && Holds(after, Task(5), RdLck, 45)
            && !MapOk(own, TO_THE_END, after)
  {
    hide Applying, Canonical, MapHits;
    var own := [WRITES, READS];
    StopsAtOnce(own, 7, 8);
    var after := [NewLock(TO_THE_END, 7)] + own;
    assert after[0] == NewLock(TO_THE_END, 7) && after[2] == READS;
    assert Covers(after[0], Task(5), WrLck, 45) && Covers(after[2], Task(5), RdLck, 45);
    TwoLocks();
  }

  lemma TwoLocks()
    ensures Canonical([WRITES, READS]) && MapHits([WRITES, READS], TO_THE_END)
  {
    var own := [WRITES, READS];
    assert own[0].ltype == WrLck && own[1].ltype == RdLck;
  }
}
