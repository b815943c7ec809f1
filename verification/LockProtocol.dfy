/** Every interleaving of the locking calls on every file (fs/locks.c): fcntl locking,
    flock locking, mandatory access checks, wake-ups, signals and close.

    The kernel is not preempted, so what happens between two sleeps is one step.  A step
    names the task that runs; a resumed task first takes itself off the block list and
    then starts over from the `repeat` label it slept under. */
module LockProtocol {
  import opened Lists
  import opened LockTypes
  import opened PosixLocks
  import opened PosixPass
  import opened Deadlock
  import opened LockOutcomes

  type Ino = nat

  datatype Call = Setlkw | Access | FlockCall

  /** Where a task is.  `Waiting`: asleep in `interruptible_sleep_on`, having found the lock
      `blocker`, owned by `on`, in its way.  `Draining`: inside `locks_delete_lock(.., 1)`,
      waiting for the block list of the unlinked lock `dead` to become empty. */
  datatype TaskState =
    | Running
    | Waiting(ino: Ino, req: FileLock, call: Call, blocker: nat, on: Owner, woken: bool)
    | Draining(at: Ino, want: FileLock, wait: bool, dead: FileLock)

  /** The lock list of every file, the tasks, and the address of the next lock. */
  datatype State = State(files: map<Ino, seq<FileLock>>, tasks: map<Pid, TaskState>, next: nat)

  // ---------- state updates ----------

  function Wake(tasks: map<Pid, TaskState>, woken: seq<Pid>): map<Pid, TaskState> {
    map x | x in tasks ::
      if x in woken && tasks[x].Waiting? then tasks[x].(woken := true) else tasks[x]
  }

  /** The list of `ino` becomes `locks`, and the tasks in `woken` are woken. */
  function Update(s: State, ino: Ino, locks: seq<FileLock>, woken: seq<Pid>, next: nat): State {
    State(s.files[ino := locks], Wake(s.tasks, woken), next)
  }

  /** Task `t` goes to sleep on lock `i` of `ino`. */
  function Block(s: State, t: Pid, ino: Ino, i: nat, req: FileLock, call: Call): State
    requires ino in s.files && i < |s.files[ino]|
  {
    var l := s.files[ino][i];
    s.(files := s.files[ino := Enqueue(s.files[ino], i, t)],
       tasks := s.tasks[t := Waiting(ino, req, call, l.id, l.owner, false)])
  }

  function Strip(l: FileLock, t: Pid): FileLock { l.(blocked := Without(l.blocked, t)) }

  function StripAll(locks: seq<FileLock>, t: Pid): seq<FileLock> {
    seq(|locks|, i requires 0 <= i < |locks| => Strip(locks[i], t))
  }

  /** Task `t` runs again and leaves the block list it is on, if it is still on one. */
  function Unblock(s: State, t: Pid): State {
    s.(files := map ino | ino in s.files :: StripAll(s.files[ino], t),
       tasks := map x | x in s.tasks ::
         if x == t then Running
         else if s.tasks[x].Draining? then s.tasks[x].(dead := Strip(s.tasks[x].dead, t))
         else s.tasks[x])
  }

  // ---------- steps ----------

  datatype Step =
    | SetLk(t: Pid, ino: Ino, req: FileLock, wait: bool, signal: bool)
    | ResumeSetLk(t: Pid, signal: bool)
    | CheckAccess(t: Pid, ino: Ino, req: FileLock, nonblock: bool, signal: bool)
    | ResumeAccess(t: Pid, signal: bool, nonblock: bool, modeChanged: bool)
    | SetFlock(t: Pid, ino: Ino, req: FileLock, wait: bool, signal: bool)
    | ResumeFlock(t: Pid, signal: bool)
    | DrainWake(t: Pid)
    | DrainDone(t: Pid, signal: bool)
    | Signal(t: Pid)
    | Close(t: Pid, ino: Ino, filp: nat, last: bool)

  ghost predicate RunningIn(s: State, t: Pid, ino: Ino) {
    t in s.tasks && s.tasks[t] == Running && ino in s.files
  }

  ghost predicate WokenFrom(s: State, t: Pid, call: Call) {
    && t in s.tasks && s.tasks[t].Waiting? && s.tasks[t].woken && s.tasks[t].call == call
    && s.tasks[t].ino in s.files
  }

  ghost predicate Deadlocks(s: State, t: Pid, locks: seq<FileLock>, req: FileLock) {
    var i := FirstBlocker(locks, req);
    i < |locks| && locks[i].owner.Task? && Reaches(WaitGraph(s), locks[i].owner.pid, t)
  }

  /** One run of `posix_lock_file` from `repeat` to the next sleep or to its return. */
  ghost predicate PosixTry(s: State, t: Pid, ino: Ino, req: FileLock, wait: bool, signal: bool, s': State)
    requires ino in s.files
  {
    var locks := s.files[ino];
    match PosixOutcome(locks, req, wait, Deadlocks(s, t, locks, req), signal)
    case Fail(_) => s' == s
    case Sleep(i) => s' == Block(s, t, ino, i, req, Setlkw)
    case Apply =>
      exists locks', woken ::
        AppliedFrom(locks, req, s.next, locks', woken) && s' == Update(s, ino, locks', woken, s.next + 2)
  }

  /** The request has been applied with the next two free addresses at hand. */
  ghost predicate AppliedFrom(locks: seq<FileLock>, req: FileLock, next: nat,
                              locks': seq<FileLock>, woken: seq<Pid>)
  {
    Applied(locks, req, next, next + 1, locks', woken)
  }

  /** One run of `locks_mandatory_area` from `repeat`. */
  ghost predicate AccessTry(s: State, t: Pid, ino: Ino, req: FileLock, nonblock: bool, signal: bool, s': State)
    requires ino in s.files
  {
    var locks := s.files[ino];
    match AccessOutcome(locks, req, nonblock, Deadlocks(s, t, locks, req), signal)
    case Sleep(i) => s' == Block(s, t, ino, i, req, Access)
    case _ => s' == s
  }

  /** One run of `flock_lock_file` from `repeat`. */
  ghost predicate FlockGrant(s: State, t: Pid, ino: Ino, req: FileLock, wait: bool, signal: bool, s': State)
    requires ino in s.files
  {
    var locks := s.files[ino];
    match FlockOutcome(locks, req, wait, signal)
    case Fail(_) => s' == s
    case Sleep(i) => s' == Block(s, t, ino, i, req, FlockCall)
    case Apply => s' == Update(s, ino, [NewLock(req, s.next)] + locks, [], s.next + 1)
  }

  /** One run of `flock_lock_file` from `search`. */
  ghost predicate FlockSearch(s: State, t: Pid, ino: Ino, req: FileLock, wait: bool, signal: bool, s': State)
    requires ino in s.files
  {
    var locks := s.files[ino];
    match SearchOutcome(locks, req)
    case Busy => s' == s
    case Same => s' == s
    case Absent => if req.ltype == UnLck then s' == s else FlockGrant(s, t, ino, req, wait, signal, s')
    case Change(k) =>
      if req.ltype == UnLck
      then s' == Update(s, ino, RemoveAt(locks, k), locks[k].blocked, s.next)
      else s' == s.(files := s.files[ino := RemoveAt(locks, k)],
                    tasks := s.tasks[t := Draining(ino, req, wait, locks[k])])
  }

  ghost predicate Next(s: State, step: Step, s': State) {
    match step
    case SetLk(t, ino, req, wait, signal) =>
      && RunningIn(s, t, ino) && Request(req) && req.owner == Task(t)
      && PosixTry(s, t, ino, req, wait, signal, s')
    case ResumeSetLk(t, signal) =>
      && WokenFrom(s, t, Setlkw)
      && PosixTry(Unblock(s, t), t, s.tasks[t].ino, s.tasks[t].req, true, signal, s')
    case CheckAccess(t, ino, req, nonblock, signal) =>
      && RunningIn(s, t, ino) && req.kind == Posix && req.owner == Task(t) && req.ltype != UnLck
      && AccessTry(s, t, ino, req, nonblock, signal, s')
    case ResumeAccess(t, signal, nonblock, modeChanged) =>
      && WokenFrom(s, t, Access)
      && if signal || modeChanged then s' == Unblock(s, t)
         else AccessTry(Unblock(s, t), t, s.tasks[t].ino, s.tasks[t].req, nonblock, false, s')
    case SetFlock(t, ino, req, wait, signal) =>
      && RunningIn(s, t, ino) && FlockRequest(req)
      && FlockSearch(s, t, ino, req, wait, signal, s')
    case ResumeFlock(t, signal) =>
      && WokenFrom(s, t, FlockCall)
      && FlockGrant(Unblock(s, t), t, s.tasks[t].ino, s.tasks[t].req, true, signal, s')
    case DrainWake(t) =>
      && t in s.tasks && s.tasks[t].Draining? && s.tasks[t].dead.blocked != []
      && s' == s.(tasks := Wake(s.tasks, s.tasks[t].dead.blocked[..1]))
    case DrainDone(t, signal) =>
      && t in s.tasks && s.tasks[t].Draining? && s.tasks[t].dead.blocked == []
      && s.tasks[t].at in s.files
      && FlockSearch(s.(tasks := s.tasks[t := Running]), t, s.tasks[t].at, s.tasks[t].want,
                     s.tasks[t].wait, signal, s')
    case Signal(t) =>
      s' == s.(tasks := Wake(s.tasks, [t]))
    case Close(t, ino, filp, last) =>
      && RunningIn(s, t, ino)
      && var who := CloserOf(s.files[ino], t, filp, last);
         s' == Update(s, ino, Remaining(s.files[ino], who), Dropped(s.files[ino], who), s.next)
  }

  // ---------- what every reachable state satisfies ----------

  /** A write lock of one owner and any lock of another never share a byte. */
  ghost predicate Exclusive(locks: seq<FileLock>) {
    forall o1, o2, ty, b :: Holds(locks, o1, WrLck, b) && Holds(locks, o2, ty, b) ==> o1 == o2
  }

  /** A file holds POSIX locks in canonical form, or FLOCK locks, never both. */
  ghost predicate ListOk(locks: seq<FileLock>) {
    && DistinctIds(locks)
    && ((Canonical(locks) && Exclusive(locks)) || FlockList(locks))
  }

  ghost predicate InFile(s: State, ino: Ino, l: FileLock) {
    ino in s.files && l in s.files[ino]
  }

  ghost predicate IsDead(s: State, t: Pid, l: FileLock) {
    t in s.tasks && s.tasks[t].Draining? && s.tasks[t].dead == l
  }

  /** The lock is still allocated: linked into a file's list, or being drained. */
  ghost predicate Placed(s: State, l: FileLock) {
    (exists ino :: InFile(s, ino, l)) || (exists t :: IsDead(s, t, l))
  }

  ghost predicate OnList(s: State, x: Pid) {
    exists l :: Placed(s, l) && x in l.blocked
  }

  /** `x`, on the block list of `l`, sleeps on `l` and is still blocked by it. */
  ghost predicate WaiterOk(s: State, l: FileLock, x: Pid) {
    && x in s.tasks && s.tasks[x].Waiting?
    && s.tasks[x].blocker == l.id && s.tasks[x].on == l.owner
    && (s.tasks[x].call == FlockCall <==> l.kind == Flock)
    && Blocks(l, s.tasks[x].req)
  }

  /** The waits of tasks asleep on POSIX locks. */
  ghost function WaitGraph(s: State): Graph {
    map x | x in s.tasks && s.tasks[x].Waiting? && s.tasks[x].on.Task? && OnList(s, x) ::
      s.tasks[x].on.pid
  }

  ghost predicate FilesOk(s: State) {
    forall ino :: ino in s.files ==> ListOk(s.files[ino])
  }

  ghost predicate TasksOk(s: State) {
    && (forall x :: x in s.tasks && s.tasks[x].Waiting? ==>
          && (s.tasks[x].call != FlockCall ==>
                s.tasks[x].req.kind == Posix && s.tasks[x].req.owner == Task(x) && s.tasks[x].req.ltype != UnLck)
          && (s.tasks[x].call == Setlkw ==> Request(s.tasks[x].req))
          && (s.tasks[x].call == FlockCall ==> FlockRequest(s.tasks[x].req) && s.tasks[x].req.ltype != UnLck))
    && (forall t :: t in s.tasks && s.tasks[t].Draining? ==>
          && FlockRequest(s.tasks[t].want)
          && s.tasks[t].dead.kind == Flock && s.tasks[t].dead.owner == NoTask)
  }

  ghost predicate IdsOk(s: State) {
    && (forall l :: Placed(s, l) ==> l.id < s.next)
    && (forall i, j, k, l :: InFile(s, i, k) && InFile(s, j, l) && k.id == l.id ==> i == j && k == l)
    && (forall i, t, k, l :: InFile(s, i, k) && IsDead(s, t, l) ==> k.id != l.id)
    && (forall t, u, k, l :: IsDead(s, t, k) && IsDead(s, u, l) && k.id == l.id ==> t == u)
  }

  ghost predicate WaitersOk(s: State) {
    && (forall l :: Placed(s, l) ==> NoDup(l.blocked))
    && (forall l, x :: Placed(s, l) && x in l.blocked ==> WaiterOk(s, l, x))
  }

  /** A sleeping task that nobody has woken is on a block list. */
  ghost predicate NobodyStranded(s: State) {
    forall x :: x in s.tasks && s.tasks[x].Waiting? && !s.tasks[x].woken ==> OnList(s, x)
  }

  ghost predicate Inv(s: State) {
    && FilesOk(s) && TasksOk(s) && IdsOk(s) && WaitersOk(s) && NobodyStranded(s)
    && Acyclic(WaitGraph(s))
  }

  ghost predicate Init(s: State) {
    && (forall ino :: ino in s.files ==> s.files[ino] == [])
    && (forall t :: t in s.tasks ==> s.tasks[t] == Running)
  }

  // ---------- a change of one file's list ----------

  /** Only growth keeps waiters, everybody else is woken, and new locks are new. */
  ghost predicate ListStep(locks: seq<FileLock>, locks': seq<FileLock>, woken: seq<Pid>, lo: nat, hi: nat) {
    && ListOk(locks') && WaitersKept(locks, locks')
    && (forall i :: 0 <= i < |locks'| ==> locks'[i].id in Ids(locks) || lo <= locks'[i].id < hi)
    && Sleepers(locks) == Sleepers(locks') + SetOf(woken)
  }

  /** A lock of the new state with a waiter is a grown lock of the old state. */
  lemma UpdatePlaced(s: State, ino: Ino, locks': seq<FileLock>, woken: seq<Pid>, next: nat, l: FileLock)
    returns (k: FileLock)
    requires Inv(s) && ino in s.files && s.next <= next
    requires ListStep(s.files[ino], locks', woken, s.next, next)
    requires Placed(Update(s, ino, locks', woken, next), l) && l.blocked != []
    ensures Placed(s, k) && GrownFrom(l, k)
  {
    var s' := Update(s, ino, locks', woken, next);
    if InFile(s', ino, l) {
      var i :| 0 <= i < |locks'| && locks'[i] == l;
      var j :| 0 <= j < |s.files[ino]| && GrownFrom(l, s.files[ino][j]);
      k := s.files[ino][j];
      assert InFile(s, ino, k);
    } else if exists i :: InFile(s', i, l) {
      var i :| InFile(s', i, l);
      k := l;
      assert InFile(s, i, k);
    } else {
      var t :| IsDead(s', t, l);
      k := l;
      assert IsDead(s, t, k);
    }
  }

  lemma UpdateWaiters(s: State, ino: Ino, locks': seq<FileLock>, woken: seq<Pid>, next: nat)
    requires Inv(s) && ino in s.files && s.next <= next
    requires ListStep(s.files[ino], locks', woken, s.next, next)
    ensures WaitersOk(Update(s, ino, locks', woken, next))
  {
    var s' := Update(s, ino, locks', woken, next);
    forall l | Placed(s', l) && l.blocked != []
      ensures NoDup(l.blocked) && forall x :: x in l.blocked ==> WaiterOk(s', l, x)
    {
      var k := UpdatePlaced(s, ino, locks', woken, next, l);
      forall x | x in l.blocked ensures WaiterOk(s', l, x) {
        assert WaiterOk(s, k, x);
        GrowthKeepsBlocking(l, k, s.tasks[x].req);
      }
    }
  }

  lemma UpdateStranded(s: State, ino: Ino, locks': seq<FileLock>, woken: seq<Pid>, next: nat)
    requires Inv(s) && ino in s.files && s.next <= next
    requires ListStep(s.files[ino], locks', woken, s.next, next)
    ensures NobodyStranded(Update(s, ino, locks', woken, next))
  {
    var s' := Update(s, ino, locks', woken, next);
    forall x | x in s'.tasks && s'.tasks[x].Waiting? && !s'.tasks[x].woken
      ensures OnList(s', x)
    {
      assert x !in woken && OnList(s, x);
      var l :| Placed(s, l) && x in l.blocked;
      if InFile(s, ino, l) {
        SleepersMember(s.files[ino], x);
        SleepersMember(locks', x);
        var i :| 0 <= i < |locks'| && x in locks'[i].blocked;
        assert InFile(s', ino, locks'[i]);
      } else if exists i :: InFile(s, i, l) {
        var i :| InFile(s, i, l);
        assert InFile(s', i, l);
      } else {
        var t :| IsDead(s, t, l);
        assert IsDead(s', t, l);
      }
    }
  }

  /** Every lock of the new list is new or has the id of a lock of the old list. */
  lemma UpdatedId(s: State, ino: Ino, locks': seq<FileLock>, woken: seq<Pid>, next: nat, l: FileLock)
    requires ino in s.files && ListStep(s.files[ino], locks', woken, s.next, next) && l in locks'
    ensures s.next <= l.id < next || exists k :: InFile(s, ino, k) && k.id == l.id
  {
    var i :| 0 <= i < |locks'| && locks'[i] == l;
    if !(s.next <= l.id < next) {
      var j :| 0 <= j < |s.files[ino]| && s.files[ino][j].id == l.id;
      assert InFile(s, ino, s.files[ino][j]);
    }
  }

  lemma UpdateDead(s: State, ino: Ino, locks': seq<FileLock>, woken: seq<Pid>, next: nat)
    requires IdsOk(s)
    ensures var s' := Update(s, ino, locks', woken, next);
            && (forall t, l :: IsDead(s', t, l) ==> IsDead(s, t, l) && l.id < s.next)
            && (forall i, l :: InFile(s', i, l) && i != ino ==> InFile(s, i, l) && l.id < s.next)
  {
    var s' := Update(s, ino, locks', woken, next);
    forall t, l | IsDead(s', t, l) ensures IsDead(s, t, l) && l.id < s.next {
      assert IsDead(s, t, l) && Placed(s, l);
    }
    forall i, l | InFile(s', i, l) && i != ino ensures InFile(s, i, l) && l.id < s.next {
      assert InFile(s, i, l) && Placed(s, l);
    }
  }

  lemma UpdateIds(s: State, ino: Ino, locks': seq<FileLock>, woken: seq<Pid>, next: nat)
    requires Inv(s) && ino in s.files && s.next <= next
    requires ListStep(s.files[ino], locks', woken, s.next, next)
    ensures IdsOk(Update(s, ino, locks', woken, next))
  {
    hide FilesOk, TasksOk, WaitersOk, NobodyStranded, WaitGraph, Acyclic, Wake, IsDead;
    var s' := Update(s, ino, locks', woken, next);
    forall l | l in locks' ensures s.next <= l.id < next || exists k :: InFile(s, ino, k) && k.id == l.id {
      UpdatedId(s, ino, locks', woken, next, l);
    }
    UpdateDead(s, ino, locks', woken, next);
    forall l | Placed(s', l) ensures l.id < next {
      if i :| InFile(s', i, l) {
        if i == ino && !(s.next <= l.id < next) {
          var k :| InFile(s, ino, k) && k.id == l.id;
          assert Placed(s, k);
        }
      }
    }
  }

  lemma UpdateGraph(s: State, ino: Ino, locks': seq<FileLock>, woken: seq<Pid>, next: nat)
    requires Inv(s) && ino in s.files && s.next <= next
    requires ListStep(s.files[ino], locks', woken, s.next, next)
    ensures Acyclic(WaitGraph(Update(s, ino, locks', woken, next)))
  {
    var s' := Update(s, ino, locks', woken, next);
    forall x | x in WaitGraph(s')
      ensures x in WaitGraph(s) && WaitGraph(s)[x] == WaitGraph(s')[x]
    {
      var l :| Placed(s', l) && x in l.blocked;
      var k := UpdatePlaced(s, ino, locks', woken, next, l);
      assert Placed(s, k) && x in k.blocked;
    }
    SubgraphAcyclic(WaitGraph(s), WaitGraph(s'));
  }

  lemma UpdateInv(s: State, ino: Ino, locks': seq<FileLock>, woken: seq<Pid>, next: nat)
    requires Inv(s) && ino in s.files && s.next <= next
    requires ListStep(s.files[ino], locks', woken, s.next, next)
    ensures Inv(Update(s, ino, locks', woken, next))
  {
    UpdateWaiters(s, ino, locks', woken, next);
    UpdateStranded(s, ino, locks', woken, next);
    UpdateIds(s, ino, locks', woken, next);
    UpdateGraph(s, ino, locks', woken, next);
    var s' := Update(s, ino, locks', woken, next);
    assert FilesOk(s');
    assert TasksOk(s');
  }

  // ---------- going to sleep ----------

  /** The two lists differ in their block lists only. */
  ghost predicate SameShape(a: seq<FileLock>, b: seq<FileLock>) {
    && |a| == |b|
    && forall i :: 0 <= i < |a| ==> b[i] == a[i].(blocked := b[i].blocked)
  }

  lemma ShapeHolds(a: seq<FileLock>, b: seq<FileLock>, o: Owner, ty: LockType, x: int)
    requires SameShape(a, b) && Holds(b, o, ty, x)
    ensures Holds(a, o, ty, x)
  {
    var i :| 0 <= i < |b| && Covers(b[i], o, ty, x);
    assert Covers(a[i], o, ty, x);
  }

  lemma ShapeOk(a: seq<FileLock>, b: seq<FileLock>)
    requires SameShape(a, b) && ListOk(a)
    ensures ListOk(b)
  {
    assert DistinctIds(b);
    if FlockList(a) {
      assert FlockList(b);
    } else {
      assert Canonical(b) by { ShapeCanonical(a, b); }
      forall o1, o2, ty, x | Holds(b, o1, WrLck, x) && Holds(b, o2, ty, x)
        ensures o1 == o2
      {
        ShapeHolds(a, b, o1, WrLck, x);
        ShapeHolds(a, b, o2, ty, x);
      }
    }
  }

  lemma ShapeCanonical(a: seq<FileLock>, b: seq<FileLock>)
    requires SameShape(a, b) && Canonical(a)
    ensures Canonical(b)
  {
    forall i, j | 0 <= i < j < |b| && b[i].owner == b[j].owner
      ensures Before(b[i], b[j])
    {
      assert Before(a[i], a[j]);
    }
  }

  ghost predicate MayBlock(s: State, t: Pid, ino: Ino, i: nat, req: FileLock, call: Call) {
    && t in s.tasks && s.tasks[t] == Running
    && ino in s.files && i < |s.files[ino]| && Blocks(s.files[ino][i], req)
    && (call == FlockCall <==> s.files[ino][i].kind == Flock)
    && (call == FlockCall ==> FlockRequest(req) && req.ltype != UnLck)
    && (call != FlockCall ==> req.kind == Posix && req.owner == Task(t) && req.ltype != UnLck)
    && (call == Setlkw ==> Request(req))
    && (s.files[ino][i].owner.Task? ==> !Reaches(WaitGraph(s), s.files[ino][i].owner.pid, t))
  }

  /** Apart from the lock slept on, the same locks are placed. */
  lemma BlockPlaced(s: State, t: Pid, ino: Ino, i: nat, req: FileLock, call: Call, l: FileLock)
    requires Inv(s) && MayBlock(s, t, ino, i, req, call)
    ensures var was := s.files[ino][i];
            var now := was.(blocked := was.blocked + [t]);
            Placed(Block(s, t, ino, i, req, call), l) <==> l == now || (Placed(s, l) && l != was)
  {
    var s' := Block(s, t, ino, i, req, call);
    var was := s.files[ino][i];
    var now := was.(blocked := was.blocked + [t]);
    assert InFile(s, ino, was);
    assert s'.files[ino][i] == now;
    assert InFile(s', ino, now);
    if l != now && Placed(s', l) {
      if k :| InFile(s', k, l) {
        if k == ino {
          var j :| 0 <= j < |s'.files[ino]| && s'.files[ino][j] == l;
          assert s.files[ino][j] == l && s.files[ino][j].id != was.id;
        }
        assert InFile(s, k, l);
      } else {
        var u :| IsDead(s', u, l);
        assert IsDead(s, u, l);
      }
    }
    if Placed(s, l) && l != was {
      if k :| InFile(s, k, l) {
        if k == ino {
          var j :| 0 <= j < |s.files[ino]| && s.files[ino][j] == l;
          assert s'.files[ino][j] == l;
        }
        assert InFile(s', k, l);
      } else {
        var u :| IsDead(s, u, l);
        assert IsDead(s', u, l);
      }
    }
  }

  lemma BlockIds(s: State, t: Pid, ino: Ino, i: nat, req: FileLock, call: Call)
    requires Inv(s) && MayBlock(s, t, ino, i, req, call)
    ensures IdsOk(Block(s, t, ino, i, req, call))
  {
    hide WaitersOk, TasksOk, NobodyStranded, WaitGraph, Acyclic, IdsOk;
    var s' := Block(s, t, ino, i, req, call);
    forall k, l | InFile(s', k, l)
      ensures exists m :: InFile(s, k, m) && m.id == l.id
    {
      if k == ino {
        var j :| 0 <= j < |s'.files[ino]| && s'.files[ino][j] == l;
        assert InFile(s, k, s.files[ino][j]);
      } else {
        assert InFile(s, k, l);
      }
    }
    forall u, l | IsDead(s', u, l) ensures IsDead(s, u, l) {}
    ShapeOk(s.files[ino], s'.files[ino]);
    SameHomes(s, s');
  }

  /** Ids stay in order when every lock keeps its place. */
  lemma SameHomes(s: State, s': State)
    requires IdsOk(s) && s.next == s'.next
    requires forall k, l :: InFile(s', k, l) ==> exists m :: InFile(s, k, m) && m.id == l.id
    requires forall u, l :: IsDead(s', u, l) ==> exists m :: IsDead(s, u, m) && m.id == l.id
    requires forall k :: k in s'.files ==> DistinctIds(s'.files[k])
    ensures IdsOk(s')
  {
    hide Placed;
    forall i, j, k, l | InFile(s', i, k) && InFile(s', j, l) && k.id == l.id
      ensures i == j && k == l
    {
      var k0 :| InFile(s, i, k0) && k0.id == k.id;
      var l0 :| InFile(s, j, l0) && l0.id == l.id;
      SameId(s'.files[i], k, l);
    }
    forall l | Placed(s', l) ensures l.id < s.next { HomeBelow(s, s', l); }
  }

  lemma HomeBelow(s: State, s': State, l: FileLock)
    requires IdsOk(s) && s.next == s'.next && Placed(s', l)
    requires forall k, l :: InFile(s', k, l) ==> exists m :: InFile(s, k, m) && m.id == l.id
    requires forall u, l :: IsDead(s', u, l) ==> exists m :: IsDead(s, u, m) && m.id == l.id
    ensures l.id < s.next
  {
    if k :| InFile(s', k, l) {
      var m :| InFile(s, k, m) && m.id == l.id;
      assert Placed(s, m);
    } else {
      var u :| IsDead(s', u, l);
      var m :| IsDead(s, u, m) && m.id == l.id;
      assert Placed(s, m);
    }
  }

  lemma SameId(locks: seq<FileLock>, k: FileLock, l: FileLock)
    requires DistinctIds(locks) && k in locks && l in locks && k.id == l.id
    ensures k == l
  {
  }

  lemma BlockWaiters(s: State, t: Pid, ino: Ino, i: nat, req: FileLock, call: Call)
    requires Inv(s) && MayBlock(s, t, ino, i, req, call)
    ensures WaitersOk(Block(s, t, ino, i, req, call))
    ensures NobodyStranded(Block(s, t, ino, i, req, call))
  {
    var s' := Block(s, t, ino, i, req, call);
    var was := s.files[ino][i];
    var now := was.(blocked := was.blocked + [t]);
    assert InFile(s, ino, was);
    assert t !in was.blocked by { assert t in was.blocked ==> WaiterOk(s, was, t); }
    forall l | Placed(s', l)
      ensures NoDup(l.blocked) && forall x :: x in l.blocked ==> WaiterOk(s', l, x)
    {
      BlockPlaced(s, t, ino, i, req, call, l);
      forall x | x in l.blocked ensures WaiterOk(s', l, x) {
        if x != t || l != now { assert WaiterOk(s, if l == now then was else l, x); }
      }
    }
    forall x | x in s'.tasks && s'.tasks[x].Waiting? && !s'.tasks[x].woken
      ensures OnList(s', x)
    {
      BlockPlaced(s, t, ino, i, req, call, now);
      if x != t {
        assert OnList(s, x);
        var l :| Placed(s, l) && x in l.blocked;
        BlockPlaced(s, t, ino, i, req, call, l);
        assert Placed(s', if l == was then now else l);
      } else {
        assert Placed(s', now) && t in now.blocked;
      }
    }
  }

  lemma InFilePlaced(s: State, ino: Ino, l: FileLock)
    requires InFile(s, ino, l)
    ensures Placed(s, l)
  {
  }

  lemma BlockOnList(s: State, t: Pid, ino: Ino, i: nat, req: FileLock, call: Call, x: Pid)
    requires Inv(s) && MayBlock(s, t, ino, i, req, call)
    ensures var s' := Block(s, t, ino, i, req, call);
            if x == t then OnList(s', x) else OnList(s', x) <==> OnList(s, x)
  {
    hide WaitersOk, TasksOk, NobodyStranded, FilesOk, IdsOk, Placed, Acyclic, Blocks, WaitGraph;
    var s' := Block(s, t, ino, i, req, call);
    var was := s.files[ino][i];
    var now := was.(blocked := was.blocked + [t]);
    BlockPlaced(s, t, ino, i, req, call, now);
    InFilePlaced(s, ino, was);
    assert Placed(s', now) && t in now.blocked;
    if x != t && OnList(s', x) {
      var l :| Placed(s', l) && x in l.blocked;
      BlockPlaced(s, t, ino, i, req, call, l);
      assert Placed(s, if l == now then was else l);
    }
    if x != t && OnList(s, x) {
      var l :| Placed(s, l) && x in l.blocked;
      BlockPlaced(s, t, ino, i, req, call, l);
      assert Placed(s', if l == was then now else l);
    }
  }

  lemma BlockGraph(s: State, t: Pid, ino: Ino, i: nat, req: FileLock, call: Call)
    requires Inv(s) && MayBlock(s, t, ino, i, req, call)
    ensures Acyclic(WaitGraph(Block(s, t, ino, i, req, call)))
  {
    var s' := Block(s, t, ino, i, req, call);
    var o := s.files[ino][i].owner;
    forall x ensures if x == t then OnList(s', x) else OnList(s', x) <==> OnList(s, x) {
      BlockOnList(s, t, ino, i, req, call, x);
    }
    GraphGrows(s, s', t);
    if o.Task? { AddWait(WaitGraph(s), t, o.pid); }
  }

  /** The graph after one task has started to wait. */
  lemma GraphGrows(s: State, s': State, t: Pid)
    requires t in s.tasks && s.tasks[t] == Running && t in s'.tasks && s'.tasks[t].Waiting?
    requires s'.tasks == s.tasks[t := s'.tasks[t]]
    requires forall x :: if x == t then OnList(s', x) else OnList(s', x) <==> OnList(s, x)
    ensures WaitGraph(s') ==
            if s'.tasks[t].on.Task? then WaitGraph(s)[t := s'.tasks[t].on.pid] else WaitGraph(s)
  {
    hide OnList;
    var w, w' := WaitGraph(s), WaitGraph(s');
    assert forall x :: x != t ==> (x in w <==> x in w') && (x in w ==> w[x] == w'[x]);
  }

  lemma BlockInv(s: State, t: Pid, ino: Ino, i: nat, req: FileLock, call: Call)
    requires Inv(s) && MayBlock(s, t, ino, i, req, call)
    ensures Inv(Block(s, t, ino, i, req, call))
  {
    hide FilesOk, TasksOk, IdsOk, WaitersOk, NobodyStranded, WaitGraph, Acyclic, Block;
    BlockIds(s, t, ino, i, req, call);
    BlockWaiters(s, t, ino, i, req, call);
    BlockGraph(s, t, ino, i, req, call);
    BlockTables(s, t, ino, i, req, call);
  }

  lemma BlockTables(s: State, t: Pid, ino: Ino, i: nat, req: FileLock, call: Call)
    requires FilesOk(s) && TasksOk(s) && MayBlock(s, t, ino, i, req, call)
    ensures FilesOk(Block(s, t, ino, i, req, call)) && TasksOk(Block(s, t, ino, i, req, call))
  {
    hide ListOk, WaitGraph, Reaches;
    ShapeOk(s.files[ino], Block(s, t, ino, i, req, call).files[ino]);
  }

  // ---------- running again ----------

  /** The locks of the new state are those of the old one without `t` on their block lists. */
  lemma UnblockPlaced(s: State, t: Pid, l': FileLock) returns (l: FileLock)
    requires t in s.tasks && s.tasks[t].Waiting? && Placed(Unblock(s, t), l')
    ensures Placed(s, l) && l' == Strip(l, t)
  {
    var s' := Unblock(s, t);
    if k :| InFile(s', k, l') {
      var i :| 0 <= i < |s'.files[k]| && s'.files[k][i] == l';
      l := s.files[k][i];
      assert InFile(s, k, l);
    } else {
      var u :| IsDead(s', u, l');
      l := s.tasks[u].dead;
      assert IsDead(s, u, l);
    }
  }

  lemma UnblockKeeps(s: State, t: Pid, l: FileLock)
    requires t in s.tasks && s.tasks[t].Waiting? && Placed(s, l)
    ensures Placed(Unblock(s, t), Strip(l, t))
  {
    var s' := Unblock(s, t);
    if k :| InFile(s, k, l) {
      var i :| 0 <= i < |s.files[k]| && s.files[k][i] == l;
      assert s'.files[k][i] == Strip(l, t);
      assert InFile(s', k, Strip(l, t));
    } else {
      var u :| IsDead(s, u, l);
      assert IsDead(s', u, Strip(l, t));
    }
  }

  lemma UnblockIds(s: State, t: Pid)
    requires Inv(s) && t in s.tasks && s.tasks[t].Waiting?
    ensures FilesOk(Unblock(s, t)) && IdsOk(Unblock(s, t))
  {
    hide WaitersOk, TasksOk, NobodyStranded, WaitGraph, Acyclic, IdsOk, Without;
    var s' := Unblock(s, t);
    forall k | k in s'.files ensures ListOk(s'.files[k]) { ShapeOk(s.files[k], s'.files[k]); }
    forall k, l' | InFile(s', k, l') ensures exists l :: InFile(s, k, l) && l.id == l'.id {
      var i :| 0 <= i < |s'.files[k]| && s'.files[k][i] == l';
      assert InFile(s, k, s.files[k][i]);
    }
    forall u, l' | IsDead(s', u, l') ensures exists l :: IsDead(s, u, l) && l.id == l'.id {
      assert IsDead(s, u, s.tasks[u].dead);
    }
    SameHomes(s, s');
  }

  lemma UnblockWaiters(s: State, t: Pid)
    requires Inv(s) && t in s.tasks && s.tasks[t].Waiting?
    ensures WaitersOk(Unblock(s, t))
  {
    var s' := Unblock(s, t);
    forall l' | Placed(s', l')
      ensures NoDup(l'.blocked) && forall x :: x in l'.blocked ==> WaiterOk(s', l', x)
    {
      var l := UnblockPlaced(s, t, l');
      WithoutNoDup(l.blocked, t);
      forall x | x in l'.blocked ensures WaiterOk(s', l', x) {
        assert WaiterOk(s, l, x);
      }
    }
  }

  lemma UnblockOnList(s: State, t: Pid, x: Pid)
    requires t in s.tasks && s.tasks[t].Waiting?
    ensures OnList(Unblock(s, t), x) <==> x != t && OnList(s, x)
  {
    var s' := Unblock(s, t);
    if OnList(s', x) {
      var l' :| Placed(s', l') && x in l'.blocked;
      var l := UnblockPlaced(s, t, l');
      assert Placed(s, l) && x in l.blocked;
    }
    if x != t && OnList(s, x) {
      var l :| Placed(s, l) && x in l.blocked;
      UnblockKeeps(s, t, l);
      assert x in Strip(l, t).blocked;
    }
  }

  lemma UnblockInv(s: State, t: Pid)
    requires Inv(s) && t in s.tasks && s.tasks[t].Waiting?
    ensures Inv(Unblock(s, t)) && Unblock(s, t).tasks[t] == Running
  {
    hide OnList, IdsOk, FilesOk, WaitersOk, Acyclic;
    var s' := Unblock(s, t);
    UnblockIds(s, t);
    UnblockWaiters(s, t);
    forall x ensures OnList(s', x) <==> x != t && OnList(s, x) { UnblockOnList(s, t, x); }
    assert TasksOk(s') && NobodyStranded(s');
    SubgraphAcyclic(WaitGraph(s), WaitGraph(s'));
  }

  lemma WakeFrame(s: State, woken: seq<Pid>)
    ensures var s' := s.(tasks := Wake(s.tasks, woken));
            && (forall l :: Placed(s', l) <==> Placed(s, l))
            && (forall x :: OnList(s', x) <==> OnList(s, x))
            && (forall k, l :: InFile(s', k, l) <==> InFile(s, k, l))
            && (forall k, l :: IsDead(s', k, l) <==> IsDead(s, k, l))
  {
    var s' := s.(tasks := Wake(s.tasks, woken));
    forall l ensures Placed(s', l) <==> Placed(s, l) { WakePlaced(s, woken, l); }
    hide Placed;
  }

  /** Waking changes nothing but who may run. */
  lemma WakeInv(s: State, woken: seq<Pid>)
    requires Inv(s)
    ensures Inv(s.(tasks := Wake(s.tasks, woken)))
  {
    hide FilesOk, TasksOk, IdsOk, WaitersOk, NobodyStranded, WaitGraph, Acyclic, Wake;
    WakeIds(s, woken);
    WakeWaiters(s, woken);
    WakeTasks(s, woken);
  }

  lemma WakeIds(s: State, woken: seq<Pid>)
    requires IdsOk(s)
    ensures IdsOk(s.(tasks := Wake(s.tasks, woken)))
  {
    hide Placed, InFile, IsDead, Wake;
    WakeFrame(s, woken);
  }

  lemma WakeWaiters(s: State, woken: seq<Pid>)
    requires WaitersOk(s)
    ensures WaitersOk(s.(tasks := Wake(s.tasks, woken)))
  {
    hide Placed, InFile, IsDead, OnList;
    WakeFrame(s, woken);
    var s' := s.(tasks := Wake(s.tasks, woken));
    forall l, x | Placed(s', l) && x in l.blocked ensures WaiterOk(s', l, x) {
      assert WaiterOk(s, l, x);
    }
  }

  lemma WakeTasks(s: State, woken: seq<Pid>)
    requires FilesOk(s) && TasksOk(s) && NobodyStranded(s)
    ensures var s' := s.(tasks := Wake(s.tasks, woken));
            FilesOk(s') && TasksOk(s') && NobodyStranded(s') && WaitGraph(s') == WaitGraph(s)
  {
    hide Placed, InFile, IsDead, OnList, ListOk, Request, FlockRequest;
    WakeFrame(s, woken);
  }

  lemma WakePlaced(s: State, woken: seq<Pid>, l: FileLock)
    ensures Placed(s.(tasks := Wake(s.tasks, woken)), l) <==> Placed(s, l)
  {
    var s' := s.(tasks := Wake(s.tasks, woken));
    if Placed(s', l) {
      if k :| InFile(s', k, l) { assert InFile(s, k, l); } else { var u :| IsDead(s', u, l); assert IsDead(s, u, l); }
    }
    if Placed(s, l) {
      if k :| InFile(s, k, l) { assert InFile(s', k, l); } else { var u :| IsDead(s, u, l); assert IsDead(s', u, l); }
    }
  }

  // ---------- unlinking a lock and waiting for its block list to drain ----------

  function Drain(s: State, t: Pid, ino: Ino, req: FileLock, wait: bool, k: nat): State
    requires ino in s.files && k < |s.files[ino]|
  {
    s.(files := s.files[ino := RemoveAt(s.files[ino], k)],
       tasks := s.tasks[t := Draining(ino, req, wait, s.files[ino][k])])
  }

  ghost predicate MayDrain(s: State, t: Pid, ino: Ino, req: FileLock, k: nat) {
    && t in s.tasks && s.tasks[t] == Running && FlockRequest(req)
    && ino in s.files && k < |s.files[ino]| && FlockList(s.files[ino])
  }

  /** The unlinked lock stays allocated. */
  lemma DrainPlaced(s: State, t: Pid, ino: Ino, req: FileLock, wait: bool, k: nat, l: FileLock)
    requires MayDrain(s, t, ino, req, k)
    ensures Placed(Drain(s, t, ino, req, wait, k), l) <==> Placed(s, l)
  {
    var s' := Drain(s, t, ino, req, wait, k);
    var locks := s.files[ino];
    assert IsDead(s', t, locks[k]) && InFile(s, ino, locks[k]);
    if Placed(s', l) {
      if i :| InFile(s', i, l) {
        assert InFile(s, i, l);
      } else {
        var u :| IsDead(s', u, l);
        assert u != t ==> IsDead(s, u, l);
      }
    }
    if Placed(s, l) && l != locks[k] {
      if i :| InFile(s, i, l) {
        if i == ino {
          var j :| 0 <= j < |locks| && locks[j] == l;
          assert RemoveAt(locks, k)[if j < k then j else j - 1] == l;
        }
        assert InFile(s', i, l);
      } else {
        var u :| IsDead(s, u, l);
        assert IsDead(s', u, l);
      }
    }
  }

  lemma RemoveOk(locks: seq<FileLock>, k: nat)
    requires DistinctIds(locks) && FlockList(locks) && k < |locks|
    ensures DistinctIds(RemoveAt(locks, k)) && FlockList(RemoveAt(locks, k))
    ensures locks[k] !in RemoveAt(locks, k)
  {
    var r := RemoveAt(locks, k);
    assert forall i :: 0 <= i < |r| ==> r[i] == locks[if i < k then i else i + 1];
  }

  lemma DrainIds(s: State, t: Pid, ino: Ino, req: FileLock, wait: bool, k: nat)
    requires Inv(s) && MayDrain(s, t, ino, req, k)
    ensures FilesOk(Drain(s, t, ino, req, wait, k)) && IdsOk(Drain(s, t, ino, req, wait, k))
  {
    hide WaitersOk, TasksOk, NobodyStranded, WaitGraph, Acyclic;
    var s' := Drain(s, t, ino, req, wait, k);
    var dead := s.files[ino][k];
    RemoveOk(s.files[ino], k);
    assert InFile(s, ino, dead);
    forall l | Placed(s', l) ensures l.id < s.next { DrainPlaced(s, t, ino, req, wait, k, l); }
    forall i, l | InFile(s', i, l) ensures InFile(s, i, l) && l != dead {
      assert InFile(s, i, l);
    }
    forall u, l | IsDead(s', u, l) ensures if u == t then l == dead else IsDead(s, u, l) {}
    hide Placed;
  }

  lemma SameOnList(s: State, s': State)
    requires forall l :: Placed(s', l) <==> Placed(s, l)
    ensures forall x :: OnList(s', x) <==> OnList(s, x)
  {
    hide Placed;
  }

  lemma DrainInv(s: State, t: Pid, ino: Ino, req: FileLock, wait: bool, k: nat)
    requires Inv(s) && MayDrain(s, t, ino, req, k)
    ensures Inv(Drain(s, t, ino, req, wait, k))
  {
    hide Placed, OnList, FilesOk, IdsOk, Acyclic;
    var s' := Drain(s, t, ino, req, wait, k);
    DrainIds(s, t, ino, req, wait, k);
    forall l ensures Placed(s', l) <==> Placed(s, l) { DrainPlaced(s, t, ino, req, wait, k, l); }
    SameOnList(s, s');
    assert TasksOk(s') && NobodyStranded(s');
    forall l, x | Placed(s', l) && x in l.blocked ensures WaiterOk(s', l, x) {
      assert WaiterOk(s, l, x);
    }
    assert WaitGraph(s') == WaitGraph(s);
  }

  lemma FreeFrame(s: State, t: Pid)
    requires t in s.tasks && s.tasks[t].Draining? && s.tasks[t].dead.blocked == []
    ensures var s' := s.(tasks := s.tasks[t := Running]);
            && (forall l :: Placed(s', l) ==> Placed(s, l))
            && (forall x :: OnList(s', x) <==> OnList(s, x))
            && (forall k, l :: InFile(s', k, l) <==> InFile(s, k, l))
            && (forall k, l :: IsDead(s', k, l) ==> IsDead(s, k, l))
  {
    var s' := s.(tasks := s.tasks[t := Running]);
    forall l ensures Placed(s', l) ==> Placed(s, l) { FreePlaced(s, t, l); }
    forall l ensures Placed(s, l) && l.blocked != [] ==> Placed(s', l) { FreePlaced(s, t, l); }
    hide Placed;
    forall x ensures OnList(s', x) <==> OnList(s, x) {
      if OnList(s, x) { var l :| Placed(s, l) && x in l.blocked; assert Placed(s', l); }
    }
  }

  /** A drained lock with an empty block list may be freed. */
  lemma FreeInv(s: State, t: Pid)
    requires Inv(s) && t in s.tasks && s.tasks[t].Draining? && s.tasks[t].dead.blocked == []
    ensures Inv(s.(tasks := s.tasks[t := Running]))
  {
    hide FilesOk, TasksOk, IdsOk, WaitersOk, NobodyStranded, WaitGraph, Acyclic;
    FreeIds(s, t);
    FreeWaiters(s, t);
    FreeTasks(s, t);
  }

  lemma FreeIds(s: State, t: Pid)
    requires IdsOk(s) && t in s.tasks && s.tasks[t].Draining? && s.tasks[t].dead.blocked == []
    ensures IdsOk(s.(tasks := s.tasks[t := Running]))
  {
    hide Placed, InFile, IsDead;
    FreeFrame(s, t);
  }

  lemma FreeWaiters(s: State, t: Pid)
    requires WaitersOk(s) && t in s.tasks && s.tasks[t].Draining? && s.tasks[t].dead.blocked == []
    ensures WaitersOk(s.(tasks := s.tasks[t := Running]))
  {
    hide Placed, InFile, IsDead, OnList;
    FreeFrame(s, t);
    var s' := s.(tasks := s.tasks[t := Running]);
    forall l, x | Placed(s', l) && x in l.blocked ensures WaiterOk(s', l, x) {
      assert WaiterOk(s, l, x);
    }
  }

  lemma FreeTasks(s: State, t: Pid)
    requires FilesOk(s) && TasksOk(s) && NobodyStranded(s)
    requires t in s.tasks && s.tasks[t].Draining? && s.tasks[t].dead.blocked == []
    ensures var s' := s.(tasks := s.tasks[t := Running]);
            FilesOk(s') && TasksOk(s') && NobodyStranded(s') && WaitGraph(s') == WaitGraph(s)
  {
    hide Placed, InFile, IsDead, OnList, ListOk, Request, FlockRequest;
    FreeFrame(s, t);
  }

  lemma FreePlaced(s: State, t: Pid, l: FileLock)
    requires t in s.tasks && s.tasks[t].Draining?
    ensures var s' := s.(tasks := s.tasks[t := Running]);
            && (Placed(s', l) ==> Placed(s, l))
            && (Placed(s, l) && l != s.tasks[t].dead ==> Placed(s', l))
  {
    var s' := s.(tasks := s.tasks[t := Running]);
    if Placed(s', l) {
      if k :| InFile(s', k, l) { assert InFile(s, k, l); } else { var u :| IsDead(s', u, l); assert IsDead(s, u, l); }
    }
    if Placed(s, l) && l != s.tasks[t].dead {
      if k :| InFile(s, k, l) { assert InFile(s', k, l); } else { var u :| IsDead(s, u, l); assert IsDead(s', u, l); }
    }
  }

  // ---------- the list updates of each call ----------

  /** Applying a request that conflicts with nobody keeps write locks exclusive. */
  lemma AppliedExclusive(locks: seq<FileLock>, req: FileLock, next: nat, locks': seq<FileLock>, woken: seq<Pid>)
    requires Exclusive(locks) && Canonical(locks) && AppliedFrom(locks, req, next, locks', woken)
    requires req.ltype == UnLck || FirstBlocker(locks, req) == |locks|
    ensures Exclusive(locks')
  {
    forall o1, o2, ty, b | o1 != o2 ensures !(Holds(locks', o1, WrLck, b) && Holds(locks', o2, ty, b)) {
      if req.ltype != UnLck && req.start <= b <= req.end {
        if o1 == req.owner && req.ltype == WrLck { NoOther(locks, req, o2, ty, b); }
        if o2 == req.owner { NoOther(locks, req, o1, WrLck, b); }
      }
    }
  }

  /** Nobody else holds a byte of a request that nothing blocks, unless both only read. */
  lemma NoOther(locks: seq<FileLock>, req: FileLock, o: Owner, ty: LockType, b: int)
    requires Canonical(locks) && FirstBlocker(locks, req) == |locks|
    requires o != req.owner && req.start <= b <= req.end && req.ltype != UnLck
    requires req.ltype == WrLck || ty == WrLck
    ensures !Holds(locks, o, ty, b)
  {
    forall i | 0 <= i < |locks| ensures !Covers(locks[i], o, ty, b) {
      assert WellFormed(locks[i]);
      assert !Blocks(locks[i], req);
    }
  }

  lemma EmptyIsCanonical(locks: seq<FileLock>)
    requires ListOk(locks) && !StartsWithFlock(locks)
    ensures Canonical(locks) && Exclusive(locks)
  {
    assert FlockList(locks) ==> locks == [];
  }

  lemma EmptyIsFlock(locks: seq<FileLock>)
    requires ListOk(locks) && !StartsWithPosix(locks)
    ensures FlockList(locks)
  {
    assert Canonical(locks) && locks != [] ==> WellFormed(locks[0]);
  }

  lemma PosixListStep(locks: seq<FileLock>, req: FileLock, next: nat, locks': seq<FileLock>, woken: seq<Pid>)
    requires ListOk(locks) && !StartsWithFlock(locks) && AppliedFrom(locks, req, next, locks', woken)
    requires req.ltype == UnLck || FirstBlocker(locks, req) == |locks|
    ensures ListStep(locks, locks', woken, next, next + 2)
  {
    EmptyIsCanonical(locks);
    AppliedExclusive(locks, req, next, locks', woken);
    forall i | 0 <= i < |locks'| ensures locks'[i].id in Ids(locks) || next <= locks'[i].id < next + 2 {
      assert locks'[i].id in Ids(locks');
    }
  }

  lemma CloseListStep(locks: seq<FileLock>, t: Pid, filp: nat, last: bool, next: nat)
    requires ListOk(locks)
    ensures var who := CloserOf(locks, t, filp, last);
            ListStep(locks, Remaining(locks, who), Dropped(locks, who), next, next)
  {
    var who := CloserOf(locks, t, filp, last);
    var r := Remaining(locks, who);
    RemainingKeeps(locks, who);
    RemainingSleepers(locks, who);
    forall i | 0 <= i < |r| ensures r[i].id in Ids(locks) { assert r[i].id in Ids(r); }
    if StartsWithPosix(locks) {
      assert !FlockList(locks);
      RemainingCanonical(locks, who);
      forall o1, o2, ty, b | Holds(r, o1, WrLck, b) && Holds(r, o2, ty, b)
        ensures o1 == o2
      {
        RemainingHolds(locks, o1, Task(t), WrLck, b);
        RemainingHolds(locks, o2, Task(t), ty, b);
      }
    } else {
      EmptyIsFlock(locks);
    }
  }

  /** A FLOCK lock that nothing blocks goes to the head of the list. */
  lemma GrantListStep(locks: seq<FileLock>, req: FileLock, next: nat)
    requires ListOk(locks) && !StartsWithPosix(locks) && FlockRequest(req) && req.ltype != UnLck
    requires FirstBlocker(locks, req) == |locks| && (forall i :: 0 <= i < |locks| ==> locks[i].id < next)
    ensures ListStep(locks, [NewLock(req, next)] + locks, [], next, next + 1)
  {
    hide FlockList, DistinctIds, FirstBlocker, Canonical, Exclusive;
    var n := [NewLock(req, next)] + locks;
    EmptyIsFlock(locks);
    GrantOk(locks, req, next);
    forall i | 0 <= i < |n| && n[i].blocked != []
      ensures exists k :: 0 <= k < |locks| && GrownFrom(n[i], locks[k])
    {
      assert GrownFrom(n[i], locks[i - 1]);
    }
    forall i | 0 <= i < |n| ensures n[i].id in Ids(locks) || next <= n[i].id < next + 1 {
      if i > 0 { assert locks[i - 1].id in Ids(locks); }
    }
    assert n[1..] == locks;
  }

  lemma GrantOk(locks: seq<FileLock>, req: FileLock, next: nat)
    requires DistinctIds(locks) && FlockList(locks) && FlockRequest(req) && req.ltype != UnLck
    requires FirstBlocker(locks, req) == |locks| && (forall i :: 0 <= i < |locks| ==> locks[i].id < next)
    ensures FlockList([NewLock(req, next)] + locks) && DistinctIds([NewLock(req, next)] + locks)
  {
    forall i | 0 <= i < |locks| ensures locks[i].filp != req.filp ==> req.ltype == locks[i].ltype == RdLck {
      assert !Blocks(locks[i], req);
    }
  }

  lemma UnlockListStep(locks: seq<FileLock>, k: nat, next: nat)
    requires ListOk(locks) && FlockList(locks) && k < |locks|
    ensures ListStep(locks, RemoveAt(locks, k), locks[k].blocked, next, next)
  {
    var r := RemoveAt(locks, k);
    RemoveOk(locks, k);
    forall i | 0 <= i < |r| ensures r[i].id in Ids(locks) && GrownFrom(r[i], locks[if i < k then i else i + 1]) {
      assert r[i] == locks[if i < k then i else i + 1];
    }
    assert locks == locks[..k] + [locks[k]] + locks[k + 1..];
    SleepersConcat(locks[..k] + [locks[k]], locks[k + 1..]);
    SleepersConcat(locks[..k], [locks[k]]);
    SleepersConcat(locks[..k], locks[k + 1..]);
    SleepersOne(locks[k]);
  }

  // ---------- every step keeps the invariant ----------

  lemma PosixTryInv(s: State, t: Pid, ino: Ino, req: FileLock, wait: bool, signal: bool, s': State)
    requires Inv(s) && t in s.tasks && s.tasks[t] == Running && ino in s.files
    requires Request(req) && req.owner == Task(t) && PosixTry(s, t, ino, req, wait, signal, s')
    ensures Inv(s')
  {
    var locks := s.files[ino];
    hide Inv, ListStep, Exclusive, Canonical, Request;
    assert ListOk(locks) by { InvList(s, ino); }
    match PosixOutcome(locks, req, wait, Deadlocks(s, t, locks, req), signal)
    case Fail(_) =>
    case Sleep(i) =>
      BlockerIsPosix(locks, i);
      BlockInv(s, t, ino, i, req, Setlkw);
    case Apply =>
      var locks', woken :| AppliedFrom(locks, req, s.next, locks', woken) &&
                           s' == Update(s, ino, locks', woken, s.next + 2);
      PosixListStep(locks, req, s.next, locks', woken);
      UpdateInv(s, ino, locks', woken, s.next + 2);
  }

  lemma InvList(s: State, ino: Ino)
    requires Inv(s) && ino in s.files
    ensures ListOk(s.files[ino])
    ensures forall i :: 0 <= i < |s.files[ino]| ==> s.files[ino][i].id < s.next
  {
    forall i | 0 <= i < |s.files[ino]| ensures s.files[ino][i].id < s.next {
      assert InFile(s, ino, s.files[ino][i]);
    }
  }

  lemma BlockerIsPosix(locks: seq<FileLock>, i: nat)
    requires ListOk(locks) && !StartsWithFlock(locks) && i < |locks|
    ensures locks[i].kind == Posix && locks[i].owner.Task?
  {
    EmptyIsCanonical(locks);
    assert WellFormed(locks[i]);
  }

  lemma AccessTryInv(s: State, t: Pid, ino: Ino, req: FileLock, nonblock: bool, signal: bool, s': State)
    requires Inv(s) && t in s.tasks && s.tasks[t] == Running && ino in s.files
    requires req.kind == Posix && req.owner == Task(t) && req.ltype != UnLck
    requires AccessTry(s, t, ino, req, nonblock, signal, s')
    ensures Inv(s')
  {
    var locks := s.files[ino];
    hide Inv;
    InvList(s, ino);
    if AccessOutcome(locks, req, nonblock, Deadlocks(s, t, locks, req), signal).Sleep? {
      var i := FirstBlocker(locks, req);
      BlockerIsPosix(locks, i);
      BlockInv(s, t, ino, i, req, Access);
    }
  }

  lemma FlockGrantInv(s: State, t: Pid, ino: Ino, req: FileLock, wait: bool, signal: bool, s': State)
    requires Inv(s) && t in s.tasks && s.tasks[t] == Running && ino in s.files
    requires FlockRequest(req) && req.ltype != UnLck && FlockGrant(s, t, ino, req, wait, signal, s')
    ensures Inv(s')
  {
    hide Inv, FlockRequest, FirstBlocker, Block, Update, StartsWithPosix;
    match FlockOutcome(s.files[ino], req, wait, signal)
    case Fail(_) =>
    case Sleep(i) => FlockSleepInv(s, t, ino, req, i);
    case Apply => FlockApplyInv(s, ino, req);
  }

  lemma FlockSleepInv(s: State, t: Pid, ino: Ino, req: FileLock, i: nat)
    requires Inv(s) && t in s.tasks && s.tasks[t] == Running && ino in s.files
    requires FlockRequest(req) && req.ltype != UnLck && !StartsWithPosix(s.files[ino])
    requires i == FirstBlocker(s.files[ino], req) < |s.files[ino]|
    ensures Inv(Block(s, t, ino, i, req, FlockCall))
  {
    hide Inv, Block;
    InvList(s, ino);
    EmptyIsFlock(s.files[ino]);
    BlockInv(s, t, ino, i, req, FlockCall);
  }

  lemma FlockApplyInv(s: State, ino: Ino, req: FileLock)
    requires Inv(s) && ino in s.files && FlockRequest(req) && req.ltype != UnLck
    requires !StartsWithPosix(s.files[ino]) && FirstBlocker(s.files[ino], req) == |s.files[ino]|
    ensures Inv(Update(s, ino, [NewLock(req, s.next)] + s.files[ino], [], s.next + 1))
  {
    hide Inv, ListStep, Update, ListOk, FirstBlocker;
    InvList(s, ino);
    GrantListStep(s.files[ino], req, s.next);
    UpdateInv(s, ino, [NewLock(req, s.next)] + s.files[ino], [], s.next + 1);
  }

  lemma FlockSearchInv(s: State, t: Pid, ino: Ino, req: FileLock, wait: bool, signal: bool, s': State)
    requires Inv(s) && t in s.tasks && s.tasks[t] == Running && ino in s.files
    requires FlockRequest(req) && FlockSearch(s, t, ino, req, wait, signal, s')
    ensures Inv(s')
  {
    var locks := s.files[ino];
    hide Inv, ListStep;
    InvList(s, ino);
    match SearchOutcome(locks, req)
    case Busy =>
    case Same =>
    case Absent =>
      if req.ltype != UnLck { FlockGrantInv(s, t, ino, req, wait, signal, s'); }
    case Change(k) =>
      EmptyIsFlock(locks);
      if req.ltype == UnLck {
        UnlockListStep(locks, k, s.next);
        UpdateInv(s, ino, RemoveAt(locks, k), locks[k].blocked, s.next);
      } else {
        DrainInv(s, t, ino, req, wait, k);
      }
  }

  lemma WaitingFacts(s: State, t: Pid)
    requires Inv(s) && t in s.tasks && s.tasks[t].Waiting?
    ensures var w := s.tasks[t];
            && (w.call == Setlkw ==> Request(w.req))
            && (w.call != FlockCall ==> w.req.kind == Posix && w.req.owner == Task(t) && w.req.ltype != UnLck)
            && (w.call == FlockCall ==> FlockRequest(w.req) && w.req.ltype != UnLck)
  {
  }

  lemma NextInv(s: State, step: Step, s': State)
    requires Inv(s) && Next(s, step, s')
    ensures Inv(s')
  {
    hide Inv, PosixTry, AccessTry, FlockGrant, FlockSearch, Request;
    match step
    case SetLk(t, ino, req, wait, signal) => PosixTryInv(s, t, ino, req, wait, signal, s');
    case ResumeSetLk(t, signal) =>
      WaitingFacts(s, t);
      UnblockInv(s, t);
      PosixTryInv(Unblock(s, t), t, s.tasks[t].ino, s.tasks[t].req, true, signal, s');
    case CheckAccess(t, ino, req, nonblock, signal) => AccessTryInv(s, t, ino, req, nonblock, signal, s');
    case ResumeAccess(t, signal, nonblock, modeChanged) =>
      WaitingFacts(s, t);
      UnblockInv(s, t);
      if !(signal || modeChanged) {
        AccessTryInv(Unblock(s, t), t, s.tasks[t].ino, s.tasks[t].req, nonblock, false, s');
      }
    case SetFlock(t, ino, req, wait, signal) => FlockSearchInv(s, t, ino, req, wait, signal, s');
    case ResumeFlock(t, signal) =>
      WaitingFacts(s, t);
      UnblockInv(s, t);
      FlockGrantInv(Unblock(s, t), t, s.tasks[t].ino, s.tasks[t].req, true, signal, s');
    case DrainWake(t) => WakeInv(s, s.tasks[t].dead.blocked[..1]);
    case DrainDone(t, signal) =>
      assert FlockRequest(s.tasks[t].want) by { DrainingFacts(s, t); }
      FreeInv(s, t);
      FlockSearchInv(s.(tasks := s.tasks[t := Running]), t, s.tasks[t].at, s.tasks[t].want,
                     s.tasks[t].wait, signal, s');
    case Signal(t) => WakeInv(s, [t]);
    case Close(t, ino, filp, last) =>
      InvList(s, ino);
      CloseListStep(s.files[ino], t, filp, last, s.next);
      var who := CloserOf(s.files[ino], t, filp, last);
      UpdateInv(s, ino, Remaining(s.files[ino], who), Dropped(s.files[ino], who), s.next);
  }

  lemma DrainingFacts(s: State, t: Pid)
    requires Inv(s) && t in s.tasks && s.tasks[t].Draining?
    ensures FlockRequest(s.tasks[t].want)
  {
  }

  // ---------- runs ----------

  ghost predicate Run(states: seq<State>, steps: seq<Step>) {
    && |states| == |steps| + 1 && Init(states[0])
    && forall i :: 0 <= i < |steps| ==> Next(states[i], steps[i], states[i + 1])
  }

  lemma InitInv(s: State)
    requires Init(s)
    ensures Inv(s)
  {
    assert forall l :: !Placed(s, l);
    assert WaitGraph(s) == map[];
    forall x ensures Ends(WaitGraph(s), x) { EndsStep(WaitGraph(s), x); }
  }

  lemma {:induction false} RunInv(states: seq<State>, steps: seq<Step>, i: nat)
    requires Run(states, steps) && i < |states|
    ensures Inv(states[i])
  {
    if i == 0 {
      InitInv(states[0]);
    } else {
      RunInv(states, steps, i - 1);
      NextInv(states[i - 1], steps[i - 1], states[i]);
    }
  }

  // ---------- what that means ----------

  /** All locks of a file are of one personality, and a write lock shares no byte with a lock of
      another owner (POSIX) or of another open file (FLOCK). */
  lemma LocksAreExclusive(states: seq<State>, steps: seq<Step>, n: nat, ino: Ino, i: nat, j: nat)
    requires Run(states, steps) && n < |states| && ino in states[n].files
    requires i < |states[n].files[ino]| && j < |states[n].files[ino]|
    ensures var k, l := states[n].files[ino][i], states[n].files[ino][j];
            && k.kind == l.kind
            && !Blocks(k, l)
  {
    RunInv(states, steps, n);
    InvList(states[n], ino);
    var locks := states[n].files[ino];
    var k, l := locks[i], locks[j];
    if !FlockList(locks) {
      assert WellFormed(k) && WellFormed(l);
      if PosixLocksConflict(l, k) {
        var b := if k.start < l.start then l.start else k.start;
        assert Covers(k, k.owner, k.ltype, b) && Covers(l, l.owner, l.ltype, b);
        assert Holds(locks, k.owner, k.ltype, b) && Holds(locks, l.owner, l.ltype, b);
      }
    }
  }

  /** The block lists never form a ring of waits. */
  lemma NeverDeadlocked(states: seq<State>, steps: seq<Step>, n: nat, x: Pid)
    requires Run(states, steps) && n < |states|
    ensures !OnCycle(WaitGraph(states[n]), x)
  {
    RunInv(states, steps, n);
    AcyclicMeansNoCycle(WaitGraph(states[n]));
  }

  /** A sleeping task that has not been woken is on exactly one block list, that of the lock it
      went to sleep on, which is still allocated and still in its way.  A task on no list has been
      woken, and so never looks at its blocker again. */
  lemma NoWaiterIsStranded(states: seq<State>, steps: seq<Step>, n: nat, x: Pid)
    requires Run(states, steps) && n < |states|
    requires x in states[n].tasks && states[n].tasks[x].Waiting?
    ensures var s := states[n];
            var w := s.tasks[x];
            && (!w.woken ==> exists l :: Placed(s, l) && x in l.blocked)
            && (forall l :: Placed(s, l) && x in l.blocked ==> l.id == w.blocker && Blocks(l, w.req))
            && (forall k, l :: Placed(s, k) && Placed(s, l) && x in k.blocked && x in l.blocked ==> k == l)
  {
    RunInv(states, steps, n);
    var s := states[n];
    forall l | Placed(s, l) && x in l.blocked ensures WaiterOk(s, l, x) {}
    forall k, l | Placed(s, k) && Placed(s, l) && k.id == l.id ensures k == l {
      SameIdSameLock(s, k, l);
    }
  }

  lemma SameIdSameLock(s: State, k: FileLock, l: FileLock)
    requires IdsOk(s) && Placed(s, k) && Placed(s, l) && k.id == l.id
    ensures k == l
  {
    if i :| InFile(s, i, k) {
      assert forall u :: !IsDead(s, u, l);
      var j :| InFile(s, j, l);
    } else {
      var t :| IsDead(s, t, k);
      assert forall j :: !InFile(s, j, l);
      var u :| IsDead(s, u, l);
    }
  }
}
