/** The lock records of fs/locks.c, the tests that decide whether one lock blocks
    another, and the canonical form of a file's list of POSIX locks.

    Offsets are mathematical integers.  The places where a 32-bit `off_t` wraps
    are written out with `Wrap32`. */
module LockTypes {

  type Pid = nat

  const OFFSET_MAX: int := 0x7fff_ffff

  datatype LockType = RdLck | WrLck | UnLck

  datatype Personality = Posix | Flock

  /** The task a lock belongs to.  FLOCK locks belong to an open file and have no task. */
  datatype Owner = NoTask | Task(pid: Pid)

  /** One `struct file_lock`.  `id` stands for its address; `blocked` is its block
      list in the order in which the tasks went to sleep. */
  datatype FileLock = FileLock(
    id: nat,
    kind: Personality,
    owner: Owner,
    filp: nat,
    ltype: LockType,
    start: int,
    end: int,
    blocked: seq<Pid>)

  /** Value of a 32-bit signed integer after wrap-around. */
  function Wrap32(x: int): int {
    (x + 0x8000_0000) % 0x1_0000_0000 - 0x8000_0000
  }

  // ---------- conflict tests ----------

  predicate LocksOverlap(a: FileLock, b: FileLock) {
    a.end >= b.start && b.end >= a.start
  }

  predicate LocksConflict(caller: FileLock, sys: FileLock) {
    LocksOverlap(caller, sys) &&
    match caller.ltype
    case RdLck => sys.ltype == WrLck
    case WrLck => true
    case UnLck => false
  }

  predicate PosixLocksConflict(caller: FileLock, sys: FileLock) {
    caller.owner != sys.owner && LocksConflict(caller, sys)
  }

  predicate FlockLocksConflict(caller: FileLock, sys: FileLock) {
    caller.filp != sys.filp && LocksConflict(caller, sys)
  }

  /** The test that put a waiter of this personality to sleep. */
  predicate Blocks(sys: FileLock, waiter: FileLock) {
    if sys.kind == Posix then PosixLocksConflict(waiter, sys) else FlockLocksConflict(waiter, sys)
  }

  // ---------- what a list of POSIX locks means ----------

  /** `l` gives `owner` a lock of type `ty` on byte `b`. */
  predicate Covers(l: FileLock, owner: Owner, ty: LockType, b: int) {
    l.owner == owner && l.ltype == ty && l.start <= b <= l.end
  }

  /** The abstract lock map: `owner` holds type `ty` on byte `b`. */
  predicate Holds(locks: seq<FileLock>, owner: Owner, ty: LockType, b: int) {
    exists i :: 0 <= i < |locks| && Covers(locks[i], owner, ty, b)
  }

  predicate WellFormed(l: FileLock) {
    && l.kind == Posix && l.owner.Task? && l.ltype != UnLck
    && 0 <= l.start <= l.end <= OFFSET_MAX
  }

  /** `x` lies below `y`, and leaves a gap when the types agree. */
  predicate Before(x: FileLock, y: FileLock) {
    && x.end < y.start
    && (x.ltype == y.ltype ==> x.end + 1 < y.start)
  }

  /** One owner's locks: sorted, disjoint, and never touching when of equal type. */
  predicate Ordered(locks: seq<FileLock>) {
    forall i, j {:trigger Before(locks[i], locks[j])} ::
      0 <= i < j < |locks| ==> Before(locks[i], locks[j])
  }

  predicate AllWellFormed(locks: seq<FileLock>) {
    forall i :: 0 <= i < |locks| ==> WellFormed(locks[i])
  }

  /** The form every POSIX lock list keeps: the locks of one owner are contiguous in
      the list and ordered among themselves. */
  predicate Canonical(locks: seq<FileLock>) {
    && AllWellFormed(locks)
    && (forall i, j :: 0 <= i < j < |locks| && locks[i].owner == locks[j].owner ==>
          Before(locks[i], locks[j]))
    && (forall i, j, k :: 0 <= i < j < k < |locks| && locks[i].owner == locks[k].owner ==>
          locks[j].owner == locks[i].owner)
  }

  predicate DistinctIds(locks: seq<FileLock>) {
    forall i, j :: 0 <= i < j < |locks| ==> locks[i].id != locks[j].id
  }

  ghost function Ids(locks: seq<FileLock>): set<nat> {
    set i | 0 <= i < |locks| :: locks[i].id
  }

  ghost function SetOf(s: seq<Pid>): set<Pid> { set x | x in s }

  /** The tasks asleep on some lock of the list. */
  ghost function Sleepers(locks: seq<FileLock>): set<Pid> {
    if locks == [] then {} else SetOf(locks[0].blocked) + Sleepers(locks[1..])
  }

  /** `l` still blocks everyone it blocked as `was`: same lock, same type, no smaller. */
  predicate GrownFrom(l: FileLock, was: FileLock) {
    && l.id == was.id && l.kind == was.kind && l.owner == was.owner && l.filp == was.filp
    && l.ltype == was.ltype && l.start <= was.start && was.end <= l.end
    && l.blocked == was.blocked
  }

  /** A lock of `after` with a non-empty block list is a grown lock of `before`. */
  predicate WaitersKept(before: seq<FileLock>, after: seq<FileLock>) {
    forall i :: 0 <= i < |after| && after[i].blocked != [] ==>
      exists k :: 0 <= k < |before| && GrownFrom(after[i], before[k])
  }

  // ---------- facts about the tests ----------

  /** A lock blocks a request exactly when the request would block the lock, whichever
      of the two argument orders the source uses. */
  lemma ConflictIsSymmetric(a: FileLock, b: FileLock)
    requires a.ltype != UnLck && b.ltype != UnLck
    ensures PosixLocksConflict(a, b) == PosixLocksConflict(b, a)
    ensures FlockLocksConflict(a, b) == FlockLocksConflict(b, a)
  {
  }

  /** Growth never releases a waiter: what blocked it before blocks it still. */
  lemma GrowthKeepsBlocking(l: FileLock, was: FileLock, waiter: FileLock)
    requires GrownFrom(l, was) && Blocks(was, waiter)
    ensures Blocks(l, waiter)
  {
  }

  lemma HoldsConcat(a: seq<FileLock>, b: seq<FileLock>, owner: Owner, ty: LockType, x: int)
    ensures Holds(a + b, owner, ty, x) <==> Holds(a, owner, ty, x) || Holds(b, owner, ty, x)
  {
    if Holds(a, owner, ty, x) {
      var i :| 0 <= i < |a| && Covers(a[i], owner, ty, x);
      assert (a + b)[i] == a[i];
    }
    if Holds(b, owner, ty, x) {
      var i :| 0 <= i < |b| && Covers(b[i], owner, ty, x);
      assert (a + b)[|a| + i] == b[i];
    }
  }

  lemma {:induction false} SleepersConcat(a: seq<FileLock>, b: seq<FileLock>)
    ensures Sleepers(a + b) == Sleepers(a) + Sleepers(b)
  {
    if a == [] {
      assert a + b == b;
    } else {
      assert (a + b)[1..] == a[1..] + b;
      SleepersConcat(a[1..], b);
    }
  }

  lemma SetOfConcat(a: seq<Pid>, b: seq<Pid>)
    ensures SetOf(a + b) == SetOf(a) + SetOf(b)
  {
  }

  lemma {:induction false} SleepersMember(locks: seq<FileLock>, p: Pid)
    ensures p in Sleepers(locks) <==> exists i :: 0 <= i < |locks| && p in locks[i].blocked
  {
    if locks != [] {
      SleepersMember(locks[1..], p);
      if p in Sleepers(locks[1..]) {
        var i :| 0 <= i < |locks[1..]| && p in locks[1..][i].blocked;
        assert p in locks[i + 1].blocked;
      }
      if exists i :: 0 <= i < |locks| && p in locks[i].blocked {
        var i :| 0 <= i < |locks| && p in locks[i].blocked;
        assert i > 0 ==> locks[i] == locks[1..][i - 1];
      }
    }
  }
}
