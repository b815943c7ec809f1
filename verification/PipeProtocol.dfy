/** Any number of readers and writers on one pipe (fs/pipe.c:30-125).

    The only places where a task can lose the processor are the sleeps before it takes PIPE_LOCK
    and the copies to and from user memory, so a chunk is two steps: the adjustment of START and
    LEN, and the copy.  PIPE_LOCK is held over both. */
module PipeProtocol {
  import opened Base
  import opened Pipe

  type Pid = nat

  /** `Reading` and `Writing` hold the lock; `chars` bytes at `at` have been taken from or reserved
      in the ring and not been copied yet.  A writer has put `done` bytes of `full` so far, and waits
      for `free` bytes of room before it takes the lock again. */
  datatype TaskState =
    | Idle
    | Reading(count: nat, at: nat, chars: nat)
    | WantWrite(call: nat, full: seq<byte>, done: nat, free: nat)
    | Writing(call: nat, full: seq<byte>, done: nat, at: nat, chars: nat)

  /** What one writer has put while it held the lock: `bytes` of `full`, from `base` on. */
  datatype Session = Session(call: nat, full: seq<byte>, base: nat, bytes: seq<byte>)

  /** `sessions` records the writes in the order in which the lock was taken, `read` the bytes that
      have reached a reader, in order. */
  datatype State = State(
    buf: seq<byte>, start: nat, len: nat, lock: nat, tasks: map<Pid, TaskState>,
    sessions: seq<Session>, read: seq<byte>, calls: nat)

  /** All bytes written so far. */
  function Flat(ss: seq<Session>): seq<byte> {
    if ss == [] then [] else Flat(ss[..|ss| - 1]) + ss[|ss| - 1].bytes
  }

  predicate Holding(ts: TaskState) { ts.Reading? || ts.Writing? }

  predicate Small(full: seq<byte>) { |full| <= PIPE_BUF }

  datatype Step =
    | ReadLock(t: Pid, count: nat)
    | ReadTake(t: Pid)
    | ReadCopy(t: Pid)
    | ReadUnlock(t: Pid)
    | WriteBegin(t: Pid, data: seq<byte>)
    | WriteGiveUp(t: Pid)
    | WriteLock(t: Pid)
    | WriteReserve(t: Pid)
    | WriteCopy(t: Pid)
    | WriteUnlock(t: Pid)

  predicate Shape(s: State) {
    |s.buf| == PIPE_BUF && s.start < PIPE_BUF && s.len <= PIPE_BUF
  }

  predicate Enabled(s: State, step: Step) {
    && Shape(s) && step.t in s.tasks
    && var ts := s.tasks[step.t];
       match step
       case ReadLock(_, _) => ts.Idle? && s.lock == 0 && s.len > 0
       case ReadTake(_) => ts.Reading? && ts.chars == 0 && ts.count > 0 && s.len > 0
       case ReadCopy(_) => ts.Reading? && ts.chars > 0 && ts.at + ts.chars <= PIPE_BUF
       case ReadUnlock(_) => ts.Reading? && ts.chars == 0 && (ts.count == 0 || s.len == 0) && s.lock > 0
       case WriteBegin(_, _) => ts.Idle?
       case WriteGiveUp(_) => ts.WantWrite?
       case WriteLock(_) => ts.WantWrite? && ts.done < |ts.full| && PIPE_BUF - s.len >= ts.free && s.lock == 0
       case WriteReserve(_) => ts.Writing? && ts.chars == 0 && ts.done < |ts.full| && s.len < PIPE_BUF
       case WriteCopy(_) =>
         && ts.Writing? && ts.chars > 0 && ts.done + ts.chars <= |ts.full| && ts.at + ts.chars <= PIPE_BUF
         && s.sessions != []
       case WriteUnlock(_) =>
         && ts.Writing? && ts.chars == 0 && ts.done <= |ts.full|
         && (ts.done == |ts.full| || s.len == PIPE_BUF) && s.lock > 0
  }

  function Do(s: State, step: Step): State
    requires Enabled(s, step)
  {
    var t, ts := step.t, s.tasks[step.t];
    match step
    case ReadLock(_, count) =>
      s.(lock := s.lock + 1, tasks := s.tasks[t := Reading(count, 0, 0)])
    case ReadTake(_) =>
      var chars := ReadChars(s.start, s.len, ts.count);
      s.(start := Wrap(s.start + chars), len := s.len - chars,
         tasks := s.tasks[t := Reading(ts.count - chars, s.start, chars)])
    case ReadCopy(_) =>
      s.(read := s.read + s.buf[ts.at..ts.at + ts.chars], tasks := s.tasks[t := Reading(ts.count, ts.at, 0)])
    case ReadUnlock(_) =>
      s.(lock := s.lock - 1, tasks := s.tasks[t := Idle])
    case WriteBegin(_, data) =>
      s.(calls := s.calls + 1,
         tasks := s.tasks[t := WantWrite(s.calls, data, 0, if Small(data) then |data| else 1)])
    case WriteGiveUp(_) =>
      s.(tasks := s.tasks[t := Idle])
    case WriteLock(_) =>
      s.(lock := s.lock + 1, sessions := s.sessions + [Session(ts.call, ts.full, ts.done, [])],
         tasks := s.tasks[t := Writing(ts.call, ts.full, ts.done, 0, 0)])
    case WriteReserve(_) =>
      var chars := WriteChars(s.start, s.len, |ts.full| - ts.done);
      s.(len := s.len + chars, tasks := s.tasks[t := Writing(ts.call, ts.full, ts.done, End(s.start, s.len), chars)])
    case WriteCopy(_) =>
      var chunk := ts.full[ts.done..ts.done + ts.chars];
      s.(buf := Stored(s.buf, ts.at, chunk), sessions := Grow(s.sessions, chunk),
         tasks := s.tasks[t := Writing(ts.call, ts.full, ts.done + ts.chars, ts.at, 0)])
    case WriteUnlock(_) =>
      s.(lock := s.lock - 1,
         tasks := s.tasks[t := if ts.done == |ts.full| then Idle else WantWrite(ts.call, ts.full, ts.done, 1)])
  }

  function Grow(ss: seq<Session>, chunk: seq<byte>): seq<Session>
    requires ss != []
  {
    ss[|ss| - 1 := ss[|ss| - 1].(bytes := ss[|ss| - 1].bytes + chunk)]
  }

  lemma FlatGrow(ss: seq<Session>, chunk: seq<byte>)
    requires ss != []
    ensures Flat(Grow(ss, chunk)) == Flat(ss) + chunk
  {
    assert Grow(ss, chunk)[..|ss| - 1] == ss[..|ss| - 1];
  }

  lemma FlatNew(ss: seq<Session>, call: nat, full: seq<byte>, base: nat)
    ensures Flat(ss + [Session(call, full, base, [])]) == Flat(ss)
  {
    assert (ss + [Session(call, full, base, [])])[..|ss|] == ss;
  }

  // ---------- invariant ----------

  /** PIPE_LOCK is 1 while one task holds it and 0 otherwise. */
  ghost predicate LockOk(s: State) {
    && (forall t, u :: t in s.tasks && u in s.tasks && Holding(s.tasks[t]) && Holding(s.tasks[u]) ==> t == u)
    && (if exists t :: t in s.tasks && Holding(s.tasks[t]) then s.lock == 1 else s.lock == 0)
  }

  /** Everything written has been read, is on its way to a reader, or is in the ring. */
  ghost predicate DataOk(s: State) {
    && Shape(s)
    && (s.lock == 0 ==> Flat(s.sessions) == s.read + Ring(s.buf, s.start, s.len))
    && (forall t :: t in s.tasks && s.tasks[t].Reading? ==> ReaderData(s, s.tasks[t]))
    && (forall t :: t in s.tasks && s.tasks[t].Writing? ==> WriterData(s, s.tasks[t]))
  }

  ghost predicate ReaderData(s: State, r: TaskState)
    requires Shape(s) && r.Reading?
  {
    && r.at + r.chars <= PIPE_BUF
    && Flat(s.sessions) == s.read + s.buf[r.at..r.at + r.chars] + Ring(s.buf, s.start, s.len)
  }

  ghost predicate WriterData(s: State, w: TaskState)
    requires Shape(s) && w.Writing?
  {
    && w.done + w.chars <= |w.full| && w.chars <= s.len
    && (w.chars > 0 ==> w.at == End(s.start, s.len - w.chars) && w.at + w.chars <= PIPE_BUF)
    && Flat(s.sessions) == s.read + Ring(s.buf, s.start, s.len - w.chars)
  }

  /** One session, in a list of `n` whose last may be unfinished if `open`: it holds what its name
      says, and a write of at most PIPE_BUF bytes is whole unless its writer is still at it. */
  ghost predicate SessionOk(x: Session, i: nat, n: nat, calls: nat, open: bool) {
    && x.base + |x.bytes| <= |x.full| && x.bytes == x.full[x.base..x.base + |x.bytes|]
    && x.call < calls
    && (Small(x.full) ==> x.base == 0)
    && (Small(x.full) && x.bytes != x.full ==> i == n - 1 && open)
  }

  ghost predicate SomeoneWrites(s: State) {
    exists t :: t in s.tasks && s.tasks[t].Writing?
  }

  ghost predicate SessionsOk(s: State) {
    && (forall i :: 0 <= i < |s.sessions| ==>
          SessionOk(s.sessions[i], i, |s.sessions|, s.calls, SomeoneWrites(s)))
    && (forall i, j :: 0 <= i < j < |s.sessions| && s.sessions[i].call == s.sessions[j].call ==>
          s.sessions[i].full == s.sessions[j].full && !Small(s.sessions[i].full))
  }

  ghost predicate WantsOk(s: State, w: TaskState)
    requires w.WantWrite?
  {
    && w.call < s.calls && w.done <= |w.full|
    && (Small(w.full) ==> w.done == 0 && w.free == |w.full|) && CallOk(s, w.call, w.full)
  }

  ghost predicate WritesOk(s: State, w: TaskState)
    requires w.Writing?
  {
    && w.call < s.calls && w.done <= |w.full| && InSession(s.sessions, w.call, w.full, w.done)
    && (Small(w.full) ==> |w.full| - w.done - w.chars <= PIPE_BUF - s.len)
  }

  ghost predicate WritersOk(s: State) {
    && (forall t :: t in s.tasks && s.tasks[t].WantWrite? ==> WantsOk(s, s.tasks[t]))
    && (forall t :: t in s.tasks && s.tasks[t].Writing? ==> WritesOk(s, s.tasks[t]))
    && (forall t, u :: t in s.tasks && u in s.tasks && t != u && Writer(s.tasks[t]) && Writer(s.tasks[u]) ==>
          s.tasks[t].call != s.tasks[u].call)
  }

  /** The last session is that of this write. */
  predicate InSession(ss: seq<Session>, call: nat, full: seq<byte>, done: nat) {
    && ss != []
    && var x := ss[|ss| - 1];
       x.call == call && x.full == full && x.base + |x.bytes| == done
  }

  predicate Writer(ts: TaskState) { ts.WantWrite? || ts.Writing? }

  /** Only a long write has had a session before. */
  ghost predicate CallOk(s: State, call: nat, full: seq<byte>) {
    forall i :: 0 <= i < |s.sessions| && s.sessions[i].call == call ==>
      s.sessions[i].full == full && !Small(full)
  }

  ghost predicate Inv(s: State) { LockOk(s) && DataOk(s) && SessionsOk(s) && WritersOk(s) }

  predicate Init(s: State) {
    && |s.buf| == PIPE_BUF && s.start == 0 && s.len == 0 && s.lock == 0
    && (forall t :: t in s.tasks ==> s.tasks[t] == Idle)
    && s.sessions == [] && s.read == [] && s.calls == 0
  }

  lemma InitInv(s: State)
    requires Init(s)
    ensures Inv(s)
  {
  }

  lemma LockStep(s: State, step: Step)
    requires Inv(s) && Enabled(s, step)
    ensures LockOk(Do(s, step))
  {
    hide DataOk, SessionsOk, WritersOk, Flat, Ring;
    var s' := Do(s, step);
    var t := step.t;
    assert Holding(s.tasks[t]) ==> s.lock == 1;
    assert forall u :: u != t ==> (u in s'.tasks <==> u in s.tasks) && (u in s.tasks ==> s'.tasks[u] == s.tasks[u]);
    if Holding(s'.tasks[t]) {
      assert s'.lock == 1;
    } else if Holding(s.tasks[t]) {
      assert s'.lock == 0;
    }
  }

  /** No task but `t` holds the lock after `t`'s step. */
  lemma OthersIdle(s: State, step: Step, u: Pid)
    requires LockOk(s) && Enabled(s, step) && u in s.tasks && u != step.t
    requires Holding(s.tasks[step.t]) || s.lock == 0
    ensures !Holding(s.tasks[u]) && Do(s, step).tasks[u] == s.tasks[u]
  {
  }

  lemma DataReadTake(s: State, t: Pid)
    requires Inv(s) && Enabled(s, ReadTake(t))
    ensures DataOk(Do(s, ReadTake(t)))
  {
    hide SessionsOk, WritersOk, Flat, Ring;
    var s', ts := Do(s, ReadTake(t)), s.tasks[t];
    forall u | u in s.tasks && u != t ensures !Holding(s.tasks[u]) && s'.tasks[u] == s.tasks[u] {
      OthersIdle(s, ReadTake(t), u);
    }
    var chars := ReadChars(s.start, s.len, ts.count);
    TakeChunk(s.buf, s.start, s.len, chars);
    assert s.buf[ts.at..ts.at + 0] == [] && s.read + [] == s.read;
    Assoc(s.read, s.buf[s.start..s.start + chars], Ring(s.buf, Wrap(s.start + chars), s.len - chars));
    assert s'.lock == 1 by { LockStep(s, ReadTake(t)); }
  }

  lemma DataStepReader(s: State, step: Step)
    requires Inv(s) && Enabled(s, step)
    requires step.ReadLock? || step.ReadCopy? || step.ReadUnlock?
    ensures DataOk(Do(s, step))
  {
    hide SessionsOk, WritersOk, Flat, Ring;
    var s', t, ts := Do(s, step), step.t, s.tasks[step.t];
    forall u | u in s.tasks && u != t ensures !Holding(s.tasks[u]) && s'.tasks[u] == s.tasks[u] {
      OthersIdle(s, step, u);
    }
    match step
    case ReadLock(_, _) =>
      assert s.buf[0..0] == [] && s.read + [] == s.read;
    case ReadCopy(_) =>
      assert s.buf[ts.at..ts.at + 0] == [] && s'.read + [] == s'.read;
      assert s'.lock == 1 by { LockStep(s, step); }
    case ReadUnlock(_) =>
      assert s.buf[ts.at..ts.at + 0] == [] && s.read + [] == s.read;
  }

  lemma DataWriteLock(s: State, t: Pid)
    requires Inv(s) && Enabled(s, WriteLock(t))
    ensures DataOk(Do(s, WriteLock(t)))
  {
    var s', ts := Do(s, WriteLock(t)), s.tasks[t];
    forall u | u in s.tasks && u != t ensures !Holding(s.tasks[u]) && s'.tasks[u] == s.tasks[u] {
      OthersIdle(s, WriteLock(t), u);
    }
    assert ts.done <= |ts.full|;
    hide SessionsOk, Ring, WritersOk, LockOk, Flat;
    FlatNew(s.sessions, ts.call, ts.full, ts.done);
  }

  lemma DataWriteReserve(s: State, t: Pid)
    requires Inv(s) && Enabled(s, WriteReserve(t))
    ensures DataOk(Do(s, WriteReserve(t)))
  {
    hide SessionsOk, Ring, WritersOk, LockOk, Flat;
    var s', ts := Do(s, WriteReserve(t)), s.tasks[t];
    forall u | u in s.tasks && u != t ensures !Holding(s.tasks[u]) && s'.tasks[u] == s.tasks[u] {
      OthersIdle(s, WriteReserve(t), u);
    }
    HolderLock(s, t);
    hide SessionsOk, Ring, WritersOk, LockOk, Flat;
  }

  lemma DataWriteCopy(s: State, t: Pid)
    requires Inv(s) && Enabled(s, WriteCopy(t))
    ensures DataOk(Do(s, WriteCopy(t)))
  {
    hide SessionsOk, Ring, WritersOk, LockOk, Flat, Stored, Grow;
    var s', ts := Do(s, WriteCopy(t)), s.tasks[t];
    forall u | u in s.tasks && u != t ensures !Holding(s.tasks[u]) && s'.tasks[u] == s.tasks[u] {
      OthersIdle(s, WriteCopy(t), u);
    }
    HolderLock(s, t);
    var chunk := ts.full[ts.done..ts.done + ts.chars];
    PutChunk(s.buf, s.start, s.len - ts.chars, chunk);
    FlatGrow(s.sessions, chunk);
    Assoc(s.read, Ring(s.buf, s.start, s.len - ts.chars), chunk);
    assert WriterData(s', s'.tasks[t]);
  }

  lemma DataWriteUnlock(s: State, t: Pid)
    requires Inv(s) && Enabled(s, WriteUnlock(t))
    ensures DataOk(Do(s, WriteUnlock(t)))
  {
    hide SessionsOk, Ring, WritersOk, LockOk, Flat;
    var s', ts := Do(s, WriteUnlock(t)), s.tasks[t];
    forall u | u in s.tasks && u != t ensures !Holding(s.tasks[u]) && s'.tasks[u] == s.tasks[u] {
      OthersIdle(s, WriteUnlock(t), u);
    }
    hide SessionsOk, Ring, WritersOk, LockOk, Flat;
  }

  lemma HolderLock(s: State, t: Pid)
    requires LockOk(s) && t in s.tasks && Holding(s.tasks[t])
    ensures s.lock == 1
  {
  }

  lemma DataStepOther(s: State, step: Step)
    requires Inv(s) && Enabled(s, step) && (step.WriteBegin? || step.WriteGiveUp?)
    ensures DataOk(Do(s, step))
  {
    hide SessionsOk, Ring, WritersOk, Flat, LockOk;
  }

  // ---------- sessions ----------

  /** A step that changes no session and lets no writer go. */
  lemma SessionsSame(s: State, step: Step)
    requires Inv(s) && Enabled(s, step) && !step.WriteLock? && !step.WriteCopy? && !step.WriteUnlock?
    ensures SessionsOk(Do(s, step))
  {
    hide DataOk, LockOk, WritersOk, Flat, Ring;
    var s' := Do(s, step);
    assert s'.sessions == s.sessions && s'.calls >= s.calls;
    assert SomeoneWrites(s) ==> SomeoneWrites(s') by {
      if t :| t in s.tasks && s.tasks[t].Writing? { assert s'.tasks[t].Writing?; }
    }
  }

  lemma SessionsLock(s: State, t: Pid)
    requires Inv(s) && Enabled(s, WriteLock(t))
    ensures SessionsOk(Do(s, WriteLock(t)))
  {
    var s', ts := Do(s, WriteLock(t)), s.tasks[t];
    assert !SomeoneWrites(s) by {
      assert forall u :: u in s.tasks ==> !Holding(s.tasks[u]);
    }
    assert WantsOk(s, ts);
    hide DataOk, LockOk, Flat, Ring, WritersOk;
    assert s'.tasks[t].Writing?;
    var n := |s.sessions|;
    assert s'.sessions[..n] == s.sessions;
    assert SessionOk(s'.sessions[n], n, n + 1, s.calls, SomeoneWrites(s'));
  }

  lemma GrownSession(x: Session, k: nat, calls: nat, chunk: seq<byte>)
    requires SessionOk(x, k, k + 1, calls, true)
    requires var done := x.base + |x.bytes|;
             done + |chunk| <= |x.full| && chunk == x.full[done..done + |chunk|]
    ensures SessionOk(x.(bytes := x.bytes + chunk), k, k + 1, calls, true)
  {
    var bytes := x.bytes + chunk;
    assert bytes == x.full[x.base..x.base + |bytes|];
  }

  lemma SessionsCopy(s: State, t: Pid)
    requires Inv(s) && Enabled(s, WriteCopy(t))
    ensures SessionsOk(Do(s, WriteCopy(t)))
  {
    hide DataOk, LockOk, Flat, Ring, Stored, SessionOk, Small;
    var s', ts := Do(s, WriteCopy(t)), s.tasks[t];
    assert WritesOk(s, ts);
    assert s'.tasks[t].Writing?;
    var k := |s.sessions| - 1;
    assert SomeoneWrites(s) && SomeoneWrites(s');
    assert SessionOk(s.sessions[k], k, k + 1, s.calls, SomeoneWrites(s));
    GrownSession(s.sessions[k], k, s.calls, ts.full[ts.done..ts.done + ts.chars]);
  }

  lemma SessionsUnlock(s: State, t: Pid)
    requires Inv(s) && Enabled(s, WriteUnlock(t))
    ensures SessionsOk(Do(s, WriteUnlock(t)))
  {
    var ts := s.tasks[t];
    assert WritesOk(s, ts);
    hide DataOk, LockOk, Flat, Ring, WritersOk;
    var k := |s.sessions| - 1;
    var x := s.sessions[k];
    assert SessionOk(x, k, k + 1, s.calls, SomeoneWrites(s));
    assert Small(x.full) ==> x.bytes == x.full by {
      if Small(x.full) { assert ts.done == |ts.full| && x.full[0..|x.full|] == x.full; }
    }
  }

  // ---------- writers ----------

  lemma WritersReader(s: State, step: Step)
    requires Inv(s) && Enabled(s, step)
    requires step.ReadLock? || step.ReadTake? || step.ReadCopy? || step.ReadUnlock?
    ensures WritersOk(Do(s, step))
  {
    hide DataOk, SessionsOk, LockOk, Flat, Ring;
    var s' := Do(s, step);
    assert s'.sessions == s.sessions && s'.calls == s.calls && s'.len <= s.len;
    forall u | u in s'.tasks && s'.tasks[u].WantWrite? ensures WantsOk(s', s'.tasks[u]) {
      assert WantsOk(s, s.tasks[u]);
    }
    forall u | u in s'.tasks && s'.tasks[u].Writing? ensures WritesOk(s', s'.tasks[u]) {
      assert WritesOk(s, s.tasks[u]);
    }
  }

  lemma WritersOther(s: State, step: Step)
    requires Inv(s) && Enabled(s, step) && (step.WriteBegin? || step.WriteGiveUp?)
    ensures WritersOk(Do(s, step))
  {
    hide DataOk, LockOk, Flat, Ring;
    var s' := Do(s, step);
    assert s'.sessions == s.sessions && s'.calls >= s.calls && s'.len == s.len;
    forall i | 0 <= i < |s.sessions| ensures s.sessions[i].call < s.calls {
      assert SessionOk(s.sessions[i], i, |s.sessions|, s.calls, SomeoneWrites(s));
    }
    hide SessionsOk;
    forall u | u in s'.tasks && s'.tasks[u].WantWrite? ensures WantsOk(s', s'.tasks[u]) {
      if u != step.t { assert WantsOk(s, s.tasks[u]); }
    }
    forall u | u in s'.tasks && s'.tasks[u].Writing? ensures WritesOk(s', s'.tasks[u]) {
      assert WritesOk(s, s.tasks[u]);
    }
    forall u | u in s.tasks && Writer(s.tasks[u]) ensures s.tasks[u].call < s.calls {
      assert s.tasks[u].WantWrite? ==> WantsOk(s, s.tasks[u]);
      assert s.tasks[u].Writing? ==> WritesOk(s, s.tasks[u]);
    }
  }

  lemma WritersLock(s: State, t: Pid)
    requires Inv(s) && Enabled(s, WriteLock(t))
    ensures WritersOk(Do(s, WriteLock(t)))
  {
    var s', ts := Do(s, WriteLock(t)), s.tasks[t];
    forall u | u in s.tasks ensures !Holding(s.tasks[u]) {}
    hide DataOk, SessionsOk, LockOk, Flat, Ring;
    assert WantsOk(s, ts);
    forall u | u in s'.tasks && s'.tasks[u].WantWrite? ensures WantsOk(s', s'.tasks[u]) {
      assert WantsOk(s, s.tasks[u]) && s.tasks[u].call != ts.call;
    }
    assert WritesOk(s', s'.tasks[t]);
  }

  lemma WritersReserve(s: State, t: Pid)
    requires Inv(s) && Enabled(s, WriteReserve(t))
    ensures WritersOk(Do(s, WriteReserve(t)))
  {
    var s', ts := Do(s, WriteReserve(t)), s.tasks[t];
    forall u | u in s.tasks && u != t ensures !Holding(s.tasks[u]) {}
    hide DataOk, SessionsOk, LockOk, Flat, Ring;
    assert WritesOk(s, ts);
    forall u | u in s'.tasks && s'.tasks[u].WantWrite? ensures WantsOk(s', s'.tasks[u]) {
      assert WantsOk(s, s.tasks[u]);
    }
    assert WritesOk(s', s'.tasks[t]);
  }

  lemma WritersCopy(s: State, t: Pid)
    requires Inv(s) && Enabled(s, WriteCopy(t))
    ensures WritersOk(Do(s, WriteCopy(t)))
  {
    var s', ts := Do(s, WriteCopy(t)), s.tasks[t];
    forall u | u in s.tasks && u != t ensures !Holding(s.tasks[u]) {}
    hide DataOk, SessionsOk, LockOk, Flat, Ring, Stored;
    assert WritesOk(s, ts);
    forall u | u in s'.tasks && s'.tasks[u].WantWrite? ensures WantsOk(s', s'.tasks[u]) {
      assert WantsOk(s, s.tasks[u]) && s.tasks[u].call != ts.call;
    }
    assert WritesOk(s', s'.tasks[t]);
  }

  lemma LongCall(s: State, t: Pid)
    requires Inv(s) && t in s.tasks && s.tasks[t].Writing? && !Small(s.tasks[t].full)
    ensures CallOk(s, s.tasks[t].call, s.tasks[t].full)
  {
    hide DataOk, LockOk;
    assert WritesOk(s, s.tasks[t]);
    var k := |s.sessions| - 1;
    assert forall i :: 0 <= i < k && s.sessions[i].call == s.sessions[k].call ==>
      s.sessions[i].full == s.sessions[k].full;
  }

  lemma OnlyHolder(s: State, t: Pid)
    requires Inv(s) && t in s.tasks && Holding(s.tasks[t])
    ensures forall u :: u in s.tasks && u != t ==> !Holding(s.tasks[u])
  {
    hide DataOk, SessionsOk, WritersOk;
  }

  lemma WritersUnlock(s: State, t: Pid)
    requires Inv(s) && Enabled(s, WriteUnlock(t))
    ensures WritersOk(Do(s, WriteUnlock(t)))
  {
    hide DataOk, LockOk, SessionsOk, Flat, Ring;
    var s', ts := Do(s, WriteUnlock(t)), s.tasks[t];
    OnlyHolder(s, t);
    assert WritesOk(s, ts);
    if !Small(ts.full) { LongCall(s, t); }
    forall u | u in s'.tasks && s'.tasks[u].WantWrite? ensures WantsOk(s', s'.tasks[u]) {
      if u != t { assert WantsOk(s, s.tasks[u]); }
    }
  }

  // ---------- every step, every run ----------

  lemma StepInv(s: State, step: Step)
    requires Inv(s) && Enabled(s, step)
    ensures Inv(Do(s, step))
  {
    LockStep(s, step);
    hide LockOk, DataOk, SessionsOk, WritersOk, Do, Enabled;
    match step
    case WriteLock(t) => DataWriteLock(s, t); SessionsLock(s, t); WritersLock(s, t);
    case WriteReserve(t) => DataWriteReserve(s, t); SessionsSame(s, step); WritersReserve(s, t);
    case WriteCopy(t) => DataWriteCopy(s, t); SessionsCopy(s, t); WritersCopy(s, t);
    case WriteUnlock(t) => DataWriteUnlock(s, t); SessionsUnlock(s, t); WritersUnlock(s, t);
    case WriteBegin(_, _) => DataStepOther(s, step); SessionsSame(s, step); WritersOther(s, step);
    case WriteGiveUp(_) => DataStepOther(s, step); SessionsSame(s, step); WritersOther(s, step);
    case ReadTake(t) => DataReadTake(s, t); SessionsSame(s, step); WritersReader(s, step);
    case _ => DataStepReader(s, step); SessionsSame(s, step); WritersReader(s, step);
  }

  ghost predicate Run(states: seq<State>, steps: seq<Step>) {
    && |states| == |steps| + 1 && Init(states[0])
    && forall k :: 0 <= k < |steps| ==>
         Enabled(states[k], steps[k]) && states[k + 1] == Do(states[k], steps[k])
  }

  lemma {:induction false} RunInv(states: seq<State>, steps: seq<Step>, k: nat)
    requires Run(states, steps) && k < |states|
    ensures Inv(states[k])
  {
    hide Inv, Do, Enabled;
    if k == 0 {
      InitInv(states[0]);
    } else {
      RunInv(states, steps, k - 1);
      StepInv(states[k - 1], steps[k - 1]);
    }
  }

  /** The bytes read are always a prefix of the bytes written, and a pipe nobody is using still holds
      exactly the rest. */
  lemma ReadsArePrefix(states: seq<State>, steps: seq<Step>, k: nat)
    requires Run(states, steps) && k < |states|
    ensures var s := states[k];
            && Shape(s) && s.lock <= 1
            && s.read <= Flat(s.sessions)
            && (s.lock == 0 ==> Flat(s.sessions) == s.read + Ring(s.buf, s.start, s.len))
  {
    RunInv(states, steps, k);
    var s := states[k];
    if s.lock != 0 {
      var t :| t in s.tasks && Holding(s.tasks[t]);
      assert s.tasks[t].Reading? || s.tasks[t].Writing?;
    }
  }

  /** A write of at most PIPE_BUF bytes is in the pipe as one piece or not at all: it has at most one
      session, and that session is the whole write unless its writer holds the lock at this moment. */
  lemma SmallWritesAreAtomic(states: seq<State>, steps: seq<Step>, k: nat, i: nat)
    requires Run(states, steps) && k < |states| && i < |states[k].sessions|
    requires Small(states[k].sessions[i].full)
    ensures var s := states[k];
            var x := s.sessions[i];
            && (x.bytes == x.full || (i == |s.sessions| - 1 && s.lock == 1))
            && forall j :: 0 <= j < |s.sessions| && s.sessions[j].call == x.call ==> j == i
  {
    RunInv(states, steps, k);
    var s := states[k];
    var x := s.sessions[i];
    assert SessionOk(x, i, |s.sessions|, s.calls, SomeoneWrites(s));
    if x.bytes != x.full {
      var t :| t in s.tasks && s.tasks[t].Writing?;
      HolderLock(s, t);
    }
    assert forall j :: 0 <= j < i ==> s.sessions[j].call != x.call;
  }
}
