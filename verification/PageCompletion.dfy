/** Every order and interleaving of I/O completions on a page (fs/buffer.c:1242-1330).

    A completion of buffer `b` is four atomic steps: `mark_buffer_uptodate`, `unlock_buffer` up to
    the section with interrupts disabled, that section, and, for the completion that found all
    buffers done, the unlocking of the page.  Steps of different buffers interleave freely. */
module PageCompletion {
  import opened PageIo

  datatype Phase = Pending | AfterMark | AfterCheck | Last | Done

  datatype First = NoneYet | FirstOk | FirstFailed

  datatype Step = Mark(b: nat, ok: bool) | Check(b: nat) | Decrement(b: nat) | Release(b: nat)

  /** `ok[b]` is the result of the transfer once it is known, `first` the result of the first
      completion, `freed` the buffers whose completion freed the ring, and `whoops` is set by the
      branches that report a corrupted state. */
  datatype State = State(
    io: Io, phase: seq<Phase>, ok: seq<bool>, first: First, freed: seq<nat>, whoops: bool)

  datatype Config = Config(n: nat, read: bool, submit: seq<bool>)

  predicate ConfigOk(c: Config) {
    && c.n > 0 && |c.submit| == c.n
    && exists b :: 0 <= b < c.n && c.submit[b]
  }

  function Start(c: Config): State
    requires ConfigOk(c)
  {
    State(Begun(c.n, c.read, c.submit, []),
          seq(c.n, i requires 0 <= i < c.n => if c.submit[i] then Pending else Done),
          seq(c.n, i => true), NoneYet, [], false)
  }

  predicate Shape(c: Config, s: State) {
    Shaped(s.io, c.n) && |s.phase| == |s.ok| == |c.submit| == c.n
  }

  predicate Enabled(c: Config, s: State, step: Step) {
    && Shape(c, s) && step.b < c.n
    && match step
       case Mark(b, _) => s.phase[b] == Pending
       case Check(b) => s.phase[b] == AfterMark
       case Decrement(b) => s.phase[b] == AfterCheck && s.io.count[b] > 0
       case Release(b) => s.phase[b] == Last
  }

  function Do(c: Config, s: State, step: Step): State
    requires Enabled(c, s, step)
  {
    match step
    case Mark(b, ok) =>
      s.(io := Marked(s.io, b, ok), phase := s.phase[b := AfterMark], ok := s.ok[b := ok],
         first := if s.first != NoneYet then s.first else if ok then FirstOk else FirstFailed)
    case Check(b) =>
      var (io, r) := Checked(s.io, b);
      s.(io := io, phase := s.phase[b := if r == Proceed then AfterCheck else Done],
         whoops := s.whoops || r != Proceed)
    case Decrement(b) =>
      var (io, last) := Decremented(s.io, b, c.n);
      s.(io := io, phase := s.phase[b := if last then Last else Done],
         freed := if last then s.freed + [b] else s.freed,
         whoops := s.whoops || (last && !AllTrue(s.io.freeOnIo)))
    case Release(b) =>
      s.(io := s.io.(pgLocked := false), phase := s.phase[b := Done])
  }

  predicate Outstanding(p: Phase) { p == Pending || p == AfterMark || p == AfterCheck }

  ghost predicate Busy(s: State) {
    exists i :: 0 <= i < |s.phase| && Outstanding(s.phase[i])
  }

  /** Bookkeeping of counts and locks. */
  ghost predicate Counts(c: Config, s: State) {
    && Shape(c, s) && !s.whoops
    && (forall i :: 0 <= i < c.n ==>
          && s.io.count[i] == (if Outstanding(s.phase[i]) then 1 else 0)
          && (s.io.lock[i] <==> s.phase[i] == Pending || s.phase[i] == AfterMark)
          && (Outstanding(s.phase[i]) ==> c.submit[i]))
  }

  /** The ring is freed once, by the completion that leaves nothing outstanding, and that
      completion unlocks the page. */
  ghost predicate Ownership(c: Config, s: State) {
    && Shape(c, s) && |s.freed| <= 1
    && (s.freed == [] <==> Busy(s))
    && (forall i :: 0 <= i < c.n ==>
          && (s.io.freeOnIo[i] <==> s.freed == [])
          && (s.phase[i] == Last ==> s.freed == [i]))
    && (if s.freed == [] then s.io.reuse == [] && s.io.pgLocked
        else s.freed[0] < c.n && s.io.reuse == Pushed(s.freed[0], c.n, c.n, []) &&
             (s.io.pgLocked <==> s.phase[s.freed[0]] == Last))
  }

  /** A failure that `unlock_buffer` has seen. */
  ghost predicate FailureSeen(s: State)
    requires |s.ok| == |s.phase|
  {
    exists i :: 0 <= i < |s.phase| && !s.ok[i] && s.phase[i] != Pending && s.phase[i] != AfterMark
  }

  ghost predicate Failure(s: State)
    requires |s.ok| == |s.phase|
  {
    exists i :: 0 <= i < |s.phase| && !s.ok[i]
  }

  /** What the flags say, for reads and for writes. */
  ghost predicate Flags(c: Config, s: State) {
    && Shape(c, s)
    && (forall i :: 0 <= i < c.n ==>
          && s.io.uptodate[i] == (if s.phase[i] == Pending then !c.read else s.ok[i])
          && (s.phase[i] == Pending || !c.submit[i] ==> s.ok[i]))
    && (s.io.pgError <==> FailureSeen(s))
    && (c.read ==> (s.io.pgUptodate <==> AllTrue(s.io.uptodate)))
    && (!c.read ==> (s.io.pgUptodate <==> s.first == FirstOk))
    && (s.first == NoneYet ==> !Failure(s))
    && (s.first == FirstFailed ==> Failure(s))
  }

  ghost predicate Inv(c: Config, s: State) { Counts(c, s) && Ownership(c, s) && Flags(c, s) }

  lemma StartInv(c: Config)
    requires ConfigOk(c)
    ensures Inv(c, Start(c))
  {
    var s := Start(c);
    var b :| 0 <= b < c.n && c.submit[b];
    assert Outstanding(s.phase[b]);
    assert c.read ==> !s.io.uptodate[b];
  }

  // ---------- marking ----------

  lemma MarkInv(c: Config, s: State, b: nat, ok: bool)
    requires Inv(c, s) && Enabled(c, s, Mark(b, ok))
    ensures Inv(c, Do(c, s, Mark(b, ok)))
  {
    var s' := Do(c, s, Mark(b, ok));
    assert Outstanding(s.phase[b]) && Outstanding(s'.phase[b]);
    assert Counts(c, s') && Ownership(c, s');
    MarkFlags(c, s, b, ok);
  }

  lemma MarkFlags(c: Config, s: State, b: nat, ok: bool)
    requires Inv(c, s) && Enabled(c, s, Mark(b, ok))
    ensures Flags(c, Do(c, s, Mark(b, ok)))
  {
    hide Counts, Ownership;
    MarkFacts(c, s, b, ok);
    var s' := Do(c, s, Mark(b, ok));
    assert s'.phase[b] == AfterMark && s'.ok[b] == ok;
    assert FailureSeen(s') <==> FailureSeen(s) by { SameFailures(s, s', b); }
    MarkFailure(c, s, b, ok);
    assert s'.io.uptodate[b] == ok;
    assert !c.read && !Failure(s) && ok ==> AllTrue(s'.io.uptodate);
    assert !c.read && Failure(s) ==> !AllTrue(s'.io.uptodate) by {
      if !c.read && Failure(s) {
        var i :| 0 <= i < |s.phase| && !s.ok[i];
        assert !s'.io.uptodate[i];
      }
    }
  }

  lemma MarkFacts(c: Config, s: State, b: nat, ok: bool)
    requires Inv(c, s) && Enabled(c, s, Mark(b, ok))
    ensures Outstanding(s.phase[b]) && c.submit[b] && (c.read ==> !s.io.uptodate[b])
  {
    assert Outstanding(s.phase[b]) && c.submit[b];
  }

  lemma SameFailures(s: State, s': State, b: nat)
    requires |s.ok| == |s.phase| == |s'.ok| == |s'.phase| && b < |s.phase|
    requires forall i :: 0 <= i < |s.phase| && i != b ==> s.ok[i] == s'.ok[i] && s.phase[i] == s'.phase[i]
    requires s.phase[b] == Pending && s'.phase[b] == AfterMark
    ensures FailureSeen(s) <==> FailureSeen(s')
  {
  }

  lemma MarkFailure(c: Config, s: State, b: nat, ok: bool)
    requires Flags(c, s) && Enabled(c, s, Mark(b, ok))
    ensures Failure(Do(c, s, Mark(b, ok))) <==> Failure(s) || !ok
  {
    var s' := Do(c, s, Mark(b, ok));
    if Failure(s) {
      var i :| 0 <= i < |s.phase| && !s.ok[i];
      assert !s'.ok[i];
    }
    if !ok { assert !s'.ok[b]; }
  }

  // ---------- checking ----------

  lemma CheckInv(c: Config, s: State, b: nat)
    requires Inv(c, s) && Enabled(c, s, Check(b))
    ensures Inv(c, Do(c, s, Check(b)))
    ensures Checked(s.io, b).1 == Proceed
  {
    var s' := Do(c, s, Check(b));
    assert Outstanding(s.phase[b]);
    assert Checked(s.io, b).1 == Proceed;
    assert Outstanding(s'.phase[b]);
    assert Counts(c, s') && Ownership(c, s');
    assert FailureSeen(s') <==> FailureSeen(s) || !s.ok[b] by { CheckFailure(s, s', b); }
  }

  lemma CheckFailure(s: State, s': State, b: nat)
    requires |s.ok| == |s.phase| && s'.ok == s.ok && b < |s.phase|
    requires s.phase[b] == AfterMark && s'.phase == s.phase[b := AfterCheck]
    ensures FailureSeen(s') <==> FailureSeen(s) || !s.ok[b]
  {
    if FailureSeen(s) {
      var i :| 0 <= i < |s.phase| && !s.ok[i] && s.phase[i] != Pending && s.phase[i] != AfterMark;
      assert !s'.ok[i] && s'.phase[i] != Pending && s'.phase[i] != AfterMark;
    }
    if !s.ok[b] { assert s'.phase[b] == AfterCheck; }
  }

  // ---------- decrementing ----------

  /** The decrement that frees the ring is the one that leaves nothing outstanding. */
  lemma DecrementLast(c: Config, s: State, b: nat)
    requires Inv(c, s) && Enabled(c, s, Decrement(b))
    ensures s.freed == [] && AllTrue(s.io.freeOnIo)
    ensures Decremented(s.io, b, c.n).1 <==>
            forall i :: 0 <= i < c.n && i != b ==> !Outstanding(s.phase[i])
  {
    assert Outstanding(s.phase[b]) && Busy(s);
    var count := s.io.count[b := s.io.count[b] - 1];
    assert forall i :: 0 <= i < c.n ==> (count[i] == 0 <==> i == b || !Outstanding(s.phase[i]));
  }

  lemma DecrementInv(c: Config, s: State, b: nat)
    requires Inv(c, s) && Enabled(c, s, Decrement(b))
    ensures Inv(c, Do(c, s, Decrement(b)))
  {
    hide Flags, Ownership, Counts;
    DecrementOwnership(c, s, b);
    DecrementFlags(c, s, b);
    DecrementCounts(c, s, b);
  }

  lemma DecrementCounts(c: Config, s: State, b: nat)
    requires Inv(c, s) && Enabled(c, s, Decrement(b))
    ensures Counts(c, Do(c, s, Decrement(b)))
  {
    hide Flags, Ownership, Pushed;
    DecrementLast(c, s, b);
  }

  lemma DecrementOwnership(c: Config, s: State, b: nat)
    requires Inv(c, s) && Enabled(c, s, Decrement(b))
    ensures Ownership(c, Do(c, s, Decrement(b)))
  {
    var s' := Do(c, s, Decrement(b));
    DecrementLast(c, s, b);
    hide Flags, Counts;
    if !Decremented(s.io, b, c.n).1 {
      var i :| 0 <= i < c.n && i != b && Outstanding(s.phase[i]);
      assert Outstanding(s'.phase[i]);
      assert Busy(s');
    } else {
      assert !Busy(s');
    }
  }

  lemma DecrementFlags(c: Config, s: State, b: nat)
    requires Inv(c, s) && Enabled(c, s, Decrement(b))
    ensures Flags(c, Do(c, s, Decrement(b)))
  {
    hide Counts, Ownership;
    var s' := Do(c, s, Decrement(b));
    DoneFailure(s, s', b);
    assert Failure(s') <==> Failure(s);
  }

  lemma DoneFailure(s: State, s': State, b: nat)
    requires |s.ok| == |s.phase| && s'.ok == s.ok && b < |s.phase|
    requires s.phase[b] == AfterCheck || s.phase[b] == Last
    requires s'.phase == s.phase[b := Done] || s'.phase == s.phase[b := Last]
    ensures FailureSeen(s') <==> FailureSeen(s)
  {
    assert forall i :: 0 <= i < |s.phase| ==>
      (s.phase[i] != Pending && s.phase[i] != AfterMark <==> s'.phase[i] != Pending && s'.phase[i] != AfterMark);
  }

  // ---------- unlocking the page ----------

  lemma ReleaseInv(c: Config, s: State, b: nat)
    requires Inv(c, s) && Enabled(c, s, Release(b))
    ensures Inv(c, Do(c, s, Release(b)))
  {
    var s' := Do(c, s, Release(b));
    assert s.freed == [b] && !Busy(s);
    assert forall i :: 0 <= i < c.n ==> !Outstanding(s.phase[i]);
    assert !Busy(s');
    assert Counts(c, s') && Ownership(c, s');
    assert FailureSeen(s') <==> FailureSeen(s) by { DoneFailure(s, s', b); }
    assert Failure(s') <==> Failure(s);
  }

  lemma StepInv(c: Config, s: State, step: Step)
    requires Inv(c, s) && Enabled(c, s, step)
    ensures Inv(c, Do(c, s, step))
  {
    hide Inv;
    match step
    case Mark(b, ok) => MarkInv(c, s, b, ok);
    case Check(b) => CheckInv(c, s, b);
    case Decrement(b) => DecrementInv(c, s, b);
    case Release(b) => ReleaseInv(c, s, b);
  }

  // ---------- runs ----------

  /** `states` is what the completions in `steps` do to a page that `brw_page` has submitted. */
  ghost predicate Run(c: Config, states: seq<State>, steps: seq<Step>) {
    && ConfigOk(c) && |states| == |steps| + 1 && states[0] == Start(c)
    && forall k :: 0 <= k < |steps| ==>
         Enabled(c, states[k], steps[k]) && states[k + 1] == Do(c, states[k], steps[k])
  }

  lemma {:induction false} RunInv(c: Config, states: seq<State>, steps: seq<Step>, k: nat)
    requires Run(c, states, steps) && k < |states|
    ensures Inv(c, states[k])
  {
    if k == 0 {
      StartInv(c);
    } else {
      RunInv(c, states, steps, k - 1);
      StepInv(c, states[k - 1], steps[k - 1]);
    }
  }

  /** No completion ever reports a corrupted state, a buffer still outstanding holds the page locked
      and the reuse list empty, and one that proceeds past the checks finds its count at 1. */
  lemma NoWhoops(c: Config, states: seq<State>, steps: seq<Step>, k: nat, b: nat)
    requires Run(c, states, steps) && k < |states| && b < c.n
    ensures Shape(c, states[k]) && !states[k].whoops
    ensures Outstanding(states[k].phase[b]) ==>
              && states[k].io.pgLocked && states[k].io.reuse == [] && states[k].freed == []
              && states[k].io.count[b] == 1
  {
    RunInv(c, states, steps, k);
    assert Outstanding(states[k].phase[b]) ==> Busy(states[k]);
  }

  /** The completion that frees the ring is the last: every other submitted buffer has finished, and
      none can take another step before or after it.  All buffers then are on the reuse list, each
      once. */
  lemma FreedByTheLast(c: Config, states: seq<State>, steps: seq<Step>, k: nat)
    requires Run(c, states, steps) && k < |steps|
    requires states[k].freed != states[k + 1].freed
    ensures Shape(c, states[k]) && steps[k].Decrement? && states[k + 1].freed == [steps[k].b]
    ensures forall i :: 0 <= i < c.n && i != steps[k].b ==> states[k].phase[i] == Done
    ensures ExactlyOnce(states[k + 1].io.reuse, c.n)
    ensures forall m :: k < m < |states| ==> states[m].freed == states[k + 1].freed
  {
    RunInv(c, states, steps, k);
    RunInv(c, states, steps, k + 1);
    FreedStep(c, states[k], steps[k]);
    PushedOnce(steps[k].b, c.n);
    FreedReuse(c, states[k + 1]);
    hide Inv, Do, Enabled;
    forall m | k < m < |states| ensures states[m].freed == states[k + 1].freed {
      FreedStays(c, states, steps, k + 1, m);
    }
  }

  lemma FreedReuse(c: Config, s: State)
    requires Inv(c, s) && s.freed != []
    ensures s.freed[0] < c.n && s.io.reuse == Pushed(s.freed[0], c.n, c.n, [])
  {
  }

  /** One step frees the ring at most once, and only after all other buffers have finished. */
  lemma FreedStep(c: Config, s: State, step: Step)
    requires Inv(c, s) && Enabled(c, s, step)
    ensures s.freed != [] ==> Do(c, s, step).freed == s.freed
    ensures Do(c, s, step).freed != s.freed ==>
              && step.Decrement? && Do(c, s, step).freed == [step.b]
              && forall i :: 0 <= i < c.n && i != step.b ==> s.phase[i] == Done
  {
    if step.Decrement? {
      DecrementLast(c, s, step.b);
      assert forall i :: 0 <= i < c.n ==> Outstanding(s.phase[i]) || s.phase[i] == Last || s.phase[i] == Done;
    }
  }

  lemma {:induction false} FreedStays(c: Config, states: seq<State>, steps: seq<Step>, k: nat, m: nat)
    requires Run(c, states, steps) && k <= m < |states| && states[k].freed != []
    ensures states[m].freed == states[k].freed
  {
    hide Inv, Do, Enabled;
    if k < m {
      FreedStays(c, states, steps, k, m - 1);
      RunInv(c, states, steps, m - 1);
      FreedStep(c, states[m - 1], steps[m - 1]);
    }
  }

  predicate AllDone(s: State) { forall i :: 0 <= i < |s.phase| ==> s.phase[i] == Done }

  /** When all completions are over the page is unlocked, the ring has been freed once, and the flags
      tell the result: for a read PG_uptodate exactly when every transfer succeeded, for a write
      exactly when the first one to complete did; PG_error exactly when one failed. */
  lemma FinalFlags(c: Config, states: seq<State>, steps: seq<Step>)
    requires Run(c, states, steps)
    requires AllDone(states[|steps|])
    ensures var s := states[|steps|];
            && Shape(c, s) && !s.io.pgLocked && |s.freed| == 1 && ExactlyOnce(s.io.reuse, c.n)
            && (c.read ==> (s.io.pgUptodate <==> forall i :: 0 <= i < c.n && c.submit[i] ==> s.ok[i]))
            && (!c.read ==> (s.io.pgUptodate <==> s.first == FirstOk))
            && (s.io.pgError <==> exists i :: 0 <= i < c.n && c.submit[i] && !s.ok[i])
  {
    var s := states[|steps|];
    RunInv(c, states, steps, |steps|);
    assert !Busy(s);
    PushedOnce(s.freed[0], c.n);
    if FailureSeen(s) {
      var i :| 0 <= i < |s.phase| && !s.ok[i] && s.phase[i] != Pending && s.phase[i] != AfterMark;
      assert c.submit[i];
    }
    if AllTrue(s.io.uptodate) {
      forall i | 0 <= i < c.n && c.submit[i] ensures s.ok[i] { assert s.io.uptodate[i]; }
    }
  }

  /** As long as the page is locked some completion can go on. */
  lemma Progress(c: Config, states: seq<State>, steps: seq<Step>) returns (step: Step)
    requires Run(c, states, steps) && states[|steps|].io.pgLocked
    ensures Enabled(c, states[|steps|], step)
  {
    var s := states[|steps|];
    RunInv(c, states, steps, |steps|);
    if Busy(s) {
      var i :| 0 <= i < |s.phase| && Outstanding(s.phase[i]);
      step := match s.phase[i] case Pending => Mark(i, true) case AfterMark => Check(i) case _ => Decrement(i);
    } else {
      step := Release(s.freed[0]);
    }
  }
}
