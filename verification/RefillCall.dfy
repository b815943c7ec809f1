/** `grow_buffers` and the whole of `refill_freelist`, with every place where it may sleep
    (fs/buffer.c:644-755, 1368-1415). */
module RefillCall {
  import opened Base
  import opened Lists
  import opened RingWalk
  import opened BufferCache
  import opened RefillFreelist
  import BufferRings
  import BufferTasks

  // ---------- a fresh page ----------

  function FreshBuf(size: nat): Buf { Buf(Key(B_FREE, 0), size, BUF_CLEAN, 0, false, false, false) }

  /** What `create_buffers` gives: the heads of a page cut into buffers of the size. */
  ghost predicate Fresh(w: World, page: seq<Bh>, size: nat) {
    page != [] && NoDup(page) && |page| * size == PAGE_SIZE && forall b :: b in page ==> b !in w.c.bufs
  }

  ghost predicate Added(bufs: map<Bh, Buf>, bufs': map<Bh, Buf>, page: seq<Bh>, size: nat) {
    && (forall b :: b in bufs' <==> b in bufs || b in page)
    && (forall b :: b in bufs' ==> bufs'[b] == if b in page then FreshBuf(size) else bufs[b])
  }

  /** The page is linked into a ring, belongs to nobody else and has not been used. */
  function Paged(w: World, page: seq<Bh>, c: Cache): World {
    w.(c := c,
       page := (b: Bh) => if b in page then Round(page, b) else w.page(b),
       shared := (b: Bh) => b !in page && w.shared(b),
       touched := (b: Bh) => b !in page && w.touched(b))
  }

  /** The buffers of the page are in the cache, in front of the free ring of their size. */
  ghost predicate Grew(w: World, w': World, page: seq<Bh>, size: nat) {
    && w' == Paged(w, page, w'.c) && BufferTasks.Via(w.c, w'.c) && Added(w.c.bufs, w'.c.bufs, page, size)
    && Shape(w.c) && Shape(w'.c) && w'.c.lru == w.c.lru
    && forall i :: 0 <= i < NR_SIZES ==>
         w'.c.free[i] ==
         var ring := w.c.free[i];
         if i != SizeIndex(size) then ring
         else if ring == [] then page
         else page + ring[1..] + [ring[0]]
  }

  lemma GrowVia(c: Cache, b: Bh, size: nat, at: nat)
    requires Ok(c, {}) && b !in c.bufs && ValidSize(size) && Shape(c) && at <= |c.free[SizeIndex(size)]|
    ensures Ok(Grow(c, b, size, at), {}) && Shape(Grow(c, b, size, at)) && BufferTasks.Via(c, Grow(c, b, size, at))
  {
    hide SizeIndex;
    GrowOk(c, b, size, at);
    BufferTasks.ViaOne(c, BufferTasks.GrowIt(b, size, at), Grow(c, b, size, at));
  }

  lemma RotateVia(c: Cache, i: nat)
    requires Ok(c, {}) && Shape(c) && i < NR_SIZES && c.free[i] != []
    ensures Ok(Rotate(c, i), {}) && Shape(Rotate(c, i)) && BufferTasks.Via(c, Rotate(c, i))
  {
    RotateOk(c, i);
    BufferTasks.ViaOne(c, BufferTasks.RotateIt(i), Rotate(c, i));
  }

  lemma AddedOne(bufs: map<Bh, Buf>, bufs': map<Bh, Buf>, page: seq<Bh>, size: nat, i: nat)
    requires i < |page| && Added(bufs, bufs', page[..i], size)
    ensures Added(bufs, bufs'[page[i] := FreshBuf(size)], page[..i + 1], size)
  {
    assert page[..i + 1] == page[..i] + [page[i]];
  }

  lemma SizeBound(size: nat)
    requires ValidSize(size)
    ensures SizeIndex(size) < NR_SIZES
  {
  }

  lemma Starting(w: World, page: seq<Bh>, size: nat)
    requires WorldOk(w) && Shape(w.c) && ValidSize(size) && Fresh(w, page, size) && SizeIndex(size) < NR_SIZES
    ensures page != [] && NoDup(page) && NoDup(page + w.c.free[SizeIndex(size)])
    ensures Added(w.c.bufs, w.c.bufs, [], size)
  {
    hide PageOk;
    var ring := w.c.free[SizeIndex(size)];
    assert FreeOk(w.c, {}, SizeIndex(size));
    assert forall x :: x in ring ==> x !in page;
    DisjointNoDup(page, ring);
  }

  lemma NotYetIn(w: World, page: seq<Bh>, size: nat, i: nat, c: Cache)
    requires Fresh(w, page, size) && i < |page| && Added(w.c.bufs, c.bufs, page[..i], size)
    ensures page[i] !in c.bufs
  {
    assert page[i] in page && page[i] !in page[..i];
  }

  lemma GrowIs(c: Cache, b: Bh, size: nat, at: nat)
    requires Shape(c) && SizeIndex(size) < NR_SIZES && at <= |c.free[SizeIndex(size)]|
    ensures var c', i := Grow(c, b, size, at), SizeIndex(size);
            && c'.bufs == c.bufs[b := FreshBuf(size)] && c'.lru == c.lru
            && c'.free == c.free[i := BufferRings.InsertedAt(c.free[i], at, b)]
  {
  }

  lemma RotateIs(c: Cache, i: nat)
    requires Shape(c) && i < NR_SIZES && c.free[i] != []
    ensures var c' := Rotate(c, i);
            c'.bufs == c.bufs && c'.lru == c.lru && c'.free == c.free[i := c.free[i][1..] + [c.free[i][0]]]
  {
  }

  lemma RoundOnce(page: seq<Bh>, b: Bh)
    requires NoDup(page) && b in page
    ensures var r := Round(page, b); r != [] && r[0] == b && NoDup(r) && forall x :: x in r <==> x in page
  {
    var k := IndexOf(page, b);
    assert page == page[..k] + page[k..];
    DisjointNoDup(page[k..], page[..k]);
  }

  lemma PagesGrown(w: World, page: seq<Bh>, size: nat, c: Cache)
    requires WorldOk(w) && Fresh(w, page, size) && Ok(c, {}) && Added(w.c.bufs, c.bufs, page, size)
    ensures WorldOk(Paged(w, page, c))
  {
    hide Ok, Round;
    var w' := Paged(w, page, c);
    forall b | b in c.bufs ensures PageOk(w', b) {
      if b in page {
        RoundOnce(page, b);
        forall a | a in page ensures forall x :: x in Round(page, a) <==> x in page { RoundOnce(page, a); }
      } else {
        assert PageOk(w, b);
      }
    }
  }

  /** The part of `grow_buffers` that cannot sleep (fs/buffer.c:1390-1414). */
  method GrowBuffers(w: World, page: seq<Bh>, size: nat) returns (w': World)
    requires WorldOk(w) && ValidSize(size) && Fresh(w, page, size)
    ensures WorldOk(w') && Grew(w, w', page, size)
  {
    hide Ok, PageOk, SizeIndex, BufferTasks.Via, BufferRings.Spliced, BufferRings.InsertedAt, Fresh, Grow, Rotate, Added;
    RingMembers(w.c, 0, 0);
    SizeBound(size);
    var x := SizeIndex(size);
    ghost var was := w.c.free[x];
    var c := w.c;
    Starting(w, page, size);
    BufferRings.SplicedEnds(page, was);
    BufferTasks.ViaNone(c);
    assert page[..0] == [] && c.free == c.free[x := was];
    var i := 0;
    while i < |page|
      invariant i <= |page| && Ok(c, {}) && Shape(c) && BufferTasks.Via(w.c, c) && Added(w.c.bufs, c.bufs, page[..i], size)
      invariant c.free == w.c.free[x := BufferRings.Spliced(page, was, i)] && c.lru == w.c.lru
    {
      BufferRings.SplicedStep(page, was, i);
      var at: nat := if w.c.free[x] == [] then i else i + 1;
      NotYetIn(w, page, size, i, c);
      ghost var d := c;
      GrowVia(c, page[i], size, at);
      GrowIs(c, page[i], size, at);
      AddedOne(w.c.bufs, c.bufs, page, size, i);
      c := Grow(c, page[i], size, at);
      BufferTasks.ViaBoth(w.c, d, c);
      i := i + 1;
    }
    BufferRings.SplicedEnds(page, was);
    assert page[..i] == page;
    if w.c.free[x] != [] {
      ghost var d := c;
      RotateVia(c, x);
      RotateIs(c, x);
      c := Rotate(c, x);
      BufferTasks.ViaBoth(w.c, d, c);
    }
    w' := Paged(w, page, c);
    PagesGrown(w, page, size, c);
  }

  // ---------- what is recorded of a call ----------

  /** What the model leaves open: the world after the n-th sleep, the heads that `create_buffers` then has at hand,
      and the answer to the n-th question about free memory, dirty buffers and whether a page could be had. */
  datatype Env = Env(world: nat -> World, page: nat -> seq<Bh>, yes: nat -> bool)

  ghost predicate EnvOk(env: Env, size: nat) {
    forall n :: WorldOk(env.world(n)) && Fresh(env.world(n), env.page(n), size)
  }

  /** What happened between two sleeps: a page that was had (or none) went in, then `moved` became free.  `paid` is
      what the sleep before took off `needed`. */
  datatype Stretch = Stretch(before: World, page: seq<Bh>, start: World, after: World, moved: seq<Bh>, paid: nat)

  ghost predicate Idle(x: Stretch) { x.moved == [] && x.after == x.start }

  /** How a stretch comes to its end: with nothing more to be had, or, after a sleep that brought nothing and cost
      nothing, at once. */
  ghost predicate Ends(x: Stretch, i: nat, size: nat, grew: nat) {
    if i == grew || x.paid > 0 then Exhausted(x.after, size) else Idle(x)
  }

  ghost predicate Begins(x: Stretch, i: nat, w: World, size: nat, env: Env) {
    && x.before == (if i == 0 then w else env.world(i - 1))
    && (if x.page == [] then x.start == x.before else x.paid == PAGE_SIZE && Grew(x.before, x.start, x.page, size))
    && (x.paid == 0 || (x.paid == PAGE_SIZE && i > 0))
  }

  /** Stretch number `i` of a call that starts in world `w`; the first search is in number `grew`. */
  ghost predicate StretchOk(x: Stretch, i: nat, last: bool, w: World, size: nat, env: Env, grew: nat) {
    && Begins(x, i, w, size, env) && Gave(x.start, x.after, size, x.moved)
    && (i < grew ==> Idle(x)) && (grew <= i && !last ==> Ends(x, i, size, grew))
  }

  ghost predicate Log(log: seq<Stretch>, w: World, size: nat, env: Env, grew: nat) {
    grew < |log| && forall i :: 0 <= i < |log| ==> StretchOk(log[i], i, i == |log| - 1, w, size, env, grew)
  }

  function Total(log: seq<Stretch>): nat {
    if log == [] then 0 else Total(log[..|log| - 1]) + |log[|log| - 1].moved|
  }

  function Paid(log: seq<Stretch>): nat {
    if log == [] then 0 else Paid(log[..|log| - 1]) + log[|log| - 1].paid
  }

  /** How much is still needed. */
  function Left(log: seq<Stretch>, size: nat, nrefill: nat): int { nrefill * size - Total(log) * size - Paid(log) }

  lemma StartLog(w: World, size: nat, env: Env, nrefill: nat)
    ensures var log := [Stretch(w, [], w, w, [], 0)];
            Log(log, w, size, env, 0) && Left(log, size, nrefill) == nrefill * size
  {
    hide Gave;
    GaveNone(w, size);
    var log := [Stretch(w, [], w, w, [], 0)];
    assert log[..0] == [] && Total(log) == Total(log[..0]) + 0 && Paid(log) == Paid(log[..0]) + 0;
  }

  /** One more stretch.  Before the first search `grew` goes on with it. */
  lemma SleepLog(log: seq<Stretch>, w: World, size: nat, env: Env, grew: nat, grew': nat, x: Stretch, nrefill: nat)
    requires Log(log, w, size, env, grew) && Begins(x, |log|, w, size, env) && Idle(x)
    requires var last := log[|log| - 1];
             if grew == |log| - 1 && grew' == grew + 1 then Idle(last) else grew' == grew && Ends(last, |log| - 1, size, grew)
    ensures Log(log + [x], w, size, env, grew')
    ensures Left(log + [x], size, nrefill) == Left(log, size, nrefill) - x.paid
  {
    hide Exhausted, Gave, Begins;
    var log', n := log + [x], |log| - 1;
    assert log'[..|log|] == log;
    forall i | 0 <= i < |log'| ensures StretchOk(log'[i], i, i == |log'| - 1, w, size, env, grew') {
      if i <= n { assert StretchOk(log[i], i, i == n, w, size, env, grew); }
      GaveNone(x.start, size);
    }
  }

  function Worked(log: seq<Stretch>, w': World, more: seq<Bh>): seq<Stretch>
    requires log != []
  {
    var last := log[|log| - 1];
    log[..|log| - 1] + [last.(after := w', moved := last.moved + more)]
  }

  lemma LeftWorked(log: seq<Stretch>, size: nat, w': World, more: seq<Bh>, nrefill: nat)
    requires log != []
    ensures Left(Worked(log, w', more), size, nrefill) == Left(log, size, nrefill) - |more| * size
  {
    var n, log' := |log| - 1, Worked(log, w', more);
    assert log'[..n] == log[..n];
    Distribute(Total(log), |more|, size);
  }

  lemma BeginsAlike(x: Stretch, y: Stretch, i: nat, w: World, size: nat, env: Env)
    requires Begins(x, i, w, size, env) && y == x.(after := y.after, moved := y.moved)
    ensures Begins(y, i, w, size, env)
  {
  }

  lemma WorkLog(log: seq<Stretch>, w: World, size: nat, env: Env, grew: nat, w': World, more: seq<Bh>, nrefill: nat)
    requires Log(log, w, size, env, grew) && Gave(log[|log| - 1].after, w', size, more)
    ensures Log(Worked(log, w', more), w, size, env, grew)
    ensures Left(Worked(log, w', more), size, nrefill) == Left(log, size, nrefill) - |more| * size
  {
    hide Exhausted, Gave, Ends, Begins, Left;
    var n, log' := |log| - 1, Worked(log, w', more);
    assert StretchOk(log[n], n, true, w, size, env, grew);
    assert Begins(log'[n], n, w, size, env) by { BeginsAlike(log[n], log'[n], n, w, size, env); }
    GaveTrans(log[n].start, log[n].after, w', size, log[n].moved, more);
    LeftWorked(log, size, w', more, nrefill);
    forall i | 0 <= i < |log'| ensures StretchOk(log'[i], i, i == n, w, size, env, grew) {
      assert i < n ==> StretchOk(log[i], i, i == n, w, size, env, grew);
    }
  }

  lemma Distribute(a: nat, b: nat, size: nat)
    ensures (a + b) * size == a * size + b * size
  {
  }

  /** Each stretch is a run of the steps of `BufferTasks`, whatever the tasks are doing. */
  lemma StretchIsRun(x: Stretch, i: nat, last: bool, w: World, size: nat, env: Env, grew: nat, s: BufferTasks.State)
    returns (states: seq<BufferTasks.State>, steps: seq<BufferTasks.Step>)
    requires StretchOk(x, i, last, w, size, env, grew) && BufferTasks.Inv(s) && s.c == x.before.c
    ensures |states| == |steps| + 1 && states[0] == s && states[|steps|] == s.(c := x.after.c)
    ensures BufferTasks.Inv(s.(c := x.after.c))
    ensures forall k :: 0 <= k < |steps| ==>
              BufferTasks.Refills(steps[k]) && BufferTasks.Next(states[k], steps[k], states[k + 1])
  {
    hide BufferTasks.Via, BufferTasks.Inv, BufferTasks.Next, Exhausted;
    if x.page == [] { BufferTasks.ViaNone(x.before.c); }
    BufferTasks.ViaBoth(x.before.c, x.start.c, x.after.c);
    states, steps := BufferTasks.ViaIsRun(s, x.after.c);
  }

  // ---------- the call ----------

  lemma SomePage(w: World, page: seq<Bh>, size: nat)
    requires Fresh(w, page, size)
    ensures page != []
  {
  }

  /** A sleep, after which a page may have been had. */
  method Sleeps(env: Env, n: nat, size: nat, got: bool, paid: nat, ghost w: World) returns (w': World, ghost x: Stretch)
    requires EnvOk(env, size) && ValidSize(size) && (paid == PAGE_SIZE || (paid == 0 && !got))
    ensures WorldOk(w') && Begins(x, n + 1, w, size, env) && Idle(x) && x.after == w' && x.paid == paid
  {
    hide Grew, PageOk, Ok, Fresh;
    w' := env.world(n);
    assert WorldOk(w') && Fresh(w', env.page(n), size);
    assert env.page(n) != [] by { SomePage(w', env.page(n), size); }
    x := Stretch(w', [], w', w', [], paid);
    if got {
      w' := GrowBuffers(w', env.page(n), size);
      x := Stretch(env.world(n), env.page(n), w', w', [], paid);
    }
  }

  /** Up to `repeat` (fs/buffer.c:659-670): bdflush may be waited for, then pages are had as long as memory is
      plentiful. */
  method Plenty(w: World, size: nat, nrefill: nat, env: Env)
    returns (w': World, needed: int, n: nat, asked: nat, ghost log: seq<Stretch>, ghost pages: nat)
    requires WorldOk(w) && ValidSize(size) && EnvOk(env, size)
    ensures WorldOk(w') && Log(log, w, size, env, n) && |log| == n + 1 && Idle(log[n]) && log[n].after == w'
    ensures needed == Left(log, size, nrefill)
    ensures forall i: nat :: i < pages ==> env.yes(1 + 2 * i) && env.yes(2 + 2 * i)
    ensures env.yes(1 + 2 * pages) && env.yes(2 + 2 * pages) ==> needed <= 0
  {
    hide WorldOk, Log, EnvOk, Begins;
    w', n, asked, pages := w, 0, 1, 0;
    log := [Stretch(w, [], w, w, [], 0)];
    StartLog(w, size, env, nrefill);
    if env.yes(0) {
      ghost var x;
      w', x := Sleeps(env, n, size, false, 0, w);
      SleepLog(log, w, size, env, n, n + 1, x, nrefill);
      log, n := log + [x], n + 1;
    }
    needed := nrefill * size;
    while needed > 0 && env.yes(asked)
      invariant WorldOk(w') && Log(log, w, size, env, n) && |log| == n + 1 && Idle(log[n]) && log[n].after == w'
      invariant needed == Left(log, size, nrefill) && asked == 1 + 2 * pages
      invariant forall i: nat :: i < pages ==> env.yes(1 + 2 * i) && env.yes(2 + 2 * i)
      decreases needed
    {
      var got := env.yes(asked + 1);
      ghost var x;
      w', x := Sleeps(env, n, size, got, if got then PAGE_SIZE else 0, w);
      SleepLog(log, w, size, env, n, n + 1, x, nrefill);
      log, n, asked := log + [x], n + 1, asked + 2;
      if !got { return; }
      needed, pages := needed - PAGE_SIZE, pages + 1;
    }
  }

  /** It stops short only when the last search found nothing; a vain attempt to get a page may lie between. */
  ghost predicate StopsShort(log: seq<Stretch>, size: nat, grew: nat) {
    var m := |log| - 1;
    && m >= 0
    && (Exhausted(log[m].after, size) || (m > grew && Idle(log[m]) && log[m].paid == 0 && Exhausted(log[m - 1].after, size)))
  }

  /** After an election without a winner (fs/buffer.c:716-754).  A way back to `repeat` costs a page, whether or not
      one was had. */
  method Harder(ghost w: World, w0: World, size: nat, nrefill: nat, env: Env, needed: int, n0: nat, asked0: nat,
                ghost log0: seq<Stretch>, ghost grew: nat)
    returns (stop: bool, w': World, needed': int, n: nat, asked: nat, ghost log: seq<Stretch>)
    requires WorldOk(w0) && ValidSize(size) && EnvOk(env, size)
    requires Log(log0, w, size, env, grew) && |log0| == n0 + 1 && log0[n0].after == w0 && needed == Left(log0, size, nrefill)
    requires Exhausted(w0, size) && grew <= n0 && (n0 == grew || log0[n0].paid > 0)
    ensures WorldOk(w') && Log(log, w, size, env, grew) && |log| == n + 1 && log[n].after == w'
    ensures needed' == Left(log, size, nrefill)
    ensures if stop then Shape(w'.c) && w'.c.free[SizeIndex(size)] != [] && StopsShort(log, size, grew)
            else needed' < needed && n > grew && log[n].paid > 0
  {
    hide WorldOk, Log, EnvOk, Begins, Exhausted, SizeIndex;
    stop, w', needed', n, asked, log := false, w0, needed, n0, asked0, log0;
    ghost var x;
    if env.yes(asked) {
      var got := env.yes(asked + 1);
      asked := asked + 1;
      w', x := Sleeps(env, n, size, got, if got then PAGE_SIZE else 0, w);
      SleepLog(log, w, size, env, grew, grew, x, nrefill);
      log, n := log + [x], n + 1;
      if got { needed' := needed' - PAGE_SIZE; return; }
    }
    asked := asked + 1;
    if env.yes(asked) {
      // bdflush is woken
      w', x := Sleeps(env, n, size, false, PAGE_SIZE, w);
      SleepLog(log, w, size, env, grew, grew, x, nrefill);
      log, n, needed' := log + [x], n + 1, needed' - PAGE_SIZE;
      return;
    }
    SizesThere(w', size);
    if w'.c.free[SizeIndex(size)] != [] {
      stop := true;
      return;
    }
    asked := asked + 1;
    var got := env.yes(asked);
    w', x := Sleeps(env, n, size, got, if got then PAGE_SIZE else 0, w);
    SleepLog(log, w, size, env, grew, grew, x, nrefill);
    log, n := log + [x], n + 1;
    if !got {
      // bdflush is woken, or a page asked for that may wait for I/O
      asked := asked + 1;
      w', x := Sleeps(env, n, size, env.yes(asked), PAGE_SIZE, w);
      SleepLog(log, w, size, env, grew, grew, x, nrefill);
      log, n := log + [x], n + 1;
    }
    needed' := needed' - PAGE_SIZE;
  }

  lemma SizesThere(w: World, size: nat)
    requires WorldOk(w) && ValidSize(size)
    ensures Shape(w.c) && SizeIndex(size) < |w.c.free|
  {
    RingMembers(w.c, 0, 0);
  }

  /** `refill_freelist` (fs/buffer.c:644-755). */
  method Refill(w: World, size: nat, nrefill: nat, env: Env)
    returns (w': World, needed: int, ghost log: seq<Stretch>, ghost grew: nat, ghost pages: nat)
    requires WorldOk(w) && ValidSize(size) && EnvOk(env, size)
    ensures Log(log, w, size, env, grew) && w' == log[|log| - 1].after && WorldOk(w')
    ensures forall i: nat :: i < pages ==> env.yes(1 + 2 * i) && env.yes(2 + 2 * i)
    ensures env.yes(1 + 2 * pages) && env.yes(2 + 2 * pages) ==> needed <= 0 && |log| == grew + 1
    ensures needed == Left(log, size, nrefill)
    ensures needed <= 0 || (Shape(w'.c) && w'.c.free[SizeIndex(size)] != [] && StopsShort(log, size, grew))
  {
    hide WorldOk, Log, EnvOk, Exhausted, Gave, SizeIndex, StopsShort, Left;
    var n: nat, asked: nat;
    w', needed, n, asked, log, pages := Plenty(w, size, nrefill, env);
    grew := n;
    while needed > 0
      invariant WorldOk(w') && Log(log, w, size, env, grew) && |log| == n + 1 && log[n].after == w'
      invariant needed == Left(log, size, nrefill) && (n == grew || (n > grew && log[n].paid > 0))
      invariant env.yes(1 + 2 * pages) && env.yes(2 + 2 * pages) ==> needed <= 0 && n == grew
      decreases needed
    {
      var moved;
      ghost var was := needed;
      w', needed, moved := Elect(w', size, needed);
      WorkLog(log, w, size, env, grew, w', moved, nrefill);
      log := Worked(log, w', moved);
      if moved != [] { Positive(|moved|, size); continue; }
      var stop;
      stop, w', needed, n, asked, log := Harder(w, w', size, nrefill, env, needed, n, asked, log, grew);
      if stop { return; }
    }
  }

  lemma Positive(k: nat, size: nat)
    requires k > 0 && size > 0
    ensures k * size > 0
  {
  }
}
