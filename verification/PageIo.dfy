/** Page I/O of fs/buffer.c (`brw_page`, `mark_buffer_uptodate`, `unlock_buffer`,
    `free_async_buffers`, lines 1125-1330): temporary buffer heads on a ring, completed in any
    order by interrupts. */
module PageIo {

  /** The buffer heads of one page, by position on the ring `b_this_page`, and the page flags. */
  datatype Io = Io(
    count: seq<nat>,          // b_count
    uptodate: seq<bool>,      // BH_Uptodate
    lock: seq<bool>,          // BH_Lock
    freeOnIo: seq<bool>,      // BH_FreeOnIO
    pgLocked: bool,
    pgUptodate: bool,
    pgError: bool,
    reuse: seq<nat>)          // reuse_list

  predicate Shaped(io: Io, n: nat) {
    n > 0 && |io.count| == |io.uptodate| == |io.lock| == |io.freeOnIo| == n
  }

  // ---------- walking the ring ----------

  function Next(i: nat, n: nat): (r: nat)
    requires i < n
    ensures r < n
  {
    if i + 1 == n then 0 else i + 1
  }

  /** A walk that began at `b` and has come to `t` has seen `i`. */
  predicate Seen(b: nat, t: nat, i: nat) {
    if b < t then b <= i < t else b <= i || i < t
  }

  /** `i` is the `RingDistance`-th buffer after `b`. */
  function RingAt(b: nat, k: nat, n: nat): nat
    requires b < n && k < n
    ensures RingAt(b, k, n) < n
  {
    if b + k < n then b + k else b + k - n
  }

  /** The reuse list after the first `k` buffers of the ring have been pushed, beginning with `b`. */
  function Pushed(b: nat, k: nat, n: nat, onto: seq<nat>): seq<nat>
    requires b < n && k <= n
  {
    if k == 0 then onto else [RingAt(b, k - 1, n)] + Pushed(b, k - 1, n, onto)
  }

  lemma {:induction false} PushedAt(b: nat, k: nat, n: nat, onto: seq<nat>, j: nat)
    requires b < n && k <= n
    ensures |Pushed(b, k, n, onto)| == k + |onto|
    ensures j < k ==> Pushed(b, k, n, onto)[j] == RingAt(b, k - 1 - j, n)
  {
    if k > 0 { PushedAt(b, k - 1, n, onto, if j > 0 then j - 1 else 0); }
  }

  /** Each buffer of the ring is on the list exactly once. */
  predicate ExactlyOnce(list: seq<nat>, n: nat) {
    && |list| == n
    && (forall i :: 0 <= i < n ==> i in list)
    && (forall i, j :: 0 <= i < j < |list| ==> list[i] != list[j])
  }

  lemma PushedOnce(b: nat, n: nat)
    requires b < n
    ensures ExactlyOnce(Pushed(b, n, n, []), n)
  {
    var list := Pushed(b, n, n, []);
    PushedAt(b, n, n, [], 0);
    forall j | 0 <= j < n ensures list[j] == RingAt(b, n - 1 - j, n) { PushedAt(b, n, n, [], j); }
    forall i | 0 <= i < n ensures i in list {
      var k := if i >= b then i - b else i + n - b;
      assert list[n - 1 - k] == RingAt(b, k, n) == i;
    }
  }

  // ---------- what each function does ----------

  predicate AllTrue(s: seq<bool>) { forall i :: 0 <= i < |s| ==> s[i] }

  predicate AllZero(s: seq<nat>) { forall i :: 0 <= i < |s| ==> s[i] == 0 }

  function Marked(io: Io, b: nat, on: bool): Io
    requires b < |io.uptodate|
  {
    var up := io.uptodate[b := on];
    io.(uptodate := up, pgUptodate := io.pgUptodate || (on && AllTrue(up)))
  }

  datatype Check = Foreign | NotLocked | BadCount | Proceed

  function Checked(io: Io, b: nat): (Io, Check)
    requires b < |io.lock| && b < |io.freeOnIo| && b < |io.count| && b < |io.uptodate|
  {
    var io := io.(lock := io.lock[b := false]);
    if !io.freeOnIo[b] then (io, Foreign)
    else if !io.pgLocked then (io, NotLocked)
    else if io.count[b] != 1 then (io, BadCount)
    else (io.(pgError := io.pgError || !io.uptodate[b]), Proceed)
  }

  /** Freeing the ring: every buffer goes to the reuse list and loses its BH_FreeOnIO. */
  function Freed(io: Io, b: nat, n: nat): Io
    requires Shaped(io, n) && b < n
  {
    io.(reuse := Pushed(b, n, n, io.reuse), freeOnIo := seq(n, i => false))
  }

  function Decremented(io: Io, b: nat, n: nat): (Io, bool)
    requires Shaped(io, n) && b < n && io.count[b] > 0
  {
    var io := io.(count := io.count[b := io.count[b] - 1]);
    if AllZero(io.count) then (Freed(io, b, n), true) else (io, false)
  }

  class Page {
    const n: nat
    var io: Io

    ghost predicate Valid()
      reads this
    {
      Shaped(io, n)
    }

    constructor (n: nat, io: Io)
      requires Shaped(io, n)
      ensures Valid() && this.n == n && this.io == io
    {
      this.n, this.io := n, io;
    }

    /** fs/buffer.c:1242-1258 */
    method MarkBufferUptodate(b: nat, on: bool)
      requires Valid() && b < n
      modifies this
      ensures Valid() && io == Marked(old(io), b, on)
    {
      io := io.(uptodate := io.uptodate[b := on]);
      if on {
        var tmp: nat := Next(b, n);
        while tmp != b
          invariant Shaped(io, n) && tmp < n && io == old(io).(uptodate := old(io).uptodate[b := on])
          invariant forall i :: 0 <= i < n && Seen(b, tmp, i) ==> io.uptodate[i]
          decreases if b < tmp then n - tmp + b else b - tmp
        {
          if !io.uptodate[tmp] {
            return;
          }
          tmp := Next(tmp, n);
        }
        assert forall i :: 0 <= i < n ==> Seen(b, b, i);
        io := io.(pgUptodate := true);
      }
    }

    /** fs/buffer.c:1263-1286, up to the section with interrupts disabled */
    method UnlockCheck(b: nat) returns (r: Check)
      requires Valid() && b < n
      modifies this
      ensures Valid() && (io, r) == Checked(old(io), b)
    {
      io := io.(lock := io.lock[b := false]);
      if !io.freeOnIo[b] {
        return Foreign;
      }
      if !io.pgLocked {
        return NotLocked;
      }
      if io.count[b] != 1 {
        return BadCount;
      }
      if !io.uptodate[b] {
        io := io.(pgError := true);
      }
      r := Proceed;
    }

    /** fs/buffer.c:1125-1141; `mismatch` is the "async IO mismatch" branch */
    method FreeAsyncBuffers(b: nat) returns (mismatch: bool)
      requires Valid() && b < n
      modifies this
      ensures Valid()
      ensures AllTrue(old(io).freeOnIo) ==> !mismatch && io == Freed(old(io), b, n)
    {
      var tmp: nat, first := b, true;
      ghost var k := 0;
      while first || tmp != b
        invariant first <==> k == 0
        invariant k <= n && (k < n ==> tmp == RingAt(b, k, n)) && (k == n ==> tmp == b)
        invariant Shaped(io, n) && io == old(io).(reuse := io.reuse, freeOnIo := io.freeOnIo)
        invariant io.reuse == Pushed(b, k, n, old(io).reuse)
        invariant AllTrue(old(io).freeOnIo) ==>
                    forall j :: 0 <= j < n ==> (io.freeOnIo[j] <==> k == 0 || (k < n && !Seen(b, tmp, j)))
        decreases n - k
      {
        if !io.freeOnIo[tmp] {
          return true;
        }
        io := io.(reuse := [tmp] + io.reuse, freeOnIo := io.freeOnIo[tmp := false]);
        tmp, first, k := Next(tmp, n), false, k + 1;
      }
      mismatch := false;
      if AllTrue(old(io).freeOnIo) { assert io.freeOnIo == seq(n, i => false); }
    }

    /** fs/buffer.c:1300-1312, the section with interrupts disabled */
    method Decrement(b: nat) returns (last: bool)
      requires Valid() && b < n && io.count[b] > 0 && AllTrue(io.freeOnIo)
      modifies this
      ensures Valid() && (io, last) == Decremented(old(io), b, n)
    {
      io := io.(count := io.count[b := io.count[b] - 1]);
      if io.count[b] > 0 {
        return false;
      }
      var tmp: nat := Next(b, n);
      while tmp != b
        invariant Shaped(io, n) && tmp < n && io == old(io).(count := old(io).count[b := old(io).count[b] - 1])
        invariant forall i :: 0 <= i < n && Seen(b, tmp, i) ==> io.count[i] == 0
        decreases if b < tmp then n - tmp + b else b - tmp
      {
        if io.count[tmp] > 0 {
          return false;
        }
        tmp := Next(tmp, n);
      }
      assert forall i :: 0 <= i < n ==> Seen(b, b, i);
      var mismatch := FreeAsyncBuffers(b);
      last := true;
    }

    /** fs/buffer.c:1148-1237.  `submit[i]` says that block `i` is neither a hole nor in the buffer
        cache; `alloc` that buffer heads could be had.  The buffers handed to `ll_rw_block` come back
        in `arr`, locked. */
    method BrwPage(read: bool, submit: seq<bool>, alloc: bool) returns (error: bool, arr: seq<nat>)
      requires n > 0 && |submit| == n && io.pgLocked
      modifies this
      ensures error == !alloc
      ensures error ==> !io.pgLocked && !io.pgUptodate && arr == []
      ensures !error ==> Valid() && io == Begun(n, read, submit, old(io).reuse)
      ensures !error ==> forall i :: 0 <= i < n ==> (i in arr <==> submit[i])
      ensures !error ==> forall i, j :: 0 <= i < j < |arr| ==> arr[i] < arr[j]
    {
      arr := [];
      error := !alloc;
      if !alloc {
        io := io.(pgLocked := false, pgUptodate := false, pgError := false);
        return;
      }
      var count: seq<nat>, uptodate: seq<bool>, lock: seq<bool>, freeOnIo: seq<bool> := [], [], [], [];
      for next := 0 to n
        invariant |count| == |uptodate| == |lock| == |freeOnIo| == next
        invariant forall i :: 0 <= i < next ==>
                    && count[i] == (if submit[i] then 1 else 0) && uptodate[i] == !(submit[i] && read)
                    && freeOnIo[i] && lock[i] == submit[i]
        invariant forall i :: 0 <= i < next && submit[i] ==> i in arr
        invariant forall x :: x in arr ==> x < next && submit[x]
        invariant forall i, j :: 0 <= i < j < |arr| ==> arr[i] < arr[j]
      {
        freeOnIo := freeOnIo + [true];
        if submit[next] {
          ghost var before := arr;
          count, uptodate, lock, arr := count + [1], uptodate + [!read], lock + [true], arr + [next];
          assert forall i :: 0 <= i < |before| ==> before[i] in before && arr[i] == before[i];
          assert arr[|arr| - 1] == next && forall x :: x in before ==> x in arr;
        } else {
          count, uptodate, lock := count + [0], uptodate + [true], lock + [false];
        }
      }
      io := Io(count, uptodate, lock, freeOnIo, true, false, false, io.reuse);
      assert io == Submitted(n, read, submit, old(io).reuse);
      if arr == [] {
        var mismatch := FreeAsyncBuffers(0);
        io := io.(pgLocked := false, pgUptodate := true);
      } else {
        assert arr[0] in arr && submit[arr[0]];
      }
    }
  }

  /** The ring handed to the driver. */
  function Submitted(n: nat, read: bool, submit: seq<bool>, reuse: seq<nat>): Io
    requires n > 0 && |submit| == n
  {
    Io(seq(n, i requires 0 <= i < n => if submit[i] then 1 else 0),
       seq(n, i requires 0 <= i < n => !(submit[i] && read)),
       seq(n, i requires 0 <= i < n => submit[i]),
       seq(n, i => true), true, false, false, reuse)
  }

  /** When nothing needs I/O the ring is freed and the page unlocked at once. */
  function Begun(n: nat, read: bool, submit: seq<bool>, reuse: seq<nat>): Io
    requires n > 0 && |submit| == n
  {
    var io := Submitted(n, read, submit, reuse);
    if exists i :: 0 <= i < n && submit[i] then io
    else Freed(io, 0, n).(pgLocked := false, pgUptodate := true)
  }
}
