/** `block_read` (fs/block_dev.c:149-291): a ring of NBUF buffers between the blocks asked of the
    device and the bytes copied to the caller. */
module BlockRead {
  import opened Base

  const NBUF: nat := 64
  const INT_MAX: int := 0x7fff_ffff

  /** What the surroundings decide.  `cached`: the block is up to date when `getblk` returns it;
      `fails`: its read fails; `busy`: the buffer at `bhe` is still locked the n-th time it is looked at. */
  datatype Env = Env(cached: nat -> bool, fails: nat -> bool, busy: nat -> bool)

  /** The block cannot be read. */
  predicate Bad(env: Env, k: nat) { !env.cached(k) && env.fails(k) }

  datatype Result =
    | Read(n: nat)
    | Eio
    | Unfilled   // a ring slot that holds no buffer has been used: the source's behaviour is undefined

  // ---------- what will be asked for (fs/block_dev.c:182-210) ----------

  function Ceil(a: nat, b: nat): nat
    requires b > 0
  {
    (a + b - 1) / b
  }

  /** The bytes wanted: at most `count`, at most what the device holds after `pos`. */
  function Wanted(pos: nat, size: nat, count: nat): nat {
    var left := if pos > size then 0 else if size - pos > INT_MAX then INT_MAX else size - pos;
    if left > count then count else left
  }

  /** The blocks those bytes lie in. */
  function Needed(pos: nat, size: nat, count: nat, bs: nat): nat
    requires bs > 0
  {
    Ceil(Wanted(pos, size, count) + pos % bs, bs)
  }

  /** The blocks that will be asked for, read-ahead included: none past the last whole block. */
  function Asked(pos: nat, size: nat, count: nat, bs: nat, reada: nat): nat
    requires bs > 0
  {
    var needed := Needed(pos, size, count, bs);
    var ahead := if needed < reada then reada else needed;
    if pos / bs + ahead <= size / bs then ahead
    else if pos / bs <= size / bs then size / bs - pos / bs
    else 0
  }

  /** The first block in [from, upto) that cannot be read, or `upto`. */
  function FirstBad(env: Env, from: nat, upto: nat): (k: nat)
    requires from <= upto
    ensures from <= k <= upto
    ensures forall i: nat :: from <= i < k ==> !Bad(env, i)
    ensures k < upto ==> Bad(env, k)
    decreases upto - from
  {
    if from == upto || Bad(env, from) then from else FirstBad(env, from + 1, upto)
  }

  function Range(from: nat, upto: nat): (r: seq<nat>)
    requires from <= upto
    ensures |r| == upto - from && forall i :: 0 <= i < |r| ==> r[i] == from + i
  {
    seq(upto - from, i => from + i)
  }

  // ---------- arithmetic ----------

  lemma MulNext(k: int, bs: int)
    ensures (k + 1) * bs == k * bs + bs
  {
  }

  lemma {:induction false} MulMono(a: nat, b: nat, bs: nat)
    requires a <= b
    ensures a * bs <= b * bs
    decreases b - a
  {
    if a < b { MulMono(a, b - 1, bs); MulNext(b - 1, bs); }
  }

  lemma Distribute(a: int, b: int, bs: int)
    ensures (a + b) * bs == a * bs + b * bs
  {
  }

  function BlockOf(x: nat, bs: nat): nat
    requires bs > 0
  {
    x / bs
  }

  function OffsetIn(x: nat, bs: nat): nat
    requires bs > 0
  {
    x % bs
  }

  lemma DivMul(x: nat, bs: nat)
    requires bs > 0
    ensures x == (x / bs) * bs + x % bs && 0 <= x % bs < bs
  {
  }

  lemma CeilFacts(a: nat, bs: nat)
    requires bs > 0
    ensures a <= Ceil(a, bs) * bs < a + bs
  {
    DivMul(a + bs - 1, bs);
  }

  /** The end of the device's last whole block. */
  function Tail(size: nat, bs: nat): nat
    requires bs > 0
  {
    size / bs * bs
  }

  lemma Below(a: nat, k: nat, off: nat, bs: nat)
    requires off < bs
    ensures a <= k <==> a * bs <= k * bs + off
  {
    MulNext(k, bs);
    if a <= k { MulMono(a, k, bs); } else { MulMono(k + 1, a, bs); }
  }

  lemma RunsPast(b0: nat, off: nat, want: nat, needed: nat, sb: nat, bs: nat)
    requires 0 < want && off < bs && want + off <= needed * bs < want + off + bs
    ensures needed > 0 && (sb < b0 + needed <==> sb * bs < b0 * bs + off + want)
  {
    if needed == 0 { assert false; }
    Distribute(b0, needed - 1, bs);
    MulNext(needed - 1, bs);
    Below(sb, b0 + needed - 1, off + want - 1 - (needed - 1) * bs, bs);
  }

  /** The same for the blocks asked for, in multiples of the block size. */
  lemma AskedCore(pos: nat, size: nat, want: nat, needed: nat, ahead: nat, asked: nat,
                  b0: nat, off: nat, sb: nat, rest: nat, bs: nat)
    requires 0 < want && pos < size && pos == b0 * bs + off && off < bs && size == sb * bs + rest && rest < bs
    requires want + off <= needed * bs < want + off + bs && needed <= ahead
    requires asked == if b0 + ahead <= sb then ahead else if b0 <= sb then sb - b0 else 0
    ensures needed > 0
    ensures asked < needed <==> sb * bs < pos + want
    ensures asked == 0 <==> sb * bs <= pos
  {
    RunsPast(b0, off, want, needed, sb, bs);
    Below(sb, b0, off, bs);
    Below(b0, sb, rest, bs);
  }

  lemma WantedOnDevice(pos: nat, size: nat, count: nat)
    requires Wanted(pos, size, count) > 0
    ensures pos < size
  {
  }

  /** The blocks asked for fall short of those needed exactly when the request runs past the last whole
      block, and there are none exactly when it starts there. */
  lemma AskedFacts(pos: nat, size: nat, count: nat, bs: nat, reada: nat)
    requires bs > 0 && Wanted(pos, size, count) > 0
    ensures Asked(pos, size, count, bs, reada) < Needed(pos, size, count, bs)
            <==> Tail(size, bs) < pos + Wanted(pos, size, count)
    ensures Asked(pos, size, count, bs, reada) == 0 <==> Tail(size, bs) <= pos
    ensures Needed(pos, size, count, bs) > 0
  {
    hide Wanted, Needed, Asked, Tail, BlockOf, OffsetIn;
    var needed := Needed(pos, size, count, bs);
    Split(pos, bs);
    Split(size, bs);
    NeededFacts(pos, size, count, bs);
    AskedIs(pos, size, count, bs, reada);
    WantedOnDevice(pos, size, count);
    AskedCore(pos, size, Wanted(pos, size, count), needed, if needed < reada then reada else needed,
              Asked(pos, size, count, bs, reada),
              BlockOf(pos, bs), OffsetIn(pos, bs), BlockOf(size, bs), OffsetIn(size, bs), bs);
    TailIs(size, bs);
  }

  lemma Split(x: nat, bs: nat)
    requires bs > 0
    ensures x == BlockOf(x, bs) * bs + OffsetIn(x, bs) && OffsetIn(x, bs) < bs
  {
    DivMul(x, bs);
  }

  lemma NeededFacts(pos: nat, size: nat, count: nat, bs: nat)
    requires bs > 0
    ensures var want, needed := Wanted(pos, size, count), Needed(pos, size, count, bs);
            want + OffsetIn(pos, bs) <= needed * bs < want + OffsetIn(pos, bs) + bs
  {
    hide Wanted, Ceil;
    CeilFacts(Wanted(pos, size, count) + pos % bs, bs);
  }

  lemma AskedIs(pos: nat, size: nat, count: nat, bs: nat, reada: nat)
    requires bs > 0
    ensures var needed := Needed(pos, size, count, bs);
            var ahead := if needed < reada then reada else needed;
            Asked(pos, size, count, bs, reada)
            == if BlockOf(pos, bs) + ahead <= BlockOf(size, bs) then ahead
               else if BlockOf(pos, bs) <= BlockOf(size, bs) then BlockOf(size, bs) - BlockOf(pos, bs)
               else 0
  {
    hide Needed;
  }

  lemma TailIs(size: nat, bs: nat)
    requires bs > 0
    ensures Tail(size, bs) == BlockOf(size, bs) * bs
  {
  }

  // ---------- the ring ----------

  function Slot(from: nat, i: nat): nat { (from + i) % NBUF }

  /** The `cnt` slots from `bhe` on hold the blocks from `cb` on. */
  ghost predicate Slots(s: seq<nat>, bhe: nat, cnt: nat, cb: nat) {
    |s| == NBUF && bhe < NBUF && cnt <= NBUF &&
    forall i: nat :: i < cnt ==> s[Slot(bhe, i)] == cb + i
  }

  lemma PutSlot(s: seq<nat>, bhe: nat, cnt: nat, cb: nat)
    requires Slots(s, bhe, cnt, cb) && cnt < NBUF
    ensures Slots(s[Slot(bhe, cnt) := cb + cnt], bhe, cnt + 1, cb)
  {
  }

  lemma TakeSlot(s: seq<nat>, bhe: nat, cnt: nat, cb: nat)
    requires Slots(s, bhe, cnt, cb) && cnt > 0
    ensures s[bhe] == cb && Slots(s, Next(bhe), cnt - 1, cb + 1)
  {
    assert s[Slot(bhe, 0)] == cb + 0;
    forall i: nat | i < cnt - 1 ensures s[Slot(Slot(bhe, 1), i)] == cb + 1 + i {
      assert s[Slot(bhe, i + 1)] == cb + (i + 1);
    }
  }

  function Next(p: nat): nat { if p + 1 == NBUF then 0 else p + 1 }

  lemma SlotNext(bhe: nat, cnt: nat)
    requires bhe < NBUF
    ensures Slot(bhe, 0) == bhe && Slot(bhe, 1) == Next(bhe) < NBUF
    ensures Slot(bhe, cnt + 1) == Next(Slot(bhe, cnt)) < NBUF
    ensures cnt > 0 ==> Slot(Next(bhe), cnt - 1) == Slot(bhe, cnt)
    ensures cnt < NBUF ==> (Slot(bhe, cnt) == bhe <==> cnt == 0)
    ensures cnt + 1 == NBUF ==> Slot(bhe, cnt + 1) == bhe
  {
  }

  // ---------- the bytes ----------

  /** `out` holds the device bytes from `pos` on, `left` more are wanted, and the next of them, if
      any, is byte `offset` of block `cb`. */
  ghost predicate Copied(dev: seq<byte>, bs: nat, pos: nat, want: nat, cb: nat, offset: nat,
                         out: seq<byte>, left: nat) {
    && |out| + left == want && pos + want <= |dev|
    && out == dev[pos..pos + |out|]
    && offset < bs
    && (if left > 0 then pos + |out| == cb * bs + offset else pos + want <= cb * bs)
  }

  function Chars(left: nat, bs: nat, offset: nat): nat
    requires offset <= bs
  {
    if left < bs - offset then left else bs - offset
  }

  /** The bytes of a block. */
  function Block(dev: seq<byte>, bs: nat, k: nat): (b: seq<byte>)
    requires (k + 1) * bs <= |dev|
    ensures |b| == bs
  {
    MulNext(k, bs);
    dev[k * bs..k * bs + bs]
  }

  lemma SliceOfSlice(dev: seq<byte>, lo: nat, len: nat, offset: nat, n: nat)
    requires lo + len <= |dev| && offset + n <= len
    ensures dev[lo..lo + len][offset..offset + n] == dev[lo + offset..lo + offset + n]
  {
    var x, y := dev[lo..lo + len][offset..offset + n], dev[lo + offset..lo + offset + n];
    assert |x| == |y|;
    forall i | 0 <= i < |x| ensures x[i] == y[i] {
      assert x[i] == dev[lo..lo + len][offset + i];
    }
  }

  lemma Snoc(dev: seq<byte>, pos: nat, m: nat, n: nat, out: seq<byte>, more: seq<byte>)
    requires pos + m + n <= |dev| && out == dev[pos..pos + m] && more == dev[pos + m..pos + m + n]
    ensures out + more == dev[pos..pos + m + n]
  {
  }

  lemma CopyStep(dev: seq<byte>, bs: nat, pos: nat, want: nat, cb: nat, offset: nat, out: seq<byte>, left: nat)
    requires Copied(dev, bs, pos, want, cb, offset, out, left) && left > 0 && (cb + 1) * bs <= |dev|
    ensures var n := Chars(left, bs, offset);
            Copied(dev, bs, pos, want, cb + 1, 0, out + Block(dev, bs, cb)[offset..offset + n], left - n)
  {
    MulNext(cb, bs);
    var n := Chars(left, bs, offset);
    var at := cb * bs + offset;
    assert at == pos + |out| && at + n <= cb * bs + bs;
    SliceOfSlice(dev, cb * bs, bs, offset, n);
    Snoc(dev, pos, |out|, n, out, dev[at..at + n]);
  }

  /** While bytes are wanted the next block is one of those needed. */
  lemma Pending(dev: seq<byte>, bs: nat, pos: nat, count: nat, cb: nat, offset: nat, out: seq<byte>, left: nat)
    requires bs > 0 && left > 0
    requires Copied(dev, bs, pos, Wanted(pos, |dev|, count), cb, offset, out, left)
    ensures cb < pos / bs + Needed(pos, |dev|, count, bs)
  {
    var want, block, needed := Wanted(pos, |dev|, count), pos / bs, Needed(pos, |dev|, count, bs);
    DivMul(pos, bs);
    CeilFacts(want + pos % bs, bs);
    Distribute(block, needed, bs);
    if block + needed <= cb {
      MulMono(block + needed, cb, bs);
      assert false;
    }
  }

  /** Once none is wanted, all the blocks needed have been passed. */
  lemma Passed(dev: seq<byte>, bs: nat, pos: nat, count: nat, cb: nat, out: seq<byte>)
    requires bs > 0
    requires Copied(dev, bs, pos, Wanted(pos, |dev|, count), cb, 0, out, 0)
    ensures pos / bs + Needed(pos, |dev|, count, bs) <= cb
  {
    var want, block, needed := Wanted(pos, |dev|, count), pos / bs, Needed(pos, |dev|, count, bs);
    DivMul(pos, bs);
    CeilFacts(want + pos % bs, bs);
    Distribute(block, needed, bs);
    if cb + 1 <= block + needed {
      MulMono(cb + 1, block + needed, bs);
      MulNext(cb, bs);
      assert false;
    }
  }

  // ---------- the whole call ----------

  function Min(a: nat, b: nat): nat { if a < b then a else b }

  /** What the caller gets of `want` bytes from `pos` on, which lie in `needed` blocks from `b0` on, of
      which `asked` are asked for. */
  ghost predicate Outcome(dev: seq<byte>, bs: nat, pos: nat, want: nat, b0: nat, needed: nat, asked: nat,
                          env: Env, res: Result, out: seq<byte>) {
    var k := FirstBad(env, b0, b0 + Min(needed, asked));
    if want == 0 || asked == 0 then
      out == [] && res == Read(0)
    else if k < b0 + Min(needed, asked) then
      // a read error: everything before the block that failed
      pos + want <= |dev| &&
      if k == b0 then out == [] && res == Eio
      else pos < k * bs < pos + want && out == dev[pos..k * bs] && res == Read(|out|)
    else if asked < needed then
      res == Unfilled
    else
      pos + want <= |dev| && out == dev[pos..pos + want] && res == Read(want)
  }

  /** How many blocks a call cannot do without: those whose bytes it copies and the one that fails. */
  ghost function BlocksRead(env: Env, b0: nat, needed: nat, asked: nat): nat {
    var last := b0 + Min(needed, asked);
    var k := FirstBad(env, b0, last);
    if k < last then k + 1 - b0 else last - b0
  }

  /** Ask for blocks until one is at hand, the ring is full or none is left to ask for
      (fs/block_dev.c:225-247).  `cnt` counts the filled slots, which the source knows only as the
      distance from `bhe` to `bhb`. */
  method Fill(env: Env, buflist: array<nat>, bhb: nat, bhe: nat, cnt: nat, block: nat, blocks: nat,
              ghost cb: nat)
    returns (bhb': nat, cnt': nat, block': nat, blocks': nat)
    requires buflist.Length == NBUF
    requires Slots(buflist[..], bhe, cnt, cb) && bhe < NBUF && cnt < NBUF
    requires bhb == Slot(bhe, cnt) && block == cb + cnt
    modifies buflist
    ensures Slots(buflist[..], bhe, cnt', cb) && cnt' <= NBUF && bhb' == Slot(bhe, cnt') && block' == cb + cnt'
    ensures block <= block' && block' + blocks' == block + blocks
    ensures cnt' == 0 ==> blocks == 0
  {
    hide Slots, Slot;
    bhb', cnt', block', blocks' := bhb, cnt, block, blocks;
    var uptodate := true;
    while blocks' > 0
      invariant Slots(buflist[..], bhe, cnt', cb) && cnt' < NBUF && bhb' == Slot(bhe, cnt')
      invariant block' == cb + cnt' && block <= block' && block' + blocks' == block + blocks
    {
      ghost var was := buflist[..];
      SlotNext(bhe, cnt');
      if cnt' > 0 { SlotNext(bhe, cnt' - 1); }
      PutSlot(was, bhe, cnt', cb);
      buflist[bhb'] := block';
      assert buflist[..] == was[bhb' := block'];
      if !env.cached(block') { uptodate := false; }
      blocks', block', cnt' := blocks' - 1, block' + 1, cnt' + 1;
      bhb' := Next(bhb');
      if cnt' < NBUF { SlotNext(bhe, cnt'); }
      if uptodate || bhb' == bhe { break; }
    }
  }

  predicate NoneBad(env: Env, from: nat, upto: nat) { forall k: nat :: from <= k < upto ==> !Bad(env, k) }

  /** The state between two blocks: those before `cb` have been read and copied. */
  ghost predicate Between(dev: seq<byte>, bs: nat, env: Env, pos: nat, want: nat, b0: nat, cb: nat, offset: nat,
                          out: seq<byte>, left: nat) {
    && b0 <= cb && Copied(dev, bs, pos, want, cb, offset, out, left) && NoneBad(env, b0, cb)
    && (if cb == b0 then out == [] else offset == 0 && out != [])
  }

  lemma NextBlock(dev: seq<byte>, bs: nat, env: Env, pos: nat, want: nat, b0: nat, cb: nat, offset: nat,
                  out: seq<byte>, left: nat)
    requires Between(dev, bs, env, pos, want, b0, cb, offset, out, left)
    requires left > 0 && (cb + 1) * bs <= |dev| && !Bad(env, cb)
    ensures offset < bs && |out| + left == want && 0 < Chars(left, bs, offset) <= left
    ensures var n := Chars(left, bs, offset);
            Between(dev, bs, env, pos, want, b0, cb + 1, 0,
                    out + Block(dev, bs, cb)[offset..offset + n], left - n)
  {
    CopyStep(dev, bs, pos, want, cb, offset, out, left);
  }

  lemma RangeSnoc(b0: nat, n: nat)
    requires b0 <= n
    ensures Range(b0, n) + [n] == Range(b0, n + 1)
  {
  }

  lemma RangeJoin(b0: nat, m: nat, n: nat)
    requires b0 <= m <= n
    ensures Range(b0, m) + Range(m, n) == Range(b0, n)
  {
  }

  lemma EmptyRing(s: seq<nat>, cb: nat)
    requires |s| == NBUF
    ensures Slots(s, 0, 0, cb) && Slot(0, 0) == 0 && Range(cb, cb) == []
  {
  }

  /** Give the buffers that were read ahead back (fs/block_dev.c:280-284). */
  method Release(buflist: array<nat>, bhb: nat, bhe: nat, ghost cnt: nat, b0: nat, ghost nb: nat, puts: seq<nat>)
    returns (puts': seq<nat>)
    requires buflist.Length == NBUF
    requires Slots(buflist[..], bhe, cnt, nb) && bhe < NBUF && cnt < NBUF && bhb == Slot(bhe, cnt)
    requires b0 <= nb && puts == Range(b0, nb)
    ensures puts' == Range(b0, nb + cnt)
  {
    hide Slots, Slot, Range;
    puts' := puts;
    var e: nat := bhe;
    ghost var n: nat := 0;
    SlotNext(e, cnt);
    while e != bhb
      invariant n <= cnt && e < NBUF && Slots(buflist[..], e, cnt - n, nb + n) && bhb == Slot(e, cnt - n)
      invariant e == bhb <==> cnt == n
      invariant puts' == Range(b0, nb + n)
      decreases cnt - n
    {
      TakeSlot(buflist[..], e, cnt - n, nb + n);
      SlotNext(e, cnt - n);
      RangeSnoc(b0, nb + n);
      puts' := puts' + [buflist[e]];
      e, n := Next(e), n + 1;
      SlotNext(e, cnt - n);
    }
  }

  predicate OnDevice(size: nat, bs: nat, from: nat, upto: nat) {
    forall k: nat :: from <= k < upto ==> k * bs + bs <= size
  }

  lemma OnDeviceAt(size: nat, bs: nat, from: nat, upto: nat, k: nat)
    requires OnDevice(size, bs, from, upto) && from <= k < upto
    ensures (k + 1) * bs <= size
  {
    assert k * bs + bs <= size;
    MulNext(k, bs);
  }

  /** Both stages for all blocks (fs/block_dev.c:222-284).  `cb` is the block it ended at, `left` and
      `offset` what was still wanted then, and from where. */
  method Transfer(dev: seq<byte>, bs: nat, env: Env, pos: nat, want: nat, b0: nat, off: nat, asked: nat)
    returns (error: bool, unfilled: bool, out: seq<byte>, fpos: nat, gets: seq<nat>, puts: seq<nat>,
             ghost cb: nat, ghost offset: nat, ghost left: nat)
    requires 0 < want && Between(dev, bs, env, pos, want, b0, b0, off, [], want)
    requires OnDevice(|dev|, bs, b0, b0 + asked)
    ensures Between(dev, bs, env, pos, want, b0, cb, offset, out, left) && fpos == pos + |out| && cb <= b0 + asked
    ensures left == 0 <==> !error && !unfilled
    ensures error ==> !unfilled && cb < b0 + asked && Bad(env, cb)
    ensures unfilled ==> cb == b0 + asked
    ensures |gets| <= asked && gets == puts == Range(b0, b0 + |gets|)
    ensures (if error then cb + 1 else cb) <= b0 + |gets|
  {
    hide Slots, Slot, Range, Between, OnDevice;
    error, unfilled, out, fpos, gets, puts := false, false, [], pos, [], [];
    cb, left, offset := b0, want, off;
    var more: nat, from: nat, block: nat, blocks: nat := want, off, b0, asked;
    var buflist := new nat[NBUF](_ => 0);
    var bhb: nat, bhe: nat, cnt: nat, looks: nat := 0, 0, 0, 0;
    ghost var nb: nat := b0;
    EmptyRing(buflist[..], b0);
    while more > 0
      invariant Slots(buflist[..], bhe, cnt, nb) && bhe < NBUF && cnt < NBUF && bhb == Slot(bhe, cnt)
      invariant block == nb + cnt && block + blocks == b0 + asked && b0 <= cb && nb == if error then cb + 1 else cb
      invariant gets == Range(b0, block) && puts == Range(b0, nb)
      invariant Between(dev, bs, env, pos, want, b0, cb, offset, out, left) && fpos == pos + |out|
      invariant if error then more == 0 < left && Bad(env, cb) else more == left && from == offset
      decreases more
    {
      var was := block;
      bhb, cnt, block, blocks := Fill(env, buflist, bhb, bhe, cnt, block, blocks, cb);
      gets := gets + Range(was, block);
      RangeJoin(b0, was, block);
      if cnt == 0 { unfilled := true; return; }
      var again := true;
      ghost var start := more;
      while again
        invariant Slots(buflist[..], bhe, cnt, nb) && bhe < NBUF && cnt <= NBUF && bhb == Slot(bhe, cnt)
        invariant block == nb + cnt && b0 <= cb && nb == if error then cb + 1 else cb
        invariant puts == Range(b0, nb)
        invariant Between(dev, bs, env, pos, want, b0, cb, offset, out, left) && fpos == pos + |out|
        invariant if error then more == 0 < left && Bad(env, cb) else more == left && from == offset
        invariant if again then cnt > 0 && 0 < more <= start && !error else cnt < NBUF && more < start
        decreases again, more
      {
        TakeSlot(buflist[..], bhe, cnt, cb);
        SlotNext(bhe, cnt);
        RangeSnoc(b0, cb);
        OnDeviceAt(|dev|, bs, b0, b0 + asked, cb);
        var b := buflist[bhe];
        puts := puts + [b];
        bhe, cnt, nb := Next(bhe), cnt - 1, nb + 1;
        if Bad(env, b) {
          error, more := true, 0;
          break;
        }
        NextBlock(dev, bs, env, pos, want, b0, cb, offset, out, left);
        var chars := Chars(more, bs, from);
        out := out + Block(dev, bs, b)[from..from + chars];
        fpos, more, from := fpos + chars, more - chars, 0;
        cb, left, offset := cb + 1, more, 0;
        SlotNext(bhe, cnt);
        again := more > 0 && bhe != bhb && !env.busy(looks);
        looks := looks + 1;
      }
    }
    puts := Release(buflist, bhb, bhe, cnt, b0, nb, puts);
  }

  lemma AskedOnDevice(pos: nat, size: nat, count: nat, bs: nat, reada: nat)
    requires bs > 0
    ensures OnDevice(size, bs, pos / bs, pos / bs + Asked(pos, size, count, bs, reada))
  {
    var sb := size / bs;
    DivMul(size, bs);
    forall k: nat | k < sb ensures k * bs + bs <= size {
      MulMono(k + 1, sb, bs);
      MulNext(k, bs);
    }
  }

  lemma Begins(dev: seq<byte>, bs: nat, env: Env, pos: nat, count: nat)
    requires bs > 0 && Wanted(pos, |dev|, count) > 0
    ensures var want := Wanted(pos, |dev|, count);
            Between(dev, bs, env, pos, want, pos / bs, pos / bs, pos % bs, [], want)
  {
    DivMul(pos, bs);
  }

  lemma FirstBadIs(env: Env, from: nat, upto: nat, k: nat)
    requires from <= k <= upto && NoneBad(env, from, k) && (k < upto ==> Bad(env, k))
    ensures FirstBad(env, from, upto) == k
  {
  }

  /** The bytes before block `cb` when it is where a read error stops the call. */
  lemma Prefix(dev: seq<byte>, bs: nat, env: Env, pos: nat, want: nat, b0: nat, cb: nat, offset: nat,
               out: seq<byte>, left: nat)
    requires Between(dev, bs, env, pos, want, b0, cb, offset, out, left) && left > 0
    ensures var end := if cb == b0 then pos else cb * bs;
            pos <= end < pos + want <= |dev| && out == dev[pos..end]
  {
  }

  lemma Ends(dev: seq<byte>, bs: nat, env: Env, pos: nat, want: nat, b0: nat, needed: nat, asked: nat,
             cb: nat, offset: nat, out: seq<byte>, left: nat, error: bool, res: Result, got: nat)
    requires want > 0 && asked > 0 && cb <= b0 + asked
    requires Between(dev, bs, env, pos, want, b0, cb, offset, out, left)
    requires if left == 0 then b0 + needed <= cb else cb < b0 + needed
    requires error ==> left > 0 && cb < b0 + asked && Bad(env, cb)
    requires !error && left > 0 ==> cb == b0 + asked
    requires (if error then cb + 1 else cb) <= b0 + got
    requires res == if !error && left > 0 then Unfilled else if out == [] then Eio else Read(|out|)
    ensures Outcome(dev, bs, pos, want, b0, needed, asked, env, res, out)
    ensures BlocksRead(env, b0, needed, asked) <= got
  {
    hide FirstBad, NoneBad, Bad;
    var last := b0 + Min(needed, asked);
    if left == 0 {
      NoneBefore(env, b0, last, cb);
      FirstBadIs(env, b0, last, last);
    } else {
      FirstBadIs(env, b0, last, cb);
      if error { Prefix(dev, bs, env, pos, want, b0, cb, offset, out, left); }
    }
  }

  lemma Reached(dev: seq<byte>, bs: nat, env: Env, pos: nat, count: nat, cb: nat, offset: nat,
                out: seq<byte>, left: nat)
    requires bs > 0 && Wanted(pos, |dev|, count) > 0
    requires Between(dev, bs, env, pos, Wanted(pos, |dev|, count), pos / bs, cb, offset, out, left)
    ensures if left == 0 then pos / bs + Needed(pos, |dev|, count, bs) <= cb
            else cb < pos / bs + Needed(pos, |dev|, count, bs)
  {
    hide Wanted, Needed;
    if left == 0 {
      Passed(dev, bs, pos, count, cb, out);
    } else {
      Pending(dev, bs, pos, count, cb, offset, out, left);
    }
  }

  lemma NoneBefore(env: Env, from: nat, m: nat, n: nat)
    requires m <= n && NoneBad(env, from, n)
    ensures NoneBad(env, from, m)
  {
  }

  /** fs/block_dev.c:182-290.  `gets` and `puts` list the blocks in the order `getblk` and `brelse` see
      them. */
  method BlockRead(dev: seq<byte>, bs: nat, pos: nat, count: nat, reada: nat, env: Env)
    returns (res: Result, out: seq<byte>, fpos: nat, gets: seq<nat>, puts: seq<nat>)
    requires bs > 0
    ensures Outcome(dev, bs, pos, Wanted(pos, |dev|, count), pos / bs, Needed(pos, |dev|, count, bs),
                    Asked(pos, |dev|, count, bs, reada), env, res, out)
    ensures fpos == pos + |out|
    ensures gets == puts == Range(pos / bs, pos / bs + |gets|)
    ensures |gets| <= Asked(pos, |dev|, count, bs, reada)
    ensures Wanted(pos, |dev|, count) > 0 ==>
              BlocksRead(env, pos / bs, Needed(pos, |dev|, count, bs), Asked(pos, |dev|, count, bs, reada)) <= |gets|
  {
    hide Between, OnDevice, FirstBad, Needed, Asked;
    var left := Wanted(pos, |dev|, count);
    var blocks := Asked(pos, |dev|, count, bs, reada);
    if left == 0 || blocks == 0 {
      return Read(0), [], pos, [], [];
    }
    Begins(dev, bs, env, pos, count);
    AskedOnDevice(pos, |dev|, count, bs, reada);
    var error, unfilled;
    ghost var cb, offset, rest;
    error, unfilled, out, fpos, gets, puts, cb, offset, rest :=
      Transfer(dev, bs, env, pos, left, pos / bs, pos % bs, blocks);
    res := if unfilled then Unfilled else if out == [] then Eio else Read(|out|);
    Reached(dev, bs, env, pos, count, cb, offset, out, rest);
    Ends(dev, bs, env, pos, left, pos / bs, Needed(pos, |dev|, count, bs), blocks,
         cb, offset, out, rest, error, res, |gets|);
  }

  /** `Outcome` in terms of which of the blocks cannot be read. */
  lemma Decided(dev: seq<byte>, bs: nat, pos: nat, want: nat, b0: nat, needed: nat, asked: nat,
                env: Env, res: Result, out: seq<byte>)
    requires Outcome(dev, bs, pos, want, b0, needed, asked, env, res, out) && (want > 0 ==> needed > 0)
    ensures res.Unfilled? <==> want > 0 && 0 < asked < needed && NoneBad(env, b0, b0 + asked)
    ensures want > 0 && needed <= asked ==>
              && pos + |out| <= |dev| && out == dev[pos..pos + |out|] && |out| <= want
              && (|out| == want <==> NoneBad(env, b0, b0 + needed))
              && (res == Eio <==> Bad(env, b0))
  {
    hide Bad;
  }

  /** What a call promises: an empty slot is used exactly when the request starts in the whole blocks and
      runs past them with nothing unreadable on the way.  A request within the whole blocks reads a prefix
      of the bytes it wants, and all of them exactly when each block it needs can be read. */
  lemma ReadsTheDevice(dev: seq<byte>, bs: nat, pos: nat, count: nat, reada: nat, env: Env,
                       res: Result, out: seq<byte>)
    requires bs > 0
    requires Outcome(dev, bs, pos, Wanted(pos, |dev|, count), pos / bs, Needed(pos, |dev|, count, bs),
                     Asked(pos, |dev|, count, bs, reada), env, res, out)
    ensures var want, b0 := Wanted(pos, |dev|, count), pos / bs;
            && (res.Unfilled? <==> pos < Tail(|dev|, bs) < pos + want && NoneBad(env, b0, |dev| / bs))
            && (want > 0 && pos + want <= Tail(|dev|, bs) ==>
                 && pos + |out| <= |dev| && out == dev[pos..pos + |out|] && |out| <= want
                 && (|out| == want <==> NoneBad(env, b0, b0 + Needed(pos, |dev|, count, bs)))
                 && (res == Eio <==> Bad(env, b0)))
  {
    hide Outcome, Wanted, Asked, Needed, Tail, NoneBad, Bad;
    if Wanted(pos, |dev|, count) > 0 {
      AskedFacts(pos, |dev|, count, bs, reada);
      AskedIs(pos, |dev|, count, bs, reada);
    }
    Decided(dev, bs, pos, Wanted(pos, |dev|, count), pos / bs, Needed(pos, |dev|, count, bs),
            Asked(pos, |dev|, count, bs, reada), env, res, out);
  }

  lemma WholeTail(pos: nat, size: nat, count: nat, bs: nat)
    requires bs > 0 && size % bs == 0
    ensures Tail(size, bs) == size
    ensures Wanted(pos, size, count) > 0 ==> pos + Wanted(pos, size, count) <= size
  {
    DivMul(size, bs);
  }

  /** On a device of a whole number of blocks no empty slot is ever used: the call delivers all the bytes up
      to `count` or the end of the device, or those before the first block that cannot be read. */
  lemma WholeDevice(dev: seq<byte>, bs: nat, pos: nat, count: nat, reada: nat, env: Env, res: Result, out: seq<byte>)
    requires bs > 0 && |dev| % bs == 0
    requires Outcome(dev, bs, pos, Wanted(pos, |dev|, count), pos / bs, Needed(pos, |dev|, count, bs),
                     Asked(pos, |dev|, count, bs, reada), env, res, out)
    ensures var want := Wanted(pos, |dev|, count);
            && !res.Unfilled?
            && (want > 0 ==>
                 && pos + |out| <= |dev| && out == dev[pos..pos + |out|] && |out| <= want
                 && (|out| == want <==> NoneBad(env, pos / bs, pos / bs + Needed(pos, |dev|, count, bs))))
  {
    ReadsTheDevice(dev, bs, pos, count, reada, env, res, out);
    WholeTail(pos, |dev|, count, bs);
    hide Outcome, Needed, Asked, Tail, NoneBad;
  }

  /** A device of three kilobytes in blocks of two: reading it all uses an empty slot. */
  lemma HalfABlockLeft(dev: seq<byte>, env: Env, res: Result, out: seq<byte>)
    requires |dev| == 3072 && !Bad(env, 0)
    requires Outcome(dev, 2048, 0, Wanted(0, 3072, 3072), 0, Needed(0, 3072, 3072, 2048),
                     Asked(0, 3072, 3072, 2048, 0), env, res, out)
    ensures res == Unfilled
  {
    ReadsTheDevice(dev, 2048, 0, 3072, 0, env, res, out);
  }
}
