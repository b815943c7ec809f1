/** One election of `refill_freelist` and what it uses (fs/buffer.c:548-596, 680-713, 1429-1468); the whole call is in
    `RefillCall`. */
module RefillFreelist {
  import opened Base
  import opened Lists
  import opened RingWalk
  import opened BufferCache
  import BufferTasks

  const PAGE_SIZE: nat := 4096

  /** The cache and what else is looked at: the buffers of a buffer's page in the order of `b_this_page`,
      whether the page is shared, and whether the buffer was used lately or is waited for. */
  datatype World = World(c: Cache, page: Bh -> seq<Bh>, shared: Bh -> bool, touched: Bh -> bool, time: Bh -> nat)

  /** A page is cut into buffers of one size. */
  ghost predicate PageOk(w: World, b: Bh)
    requires b in w.c.bufs
  {
    var p := w.page(b);
    && p != [] && p[0] == b && NoDup(p)
    && forall a :: a in p ==> a in w.c.bufs && w.c.bufs[a].size == w.c.bufs[b].size &&
                              forall x :: x in p <==> x in w.page(a)
  }

  ghost predicate WorldOk(w: World) {
    Ok(w.c, {}) && forall b :: b in w.c.bufs ==> PageOk(w, b)
  }

  // ---------- freeing a page ----------

  /** `b` is where the walk along ring `l` stands: on the ring, or nowhere because it is empty. */
  ghost predicate Stands(c: Cache, l: nat, b: Option<Bh>)
    requires l < |c.lru|
  {
    if b.Some? then b.value in c.lru[l] else c.lru[l] == []
  }

  /** What the walk meets from there on. */
  ghost function Course(c: Cache, l: nat, b: Option<Bh>): seq<Bh>
    requires l < |c.lru| && Stands(c, l, b)
  {
    if b.Some? then Follow(c.lru[l], b.value) else []
  }

  lemma RingMembers(c: Cache, l: nat, b: Bh)
    requires Ok(c, {}) && l < NR_LIST
    ensures b in c.lru[l] <==> b in c.bufs && !IsFree(c.bufs[b]) && c.bufs[b].list == l
    ensures NoDup(c.lru[l]) && Shape(c)
  {
    assert LruOk(c, {}, l);
  }

  lemma DropRing(c: Cache, l: nat, p: Bh)
    requires Ok(c, {}) && l < NR_LIST && p in c.bufs
    ensures Shape(c) && OkBuf(c.bufs[p]) && OnItsRing(c, p) && Drop(c, p).lru[l] == Without(c.lru[l], p)
  {
    OnRing(c, {}, p);
    RingMembers(c, l, p);
    hide Ok;
    if p !in c.lru[l] { WithoutAbsent(c.lru[l], p); }
  }

  /** One buffer of the page (fs/buffer.c:1452-1462): the walk goes on as if it had never been there. */
  method DropOne(c: Cache, l: nat, p: Bh, at: Option<Bh>) returns (c': Cache, at': Option<Bh>)
    requires Ok(c, {}) && l < NR_LIST && p in c.bufs && Unused(c.bufs[p]) && Stands(c, l, at)
    ensures Ok(c', {}) && Shape(c') && c'.bufs == c.bufs - {p} && Stands(c', l, at')
    ensures Course(c', l, at') == Without(Course(c, l, at), p)
    ensures BufferTasks.Via(c, c')
  {
    hide Ok, Drop, Follow;
    DropRing(c, l, p);
    DropOk(c, p);
    DropBufs(c, p);
    RingMembers(c, l, p);
    at' := at;
    if at == Some(p) {
      var q := PrevFree(c.lru[l], p);
      AloneOnRing(c.lru[l], p);
      at' := if q == p then None else Some(q);
      if q != p { FollowWithoutSelf(c.lru[l], p); } else { OnlyOne(p); }
    } else if at.Some? {
      FollowWithout(c.lru[l], at.value, p);
    }
    c' := Drop(c, p);
    RingMembers(c', l, p);
    DropVia(c, p);
  }

  lemma DropVia(c: Cache, p: Bh)
    requires Ok(c, {}) && Shape(c) && p in c.bufs && OkBuf(c.bufs[p]) && OnItsRing(c, p) && Unused(c.bufs[p])
    ensures BufferTasks.Via(c, Drop(c, p))
  {
    BufferTasks.ViaOne(c, BufferTasks.DropIt(p), Drop(c, p));
  }

  lemma DropBufs(c: Cache, p: Bh)
    requires Shape(c) && p in c.bufs && OkBuf(c.bufs[p]) && OnItsRing(c, p)
    ensures Drop(c, p).bufs == c.bufs - {p}
  {
  }

  lemma OnlyOne(p: Bh)
    ensures Follow([p], p) == [p] && Without([p], p) == []
  {
  }

  ghost function SetOf(q: seq<Bh>): set<Bh> { set b | b in q }

  lemma PagesLeft(w: World, b: Bh, c: Cache)
    requires WorldOk(w) && b in w.c.bufs && Ok(c, {}) && c.bufs == w.c.bufs - SetOf(w.page(b))
    ensures WorldOk(w.(c := c))
  {
    hide Ok;
    var w' := w.(c := c);
    forall a | a in c.bufs ensures PageOk(w', a) {
      assert PageOk(w, a) && PageOk(w, b);
      forall x | x in w.page(a) ensures x !in w.page(b) {
        // otherwise the two pages are one, and `a` is gone
        assert a in w.page(a) && a in w.page(x);
        assert x in w.page(b) ==> a in w.page(b);
      }
    }
  }

  /** A buffer in the way of freeing its page. */
  predicate Holds(w: World, a: Bh)
    requires a in w.c.bufs
  {
    !Unused(w.c.bufs[a]) || w.touched(a)
  }

  ghost predicate Freeable(w: World, b: Bh)
    requires b in w.c.bufs && PageOk(w, b)
  {
    forall a :: a in w.page(b) ==> !Holds(w, a)
  }

  /** `try_to_free_buffer` for a buffer on ring `l`: the page goes exactly when nothing on it is in the way.
      `at` is where the walk goes on from. */
  method TryToFree(w: World, l: nat, b: Bh) returns (w': World, at: Option<Bh>)
    requires WorldOk(w) && l < NR_LIST && b in w.c.lru[l] && b in w.c.bufs
    ensures WorldOk(w') && Shape(w'.c) && w' == w.(c := w'.c) && Stands(w'.c, l, at) && l < |w.c.lru|
    ensures BufferTasks.Via(w.c, w'.c)
    ensures if PageOk(w, b) && Freeable(w, b)
            then && w'.c.bufs == w.c.bufs - SetOf(w.page(b))
                 && Course(w'.c, l, at) == WithoutAll(Follow(w.c.lru[l], b), w.page(b))
            else w' == w && at == Some(b)
  {
    hide Ok, Course, Stands, PageOk, WithoutAll, Follow, BufferTasks.Via;
    w', at := w, Some(b);
    BufferTasks.ViaNone(w.c);
    RingMembers(w.c, l, b);
    var page := w.page(b);
    OnPage(w, b);
    assert Stands(w.c, l, at) by { StandsOn(w.c, l, b); }
    var k := 0;
    while k < |page|
      invariant k <= |page| && forall j :: 0 <= j < k ==> !Holds(w, page[j])
    {
      var x := w.c.bufs[page[k]];
      if x.count != 0 || x.prot || x.dirty || x.locked || w.touched(page[k]) {
        assert page[k] in page && Holds(w, page[k]);
        return;
      }
      k := k + 1;
    }
    var c := w.c;
    c, at := DropPage(w, l, b, page);
    PagesLeft(w, b, c);
    w' := w.(c := c);
  }

  lemma StandsOn(c: Cache, l: nat, b: Bh)
    requires l < |c.lru| && b in c.lru[l]
    ensures Stands(c, l, Some(b)) && Course(c, l, Some(b)) == Follow(c.lru[l], b)
  {
  }

  lemma OnPage(w: World, b: Bh)
    requires WorldOk(w) && b in w.c.bufs
    ensures PageOk(w, b) && NoDup(w.page(b)) && forall i :: 0 <= i < |w.page(b)| ==> w.page(b)[i] in w.c.bufs
  {
    hide Ok;
    assert PageOk(w, b);
  }

  lemma OneMore(page: seq<Bh>, k: nat, ring: seq<Bh>)
    requires k < |page|
    ensures WithoutAll(ring, page[..k + 1]) == Without(WithoutAll(ring, page[..k]), page[k])
  {
    assert page[..k + 1][..k] == page[..k];
  }

  lemma Minus(bufs: map<Bh, Buf>, page: seq<Bh>, k: nat)
    requires k < |page|
    ensures bufs - SetOf(page[..k + 1]) == (bufs - SetOf(page[..k])) - {page[k]}
  {
    assert page[..k + 1] == page[..k] + [page[k]];
  }

  lemma NoneOut(bufs: map<Bh, Buf>, page: seq<Bh>, ring: seq<Bh>)
    ensures bufs - SetOf(page[..0]) == bufs && WithoutAll(ring, page[..0]) == ring
  {
  }

  lemma NotBefore(page: seq<Bh>, k: nat)
    requires NoDup(page) && k < |page|
    ensures page[k] !in SetOf(page[..k])
  {
  }

  /** All the buffers of the page, one after the other. */
  method DropPage(w: World, l: nat, b: Bh, page: seq<Bh>) returns (c: Cache, at: Option<Bh>)
    requires Ok(w.c, {}) && l < NR_LIST && Shape(w.c) && b in w.c.lru[l]
    requires NoDup(page) && forall i :: 0 <= i < |page| ==> page[i] in w.c.bufs && Unused(w.c.bufs[page[i]])
    ensures Ok(c, {}) && Shape(c) && c.bufs == w.c.bufs - SetOf(page) && Stands(c, l, at)
    ensures Course(c, l, at) == WithoutAll(Follow(w.c.lru[l], b), page)
    ensures BufferTasks.Via(w.c, c)
  {
    hide Ok, Course, Stands, Follow, BufferTasks.Via, Unused, NoDup, WithoutAll, Without, SetOf;
    c, at := w.c, Some(b);
    BufferTasks.ViaNone(c);
    StandsOn(c, l, b);
    var k := 0;
    NoneOut(w.c.bufs, page, Follow(w.c.lru[l], b));
    while k < |page|
      invariant k <= |page| && Ok(c, {}) && c.bufs == w.c.bufs - SetOf(page[..k])
      invariant Shape(c) && Stands(c, l, at) && Course(c, l, at) == WithoutAll(Follow(w.c.lru[l], b), page[..k])
      invariant BufferTasks.Via(w.c, c)
    {
      NotBefore(page, k);
      ghost var d := c;
      c, at := DropOne(c, l, page[k], at);
      BufferTasks.ViaBoth(w.c, d, c);
      OneMore(page, k, Follow(w.c.lru[l], b));
      Minus(w.c.bufs, page, k);
      k := k + 1;
    }
    assert page[..k] == page;
  }

  // ---------- candidates ----------

  predicate Reclaimable(w: World, b: Bh, size: nat)
    requires b in w.c.bufs
  {
    CanReclaim(w.c.bufs[b], size) && !w.shared(b)
  }

  /** The buffers of the wanted size are all still there, as they were. */
  ghost predicate Keeps(w: World, w': World, size: nat) {
    && w' == w.(c := w'.c) && BufferTasks.Via(w.c, w'.c)
    && (forall b :: b in w'.c.bufs ==> b in w.c.bufs && w'.c.bufs[b] == w.c.bufs[b])
    && (forall b :: b in w.c.bufs && w.c.bufs[b].size == size ==> b in w'.c.bufs)
  }

  const LOOKAHEAD: nat := 7

  /** A buffer on ring `l` that the search does not want to wait for. */
  predicate Locked(w: World, l: nat, b: Bh, size: nat)
    requires b in w.c.bufs
  {
    var x := w.c.bufs[b];
    x.size == size && x.locked && !IsFree(x) && x.list == l && (l == BUF_LOCKED || l == BUF_LOCKED1)
  }

  /** Of the buffers in `scope` on ring `l`, those that can be reclaimed are all among the first `n` from `b` on. */
  ghost predicate Ahead(w: World, l: nat, size: nat, scope: set<Bh>, b: Option<Bh>, n: nat)
    requires l < |w.c.lru| && (b.Some? ==> b.value in w.c.lru[l])
  {
    forall x :: x in scope && x in w.c.lru[l] && x in w.c.bufs && Reclaimable(w, x, size) ==>
      b.Some? && x in Front(Round(w.c.lru[l], b.value), n)
  }

  /** The first `n` of ring `l` from `b` on. */
  ghost function Scope(w: World, l: nat, b: Option<Bh>, n: nat): set<Bh>
    requires l < |w.c.lru| && (b.Some? ==> b.value in w.c.lru[l])
  {
    if b.Some? then SetOf(Front(Round(w.c.lru[l], b.value), n)) else {}
  }

  /** The search moves on from a buffer that cannot be reclaimed. */
  lemma MoveOn(w: World, l: nat, size: nat, scope: set<Bh>, b: Bh, n: nat)
    requires l < |w.c.lru| && NoDup(w.c.lru[l]) && b in w.c.lru[l] && n > 0
    requires Ahead(w, l, size, scope, Some(b), n) && (b in w.c.bufs ==> !Reclaimable(w, b, size))
    ensures Ahead(w, l, size, scope, Some(NextFree(w.c.lru[l], b)), n - 1)
  {
    hide Reclaimable;
    var ring := w.c.lru[l];
    FollowNext(ring, b);
    var g := Round(ring, b);
    forall x | x in Front(g, n) && x != b ensures x in Front(g[1..] + [b], n - 1) {
      var i :| 0 <= i < |Front(g, n)| && Front(g, n)[i] == x;
      assert g[i] == x && i > 0;
      assert (g[1..] + [b])[i - 1] == x;
      assert Front(g[1..] + [b], n - 1)[i - 1] == x;
    }
  }

  /** The search moves on from a buffer whose page was freed. */
  lemma MoveOnFreed(w: World, w': World, l: nat, size: nat, scope: set<Bh>, b: Bh, n: nat, page: seq<Bh>, at: Bh)
    requires l < |w.c.lru| == |w'.c.lru| && NoDup(w.c.lru[l]) && NoDup(w'.c.lru[l]) && b in w.c.lru[l] && n > 0
    requires at in w'.c.lru[l] && Follow(w'.c.lru[l], at) == WithoutAll(Follow(w.c.lru[l], b), page)
    requires w' == w.(c := w'.c) && w'.c.bufs == w.c.bufs - SetOf(page) && b in page
    requires forall x :: x in w'.c.lru[l] ==> x in w'.c.bufs && x in w.c.lru[l]
    requires Ahead(w, l, size, scope, Some(b), n)
    ensures Ahead(w', l, size, scope, Some(NextFree(w'.c.lru[l], at)), n - 1)
  {
    hide Round, Follow, WithoutAll, NoDup, NextFree;
    var ring := w.c.lru[l];
    FollowNext(ring, b);
    FollowNext(w'.c.lru[l], at);
    var g := Round(ring, b);
    forall x | x in scope && x in w'.c.lru[l] && x in w'.c.bufs && Reclaimable(w', x, size)
      ensures x in Front(Follow(w'.c.lru[l], at), n - 1)
    {
      assert x in Front(g, n) && x != b && x !in page;
      var i :| 0 <= i < |Front(g, n)| && Front(g, n)[i] == x;
      assert g[i] == x && i > 0;
      assert (g[1..] + [b])[i - 1] == x;
      assert Front(g[1..] + [b], n - 1)[i - 1] == x;
      WithoutAllFront(g[1..] + [b], page, n - 1, x);
    }
  }

  /** fs/buffer.c:564-596.  The candidate is the first buffer that can be reclaimed among the next `len` of the
      ring, and there is none only if none of them can be; unless the search gives up, having met LOOKAHEAD
      locked buffers (`met`) without one of another size in between. */
  method FindCandidate(w: World, l: nat, from: Option<Bh>, len: nat, size: nat)
    returns (w': World, r: Option<Bh>, len': nat, gaveUp: bool, ghost met: seq<Bh>)
    requires WorldOk(w) && l < NR_LIST && (from.Some? ==> from.value in w.c.lru[l])
    ensures WorldOk(w') && Keeps(w, w', size) && Shape(w.c) && Shape(w'.c) && len' <= len
    ensures r.Some? ==> len' > 0 && r.value in w'.c.lru[l] && r.value in w'.c.bufs && Reclaimable(w', r.value, size)
    ensures !gaveUp ==> Ahead(w', l, size, Scope(w, l, from, len), r, len')
    ensures gaveUp ==> r.None? && |met| == LOOKAHEAD && forall b :: b in met ==> b in w'.c.bufs && Locked(w', l, b, size)
  {
    hide Ok, PageOk, Round, Follow, Locked;
    w', r, len', gaveUp, met := w, None, len, false, [];
    RingMembers(w.c, l, 0);
    KeepsAll(w, size);
    if from.None? { return; }
    var bh, lookahead := from.value, LOOKAHEAD;
    ghost var scope := Scope(w, l, from, len);
    while len' > 0
      invariant WorldOk(w') && Keeps(w, w', size) && Shape(w'.c) && bh in w'.c.lru[l] && len' <= len
      invariant Ahead(w', l, size, scope, Some(bh), len')
      invariant 0 < lookahead == LOOKAHEAD - |met|
      invariant forall b :: b in met ==> b in w'.c.bufs && Locked(w', l, b, size)
      decreases len'
    {
      RingMembers(w'.c, l, bh);
      var x := w'.c.bufs[bh];
      if x.size != size {
        ghost var before := w';
        var at;
        w', at := TryToFree(w', l, bh);
        KeepsMore(w, before, w', bh, size);
        met := [];
        if at.None? {
          assert Ahead(w', l, size, scope, None, len') by { AheadNowhere(w', l, size, scope, len'); }
          return;
        }
        GoOn(before, w', l, size, scope, bh, len', at.value);
        bh, lookahead := at.value, LOOKAHEAD;
      } else {
        if x.locked && (x.list == BUF_LOCKED || x.list == BUF_LOCKED1) {
          lookahead := lookahead - 1;
          met := met + [bh];
          assert Locked(w', l, bh, size) by { IsLocked(w', l, bh, size); }
          if lookahead == 0 {
            len', gaveUp := 0, true;
            return;
          }
        } else if Reclaimable(w', bh, size) {
          r := Some(bh);
          return;
        }
        MoveOn(w', l, size, scope, bh, len');
      }
      bh, len' := NextFree(w'.c.lru[l], bh), len' - 1;
    }
    AheadNothing(w', l, size, scope, bh);
  }

  lemma IsLocked(w: World, l: nat, b: Bh, size: nat)
    requires b in w.c.bufs && w.c.bufs[b].size == size && w.c.bufs[b].locked && w.c.bufs[b].list == l
    requires !IsFree(w.c.bufs[b])
    requires l == BUF_LOCKED || l == BUF_LOCKED1
    ensures Locked(w, l, b, size)
  {
  }

  lemma AheadNowhere(w: World, l: nat, size: nat, scope: set<Bh>, n: nat)
    requires l < |w.c.lru| && w.c.lru[l] == []
    ensures Ahead(w, l, size, scope, None, n)
  {
  }

  lemma AheadNone(w: World, l: nat, size: nat, scope: set<Bh>, n: nat)
    requires l < |w.c.lru| && Ahead(w, l, size, scope, None, n)
    ensures Ahead(w, l, size, scope, None, 0)
  {
  }

  lemma AheadNothing(w: World, l: nat, size: nat, scope: set<Bh>, b: Bh)
    requires l < |w.c.lru| && b in w.c.lru[l] && Ahead(w, l, size, scope, Some(b), 0)
    ensures Ahead(w, l, size, scope, None, 0)
  {
    assert Front(Round(w.c.lru[l], b), 0) == [];
  }

  /** After `try_to_free_buffer`, whether or not the page went. */
  lemma GoOn(w: World, w': World, l: nat, size: nat, scope: set<Bh>, b: Bh, n: nat, at: Bh)
    requires WorldOk(w) && WorldOk(w') && l < NR_LIST && b in w.c.lru[l] && b in w.c.bufs && n > 0
    requires w.c.bufs[b].size != size && w' == w.(c := w'.c) && at in w'.c.lru[l]
    requires if PageOk(w, b) && Freeable(w, b)
             then && w'.c.bufs == w.c.bufs - SetOf(w.page(b))
                  && Follow(w'.c.lru[l], at) == WithoutAll(Follow(w.c.lru[l], b), w.page(b))
             else w' == w && at == b
    requires Ahead(w, l, size, scope, Some(b), n)
    ensures Ahead(w', l, size, scope, Some(NextFree(w'.c.lru[l], at)), n - 1)
  {
    hide Ok, Ahead, Follow, WithoutAll;
    RingMembers(w.c, l, b);
    RingMembers(w'.c, l, at);
    if PageOk(w, b) && Freeable(w, b) {
      forall x | x in w'.c.lru[l] ensures x in w'.c.bufs && x in w.c.lru[l] {
        RingMembers(w.c, l, x);
        RingMembers(w'.c, l, x);
      }
      MoveOnFreed(w, w', l, size, scope, b, n, w.page(b), at);
    } else {
      MoveOn(w, l, size, scope, b, n);
    }
  }

  lemma KeepsMore(w: World, w1: World, w2: World, b: Bh, size: nat)
    requires WorldOk(w1) && Keeps(w, w1, size) && b in w1.c.bufs && w1.c.bufs[b].size != size && w2 == w1.(c := w2.c)
    requires w2.c.bufs == w1.c.bufs || w2.c.bufs == w1.c.bufs - SetOf(w1.page(b))
    requires BufferTasks.Via(w1.c, w2.c)
    ensures Keeps(w, w2, size)
  {
    hide Ok, BufferTasks.Via;
    BufferTasks.ViaBoth(w.c, w1.c, w2.c);
    assert PageOk(w1, b);
  }

  lemma KeepsAll(w: World, size: nat)
    ensures Keeps(w, w, size)
  {
    BufferTasks.ViaNone(w.c);
  }

  // ---------- the election ----------

  const UINT_MAX: nat := 0xffff_ffff

  /** A candidate of ring `l`. */
  ghost predicate Candidate(w: World, l: nat, size: nat, b: Option<Bh>, len: nat) {
    b.Some? ==>
      len > 0 && l < |w.c.lru| && b.value in w.c.lru[l] && b.value in w.c.bufs && Reclaimable(w, b.value, size)
  }

  /** Why ring `l` has no candidate: nothing on it can be reclaimed, or a buffer of the size is locked. */
  ghost predicate NoneOn(w: World, l: nat, size: nat) {
    || (forall b :: b in w.c.bufs && !IsFree(w.c.bufs[b]) && w.c.bufs[b].list == l ==> !Reclaimable(w, b, size))
    || SomeLocked(w, l, size)
  }

  lemma CandidateKept(w: World, w': World, l: nat, size: nat, b: Option<Bh>, len: nat)
    requires WorldOk(w) && WorldOk(w') && Keeps(w, w', size) && l < NR_LIST && Candidate(w, l, size, b, len)
    ensures Candidate(w', l, size, b, len)
    ensures NoneOn(w, l, size) ==> NoneOn(w', l, size)
  {
    hide Ok, PageOk;
    if b.Some? {
      RingMembers(w.c, l, b.value);
      RingMembers(w'.c, l, b.value);
    }
    if SomeLocked(w, l, size) { KeptLocked(w, w', l, size); }
  }

  lemma KeepsTrans(w: World, w1: World, w2: World, size: nat)
    requires Keeps(w, w1, size) && Keeps(w1, w2, size)
    ensures Keeps(w, w2, size)
  {
    hide BufferTasks.Via;
    BufferTasks.ViaBoth(w.c, w1.c, w2.c);
  }

  lemma IsCandidate(w: World, l: nat, size: nat, r: Option<Bh>, n: nat)
    requires WorldOk(w) && l < NR_LIST
    requires r.Some? ==> n > 0 && r.value in w.c.lru[l] && r.value in w.c.bufs && Reclaimable(w, r.value, size)
    ensures Candidate(w, l, size, r, n)
  {
    hide Ok, PageOk;
    RingMembers(w.c, l, 0);
  }

  /** A search of the whole ring that finds nothing. */
  lemma NothingFound(w: World, w': World, l: nat, size: nat, from: Option<Bh>, n: nat)
    requires WorldOk(w) && WorldOk(w') && Keeps(w, w', size) && l < NR_LIST
    requires Shape(w.c) && Shape(w'.c) && from == (if w.c.lru[l] == [] then None else Some(w.c.lru[l][0]))
    requires Ahead(w', l, size, Scope(w, l, from, |w.c.lru[l]|), None, n)
    ensures NoneOn(w', l, size)
  {
    hide Ok, PageOk, Reclaimable;
    var ring := w.c.lru[l];
    if ring != [] {
      assert Round(ring, ring[0]) == ring;
      assert Front(ring, |ring|) == ring;
    }
    forall b | b in w'.c.bufs && !IsFree(w'.c.bufs[b]) && w'.c.bufs[b].list == l ensures !Reclaimable(w', b, size) {
      RingMembers(w.c, l, b);
      RingMembers(w'.c, l, b);
    }
  }

  /** One candidate from each ring that is not of dirty buffers (fs/buffer.c:682-685). */
  method Candidates(w: World, size: nat) returns (w': World, cand: seq<Option<Bh>>, len: seq<nat>)
    requires WorldOk(w)
    ensures WorldOk(w') && Keeps(w, w', size)
    ensures |cand| == |len| == BUF_DIRTY
    ensures forall i :: 0 <= i < BUF_DIRTY ==>
              Candidate(w', i, size, cand[i], len[i]) && (cand[i].None? ==> NoneOn(w', i, size))
  {
    hide Ok, PageOk, Keeps, Candidate, Ahead, Scope, Locked, SomeLocked;
    w', cand, len := w, [], [];
    KeepsAll(w, size);
    for i := 0 to BUF_DIRTY
      invariant WorldOk(w') && Keeps(w, w', size) && |cand| == |len| == i
      invariant forall j :: 0 <= j < i ==>
                  Candidate(w', j, size, cand[j], len[j]) && (cand[j].None? ==> NoneOn(w', j, size))
    {
      ghost var before := w';
      RingMembers(w'.c, i, 0);
      var ring := w'.c.lru[i];
      var n: nat := |ring|;
      var from: Option<Bh> := if ring == [] then None else Some(ring[0]);
      var r, gaveUp;
      ghost var met;
      w', r, n, gaveUp, met := FindCandidate(w', i, from, n, size);
      KeepsTrans(w, before, w', size);
      forall j | 0 <= j < i
        ensures Candidate(w', j, size, cand[j], len[j]) && (cand[j].None? ==> NoneOn(w', j, size))
      {
        CandidateKept(before, w', j, size, cand[j], len[j]);
      }
      IsCandidate(w', i, size, r, n);
      if r.None? {
        if gaveUp { LockedMet(w', i, size, met); } else { NothingFound(before, w', i, size, from, n); }
      }
      cand, len := cand + [r], len + [n];
    }
  }

  /** The oldest candidate wins (fs/buffer.c:689-696). */
  method Winner(w: World, cand: seq<Option<Bh>>) returns (win: Option<nat>)
    ensures win.Some? ==> win.value < |cand| && cand[win.value].Some?
    ensures forall i :: 0 <= i < |cand| && cand[i].Some? ==>
              w.time(cand[i].value) >= if win.Some? then w.time(cand[win.value].value) else UINT_MAX
  {
    var best := UINT_MAX;
    win := None;
    for i := 0 to |cand|
      invariant win.Some? ==> win.value < i && cand[win.value].Some? && best == w.time(cand[win.value].value)
      invariant win.None? ==> best == UINT_MAX
      invariant forall j :: 0 <= j < i && cand[j].Some? ==> w.time(cand[j].value) >= best
    {
      if cand[i].Some? && w.time(cand[i].value) < best {
        best, win := w.time(cand[i].value), Some(i);
      }
    }
  }

  // ---------- reclaiming ----------

  function Freed(x: Buf): Buf { x.(key := x.key.(dev := B_FREE)) }

  lemma Reclaimed(w: World, b: Bh)
    requires WorldOk(w) && b in w.c.bufs && Unused(w.c.bufs[b])
    ensures Shape(w.c) && OkBuf(w.c.bufs[b]) && OnItsRing(w.c, b) && WorldOk(w.(c := Reclaim(w.c, b)))
    ensures Reclaim(w.c, b).bufs == w.c.bufs[b := Freed(w.c.bufs[b])]
  {
    hide Ok, Reclaim;
    OnRing(w.c, {}, b);
    ReclaimOk(w.c, b);
    var w' := w.(c := Reclaim(w.c, b));
    forall a | a in w'.c.bufs ensures PageOk(w', a) {
      assert PageOk(w, a);
    }
  }

  lemma ReclaimVia(c: Cache, b: Bh)
    requires Ok(c, {}) && Shape(c) && b in c.bufs && OkBuf(c.bufs[b]) && OnItsRing(c, b)
    requires !IsFree(c.bufs[b]) && Unused(c.bufs[b])
    ensures BufferTasks.Via(c, Reclaim(c, b))
  {
    BufferTasks.ViaOne(c, BufferTasks.ReclaimIt(b), Reclaim(c, b));
  }

  lemma ReclaimRing(c: Cache, l: nat, b: Bh)
    requires Ok(c, {}) && l < NR_LIST && b in c.bufs && b in c.lru[l]
    ensures Shape(c) && OkBuf(c.bufs[b]) && OnItsRing(c, b) && Reclaim(c, b).lru[l] == Without(c.lru[l], b)
    ensures NoDup(c.lru[l])
  {
    OnRing(c, {}, b);
    RingMembers(c, l, b);
  }

  /** The buffers in `moved`, and no others, went from the LRU rings to the free ring; each could be reclaimed.
      The rest is as it was, but for pages of other sizes that were freed. */
  ghost predicate Gave(w: World, w': World, size: nat, moved: seq<Bh>) {
    && w' == w.(c := w'.c) && NoDup(moved) && BufferTasks.Via(w.c, w'.c)
    && (forall b :: b in moved ==>
          && b in w.c.bufs && !IsFree(w.c.bufs[b]) && Reclaimable(w, b, size)
          && b in w'.c.bufs && w'.c.bufs[b] == Freed(w.c.bufs[b]))
    && (forall b :: b in w'.c.bufs && b !in moved ==> b in w.c.bufs && w'.c.bufs[b] == w.c.bufs[b])
    && (forall b :: b in w.c.bufs && w.c.bufs[b].size == size ==> b in w'.c.bufs)
  }

  lemma GaveKeeps(w: World, w1: World, w2: World, size: nat, moved: seq<Bh>)
    requires Gave(w, w1, size, moved) && Keeps(w1, w2, size)
    ensures Gave(w, w2, size, moved)
  {
    hide BufferTasks.Via;
    BufferTasks.ViaBoth(w.c, w1.c, w2.c);
  }

  lemma GaveOne(w: World, w1: World, w2: World, size: nat, moved: seq<Bh>, b: Bh)
    requires Gave(w, w1, size, moved) && w2 == w1.(c := w2.c)
    requires b in w1.c.bufs && !IsFree(w1.c.bufs[b]) && Reclaimable(w1, b, size)
    requires w2.c.bufs == w1.c.bufs[b := Freed(w1.c.bufs[b])] && BufferTasks.Via(w1.c, w2.c)
    ensures Gave(w, w2, size, moved + [b])
  {
    hide BufferTasks.Via;
    BufferTasks.ViaBoth(w.c, w1.c, w2.c);
    assert b !in moved;
  }

  lemma GaveTrans(w: World, w1: World, w2: World, size: nat, m1: seq<Bh>, m2: seq<Bh>)
    requires Gave(w, w1, size, m1) && Gave(w1, w2, size, m2)
    ensures Gave(w, w2, size, m1 + m2)
  {
    hide BufferTasks.Via, NoDup, Unused;
    BufferTasks.ViaBoth(w.c, w1.c, w2.c);
    GaveApart(w, w1, w2, size, m1, m2);
    DisjointNoDup(m1, m2);
  }

  lemma GaveApart(w: World, w1: World, w2: World, size: nat, m1: seq<Bh>, m2: seq<Bh>)
    requires Gave(w, w1, size, m1) && Gave(w1, w2, size, m2)
    ensures forall b :: b in m2 ==> b !in m1
  {
    hide BufferTasks.Via, NoDup;
    assert forall b :: b in m1 ==> b in w1.c.bufs && IsFree(w1.c.bufs[b]);
    assert forall b :: b in m2 ==> b in w1.c.bufs && !IsFree(w1.c.bufs[b]);
  }

  lemma DisjointNoDup(a: seq<Bh>, b: seq<Bh>)
    requires NoDup(a) && NoDup(b) && forall x :: x in b ==> x !in a
    ensures NoDup(a + b)
  {
    forall i, j | 0 <= i < j < |a + b| ensures (a + b)[i] != (a + b)[j] {
      if i < |a| <= j { assert b[j - |a|] in b && a[i] in a; }
    }
  }

  lemma ManyOnRing(ring: seq<Bh>, b: Bh)
    requires b in ring && ring != [b]
    ensures |ring| > 1
  {
  }

  /** The walk moves on from a buffer that is reclaimed. */
  lemma MoveOnReclaimed(w: World, w': World, l: nat, size: nat, scope: set<Bh>, b: Bh, n: nat)
    requires l < |w.c.lru| == |w'.c.lru| && NoDup(w.c.lru[l]) && b in w.c.lru[l] && n > 0
    requires w' == w.(c := w'.c) && w'.c.lru[l] == Without(w.c.lru[l], b)
    requires b in w.c.bufs && w'.c.bufs == w.c.bufs[b := Freed(w.c.bufs[b])]
    requires Ahead(w, l, size, scope, Some(b), n)
    ensures var next := NextFree(w.c.lru[l], b);
            if next == b then w'.c.lru[l] == [] else next in w'.c.lru[l] && Ahead(w', l, size, scope, Some(next), n - 1)
  {
    hide NoDup, Without, Round, NextFree;
    var ring, next := w.c.lru[l], NextFree(w.c.lru[l], b);
    AloneOnRing(ring, b);
    if next == b {
      OnlyOne(b);
    } else {
      ManyOnRing(ring, b);
      RoundWithout(ring, b);
      var g := Round(ring, b);
      forall x | x in scope && x in w'.c.lru[l] && x in w'.c.bufs && Reclaimable(w', x, size)
        ensures x in Front(g[1..], n - 1)
      {
        assert x != b && Reclaimable(w, x, size) && x in Front(g, n);
        var i :| 0 <= i < |Front(g, n)| && Front(g, n)[i] == x;
        assert g[i] == x && g[0] == b && i > 0 && g[1..][i - 1] == x;
        assert Front(g[1..], n - 1)[i - 1] == x;
      }
    }
  }

  lemma MulStep(k: nat, size: nat)
    ensures (k + 1) * size == k * size + size
  {
  }

  lemma Begun(w: World, l: nat, size: nat, cand: Option<Bh>, len: nat)
    requires l < |w.c.lru| && (cand.Some? ==> cand.value in w.c.lru[l])
    ensures Gave(w, w, size, []) && Ahead(w, l, size, Scope(w, l, cand, len), cand, len)
  {
    BufferTasks.ViaNone(w.c);
  }

  ghost predicate SomeLocked(w: World, l: nat, size: nat) { exists b :: b in w.c.bufs && Locked(w, l, b, size) }

  lemma StillLocked(w: World, w': World, l: nat, size: nat, b: Bh)
    requires SomeLocked(w, l, size) && b in w.c.bufs && Unused(w.c.bufs[b])
    requires w'.c.bufs == w.c.bufs[b := Freed(w.c.bufs[b])]
    ensures SomeLocked(w', l, size)
  {
    var x :| x in w.c.bufs && Locked(w, l, x, size);
    assert Locked(w', l, x, size);
  }

  lemma KeptLocked(w: World, w': World, l: nat, size: nat)
    requires SomeLocked(w, l, size) && Keeps(w, w', size)
    ensures SomeLocked(w', l, size)
  {
    var x :| x in w.c.bufs && Locked(w, l, x, size);
    assert Locked(w', l, x, size);
  }

  lemma LockedMet(w: World, l: nat, size: nat, met: seq<Bh>)
    requires |met| == LOOKAHEAD && forall b :: b in met ==> b in w.c.bufs && Locked(w, l, b, size)
    ensures SomeLocked(w, l, size)
  {
    hide Locked;
    assert met[0] in met;
  }

  /** A search within what is still ahead. */
  lemma AheadAgain(w: World, w': World, l: nat, size: nat, scope: set<Bh>, b: Bh, n: nat, r: Option<Bh>, m: nat)
    requires WorldOk(w) && WorldOk(w') && Keeps(w, w', size) && l < NR_LIST && Shape(w.c) && Shape(w'.c)
    requires b in w.c.lru[l] && (r.Some? ==> r.value in w'.c.lru[l])
    requires Ahead(w, l, size, scope, Some(b), n) && Ahead(w', l, size, Scope(w, l, Some(b), n), r, m)
    ensures Ahead(w', l, size, scope, r, m)
  {
    hide Ok, PageOk, Round;
    forall x | x in scope && x in w'.c.lru[l] && x in w'.c.bufs && Reclaimable(w', x, size)
      ensures r.Some? && x in Front(Round(w'.c.lru[l], r.value), m)
    {
      RingMembers(w.c, l, x);
      RingMembers(w'.c, l, x);
      assert Reclaimable(w, x, size);
    }
  }

  /** The next candidate (fs/buffer.c:709-712). */
  method NextCandidate(ghost w0: World, w: World, l: nat, size: nat, bh: Option<Bh>, n: nat,
                       ghost moved: seq<Bh>, ghost scope: set<Bh>, ghost stuck: bool)
    returns (w': World, bh': Option<Bh>, n': nat, ghost stuck': bool)
    requires WorldOk(w) && Shape(w.c) && l < NR_LIST && Gave(w0, w, size, moved)
    requires bh.Some? ==> bh.value in w.c.lru[l]
    requires if stuck then SomeLocked(w, l, size)
             else if bh.None? then w.c.lru[l] == [] else Ahead(w, l, size, scope, bh, n)
    ensures WorldOk(w') && Shape(w'.c) && Gave(w0, w', size, moved) && Candidate(w', l, size, bh', n')
    ensures if stuck' then SomeLocked(w', l, size) else Ahead(w', l, size, scope, bh', n')
  {
    hide Ok, PageOk, Round, Ahead, Gave, Locked, Scope, SomeLocked, Keeps;
    w', bh', n', stuck' := w, bh, n, stuck;
    if bh'.None? {
      if !stuck { AheadNowhere(w, l, size, scope, n); }
      return;
    }
    RingMembers(w.c, l, bh.value);
    if n == 0 {
      bh' := None;
      if !stuck { AheadNothing(w, l, size, scope, bh.value); }
      return;
    }
    if !Reclaimable(w', bh'.value, size) {
      var gaveUp;
      ghost var met;
      w', bh', n', gaveUp, met := FindCandidate(w, l, bh, n, size);
      GaveKeeps(w0, w, w', size, moved);
      if stuck {
        KeptLocked(w, w', l, size);
      } else if gaveUp {
        LockedMet(w', l, size, met);
        stuck' := true;
      } else {
        AheadAgain(w, w', l, size, scope, bh.value, n, bh', n');
      }
    }
  }

  /** One buffer goes to the free ring, and the next candidate is found (fs/buffer.c:702-712). */
  method DrainOne(ghost w0: World, w: World, l: nat, size: nat, b: Bh, n: nat,
                  ghost moved: seq<Bh>, ghost scope: set<Bh>, ghost stuck: bool)
    returns (w': World, bh: Option<Bh>, n': nat, ghost stuck': bool)
    requires WorldOk(w) && Shape(w.c) && l < NR_LIST && Candidate(w, l, size, Some(b), n) && Gave(w0, w, size, moved)
    requires if stuck then SomeLocked(w, l, size) else Ahead(w, l, size, scope, Some(b), n)
    ensures WorldOk(w') && Shape(w'.c) && Candidate(w', l, size, bh, n') && Gave(w0, w', size, moved + [b])
    ensures if stuck' then SomeLocked(w', l, size) else Ahead(w', l, size, scope, bh, n')
  {
    hide Ok, PageOk, Round, Ahead, Gave, Locked, Scope, SomeLocked;
    RingMembers(w.c, l, b);
    ReclaimRing(w.c, l, b);
    Reclaimed(w, b);
    var next := NextFree(w.c.lru[l], b);
    w' := w.(c := Reclaim(w.c, b));
    RingMembers(w'.c, l, next);
    RingMembers(w.c, l, next);
    ReclaimVia(w.c, b);
    GaveOne(w0, w, w', size, moved, b);
    if stuck { StillLocked(w, w', l, size, b); } else { MoveOnReclaimed(w, w', l, size, scope, b, n); }
    bh := if next == b then None else Some(next);
    w', bh, n', stuck' := NextCandidate(w0, w', l, size, bh, n - 1, moved + [b], scope, stuck);
  }

  /** The winner's ring gives up buffers, from the candidate on, until there are enough or none is left among the
      next `len` of the ring (fs/buffer.c:701-713). */
  method Drain(w: World, l: nat, size: nat, needed: int, cand: Option<Bh>, len: nat)
    returns (w': World, needed': int, moved: seq<Bh>)
    requires WorldOk(w) && l < NR_LIST && size > 0 && needed > 0 && cand.Some? && Candidate(w, l, size, cand, len)
    ensures WorldOk(w') && Shape(w'.c) && Gave(w, w', size, moved)
    ensures moved != [] && moved[0] == cand.value && needed' == needed - |moved| * size
    ensures needed' > 0 ==> Ahead(w', l, size, Scope(w, l, cand, len), None, 0) || SomeLocked(w', l, size)
  {
    hide Ok, PageOk, Round, Ahead, Gave, Locked, Scope, SomeLocked;
    w', needed', moved := w, needed, [];
    var bh, n := cand, len;
    ghost var scope, stuck := Scope(w, l, cand, len), false;
    RingMembers(w.c, l, 0);
    Begun(w, l, size, cand, len);
    while needed' > 0 && bh.Some?
      invariant WorldOk(w') && Shape(w'.c) && Candidate(w', l, size, bh, n) && Gave(w, w', size, moved)
      invariant if moved == [] then bh == cand && needed' == needed else moved[0] == cand.value
      invariant needed' == needed - |moved| * size
      invariant if stuck then SomeLocked(w', l, size) else Ahead(w', l, size, scope, bh, n)
      decreases needed'
    {
      var b := bh.value;
      w', bh, n, stuck := DrainOne(w, w', l, size, b, n, moved, scope, stuck);
      MulStep(|moved|, size);
      moved := moved + [b];
      needed' := needed' - size;
    }
    if bh.None? && !stuck { AheadNone(w', l, size, scope, n); }
  }

  // ---------- one election ----------

  /** A candidate that has never been used loses every election. */
  ghost predicate SomeStale(w: World, l: nat, size: nat) {
    exists b :: b in w.c.bufs && Reclaimable(w, b, size) && w.time(b) >= UINT_MAX && w.c.bufs[b].list == l
  }

  /** No ring has a buffer to give. */
  ghost predicate Exhausted(w: World, size: nat) {
    forall i :: 0 <= i < BUF_DIRTY ==> NoneOn(w, i, size) || SomeStale(w, i, size)
  }

  lemma NoWinner(w: World, size: nat, cand: seq<Option<Bh>>, len: seq<nat>)
    requires WorldOk(w) && |cand| == |len| == BUF_DIRTY
    requires forall i :: 0 <= i < BUF_DIRTY ==>
               Candidate(w, i, size, cand[i], len[i]) && (cand[i].None? ==> NoneOn(w, i, size))
    requires forall i :: 0 <= i < BUF_DIRTY && cand[i].Some? ==> w.time(cand[i].value) >= UINT_MAX
    ensures Exhausted(w, size)
  {
    hide Ok, PageOk, NoneOn;
    forall i | 0 <= i < BUF_DIRTY ensures NoneOn(w, i, size) || SomeStale(w, i, size) {
      if cand[i].Some? { RingMembers(w.c, i, cand[i].value); }
    }
  }

  lemma GaveNone(w: World, size: nat)
    ensures Gave(w, w, size, [])
  {
    BufferTasks.ViaNone(w.c);
  }

  /** One election (fs/buffer.c:682-714). */
  method Elect(w: World, size: nat, needed: int) returns (w': World, needed': int, moved: seq<Bh>)
    requires WorldOk(w) && size > 0 && needed > 0
    ensures WorldOk(w') && Gave(w, w', size, moved) && needed' == needed - |moved| * size
    ensures moved == [] ==> Exhausted(w', size)
  {
    hide Ok, PageOk, Gave, Exhausted, Candidate, NoneOn;
    var cand, len;
    w', cand, len := Candidates(w, size);
    GaveNone(w, size);
    GaveKeeps(w, w, w', size, []);
    ghost var w1 := w';
    var win := Winner(w', cand);
    needed', moved := needed, [];
    if win.None? {
      NoWinner(w', size, cand, len);
      return;
    }
    w', needed', moved := Drain(w', win.value, size, needed, cand[win.value], len[win.value]);
    GaveTrans(w, w1, w', size, [], moved);
    assert [] + moved == moved;
  }
}
