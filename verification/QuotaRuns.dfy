/** Quota accounting over whole runs: what the accounts say is what the inodes are charged with, and when
    a transfer can be undone (fs/dquot.c, fs/open.c:420-427). */
module QuotaRuns {
  import opened Base
  import opened Quota

  // ---------- undoing a transfer ----------

  predicate SameUse(d: Dquot, e: Dquot) { d.ino.use == e.ino.use && d.blk.use == e.blk.use }

  /** Putting back `n` that were just taken away is allowed: within the hard limit, and within the soft
      one unless the grace time is not running, or not over, once they were taken. */
  predicate AllowsBack(m: Meter, n: nat, now: nat) {
    && (m.hard == 0 || m.use <= m.hard)
    && (m.soft == 0 || m.use <= m.soft || m.use < m.soft + n || m.time == 0 || now < m.time)
  }

  /** The account takes back an inode of so many blocks that it held. */
  predicate TakesBack(d: Dquot, blocks: nat, env: Env) {
    d.fake || env.root || (AllowsBack(d.ino, 1, env.now) && (blocks == 0 || AllowsBack(d.blk, blocks, env.now)))
  }

  predicate Within(m: Meter) { (m.hard == 0 || m.use <= m.hard) && (m.soft == 0 || m.use <= m.soft) }

  /** An owner within its limits takes back what it held; one above a hard limit, if it has limits that bind
      at all, does not. */
  lemma LimitsDecide(d: Dquot, blocks: nat, env: Env)
    ensures Within(d.ino) && Within(d.blk) ==> TakesBack(d, blocks, env)
    ensures 0 < d.ino.hard < d.ino.use && !d.fake && !env.root ==> !TakesBack(d, blocks, env)
  {
  }

  lemma DebitTakesBack(d: Dquot, blocks: nat, env: Env)
    requires d.ino.use >= 1 && d.blk.use >= blocks
    ensures Accepts(Debit(d, blocks), blocks, env) == TakesBack(d, blocks, env)
  {
  }

  /** The inode is part of what its owners are charged with, and refers to their accounts if to any. */
  ghost predicate Covers(dq: Accounts, m: Move, held: Held)
    requires Total(dq) && m.Valid()
  {
    forall k: Key :: m.From(k) ==>
      && dq[k].ino.use >= 1 && dq[k].blk.use >= m.blocks
      && (held[k.kind].Some? ==> Mine(held, k) && dq[k].count > 0)
  }

  function Back(m: Move): Move { m.(from := m.dest, dest := m.from) }

  lemma DoneTotal(dq: Accounts, m: Move, env: Env, held: Held)
    requires Total(dq) && m.Valid()
    ensures Total(Transfer(dq, m, env, held))
  {
  }

  /** Who is asked when a transfer is undone. */
  lemma BackRefusal(dq: Accounts, m: Move, env: Env, env2: Env, held: Held)
    requires Total(dq) && m.Valid() && Covers(dq, m, held)
    requires Total(Done(dq, m, env, held))
    ensures FirstRefusal(Done(dq, m, env, held), Back(m), env2, 0) == 2
            <==> forall k: Key :: m.From(k) ==> TakesBack(dq[k], m.blocks, env2)
  {
    var dq1, b := Done(dq, m, env, held), Back(m);
    var f := FirstRefusal(dq1, b, env2, 0);
    forall k: Key | m.From(k) ensures Accepts(dq1[k], m.blocks, env2) == TakesBack(dq[k], m.blocks, env2) {
      DebitTakesBack(dq[k], m.blocks, env2);
      CountApart(Debit(dq[k], m.blocks), Moved(dq[k], k, m, held), k.kind, m.blocks, env2);
    }
    if f == 2 {
      forall k: Key | m.From(k) ensures TakesBack(dq[k], m.blocks, env2) {
        assert b.To(k);
      }
    } else {
      var k := Key(f, m.from[f]);
      assert m.From(k) && !TakesBack(dq[k], m.blocks, env2);
    }
  }

  /** One account after a transfer and back. */
  lemma BackAt(d: Dquot, k: Key, m: Move, env: Env, env2: Env, held: Held)
    requires m.Valid()
    requires m.From(k) ==> d.ino.use >= 1 && d.blk.use >= m.blocks
    requires m.From(k) && held[k.kind].Some? ==> Mine(held, k) && d.count > 0
    requires m.on[k.kind] && held[k.kind].Some? ==> held[k.kind].value == m.from[k.kind]
    ensures var e := DoneAt(DoneAt(d, k, m, env, held), k, Back(m), env2, Rehung(m, held, 2));
            SameUse(e, d) && e.count == d.count
  {
  }

  lemma BackIs(enabled: seq<bool>, owner: seq<Id>, attr: seq<Id>, blocks: nat)
    requires |enabled| == |owner| == |attr| == 2
    ensures MoveOf(enabled, owner, attr, true, blocks) == Back(MoveOf(enabled, owner, attr, false, blocks))
  {
  }

  /** A transfer with the direction reversed is accepted exactly when every first owner takes the inode
      back, and then restores all usage, all references and the inode's own; a refused one leaves usage
      and references where the forward one put them. */
  lemma ReverseUndoes(dq: Accounts, enabled: seq<bool>, owner: seq<Id>, attr: seq<Id>, blocks: nat,
                      env: Env, env2: Env, held: Held)
    requires Total(dq) && |enabled| == |owner| == |attr| == 2
    requires var m := MoveOf(enabled, owner, attr, false, blocks);
             FirstRefusal(dq, m, env, 0) == 2 && Covers(dq, m, held)
    ensures var m, b := MoveOf(enabled, owner, attr, false, blocks), MoveOf(enabled, owner, attr, true, blocks);
            var dq1, held1 := Transfer(dq, m, env, held), Rehung(m, held, 2);
            && Total(dq1)
            && var dq2, ok := Transfer(dq1, b, env2, held1), FirstRefusal(dq1, b, env2, 0) == 2;
               && Total(dq2)
               && (ok <==> forall k: Key :: m.From(k) ==> TakesBack(dq[k], blocks, env2))
               && (ok ==> Rehung(b, held1, 2) == held)
               && forall k: Key :: var d := if ok then dq[k] else dq1[k];
                                   SameUse(dq2[k], d) && dq2[k].count == d.count
  {
    var m := MoveOf(enabled, owner, attr, false, blocks);
    var b := Back(m);
    BackIs(enabled, owner, attr, blocks);
    DoneTotal(dq, m, env, held);
    var dq1, held1 := Done(dq, m, env, held), Rehung(m, held, 2);
    BackRefusal(dq, m, env, env2, held);
    var dq2, f := Transfer(dq1, b, env2, held1), FirstRefusal(dq1, b, env2, 0);
    DoneTotal(dq1, b, env2, held1);
    forall k: Key
      ensures SameUse(dq2[k], if f == 2 then dq[k] else dq1[k]) && dq2[k].count == (if f == 2 then dq[k] else dq1[k]).count
    {
      assert k in dq && k in dq1;
      if f == 2 {
        HeldByOwner(dq, m, held, k);
        BackAt(dq[k], k, m, env, env2, held);
      } else {
        RefusedKeeps(dq1[k], k, b, env2, f + 1);
      }
    }
    if f == 2 {
      forall t: Kind | m.on[t] && held[t].Some? ensures held[t].value == m.from[t] {
        HeldByOwner(dq, m, held, Key(t, 0));
      }
    }
  }

  lemma HeldByOwner(dq: Accounts, m: Move, held: Held, k: Key)
    requires Total(dq) && m.Valid() && Covers(dq, m, held)
    ensures m.on[k.kind] && held[k.kind].Some? ==> held[k.kind].value == m.from[k.kind]
  {
    if m.on[k.kind] { assert m.From(Key(k.kind, m.from[k.kind])); }
  }

  lemma RefusedKeeps(d: Dquot, k: Key, m: Move, env: Env, v: nat)
    requires m.Valid()
    ensures SameUse(RefusedAt(d, k, m, env, v), d) && RefusedAt(d, k, m, env, v).count == d.count
  {
  }

  /** `n` go from one account to the other. */
  function MovedUse(use: nat, n: nat, m: Move, k: Key): nat
    requires m.Valid()
  {
    if m.From(k) then Less(use, n) else if m.To(k) then use + n else use
  }

  /** What a transfer does to any account's use and references: none of it when refused. */
  lemma TransferAt(dq: Accounts, m: Move, env: Env, held: Held, k: Key)
    requires Total(dq) && m.Valid()
    ensures var dq', ok := Transfer(dq, m, env, held), FirstRefusal(dq, m, env, 0) == 2;
            && k in dq'
            && (!ok || !m.on[k.kind] ==> SameUse(dq'[k], dq[k]) && dq'[k].count == dq[k].count)
            && (ok && m.on[k.kind] ==>
                 && dq'[k].count == Moved(dq[k], k, m, held)
                 && dq'[k].ino.use == MovedUse(dq[k].ino.use, 1, m, k)
                 && dq'[k].blk.use == MovedUse(dq[k].blk.use, m.blocks, m, k))
  {
    assert k in dq;
  }

  /** What one account loses the other gains, when the first is charged with all that moves; otherwise the
      loss stops at nothing and the sum grows. */
  lemma TransferConserves(dq: Accounts, m: Move, env: Env, held: Held, t: Kind)
    requires Total(dq) && m.Valid() && m.on[t]
    ensures var a, b, dq' := Key(t, m.from[t]), Key(t, m.dest[t]), Transfer(dq, m, env, held);
            var ok := FirstRefusal(dq, m, env, 0) == 2;
            && a in dq' && b in dq'
            && (dq'[a].ino.use + dq'[b].ino.use == dq[a].ino.use + dq[b].ino.use <==> !ok || dq[a].ino.use >= 1)
            && (dq'[a].blk.use + dq'[b].blk.use == dq[a].blk.use + dq[b].blk.use <==> !ok || dq[a].blk.use >= m.blocks)
  {
    hide Transfer, FirstRefusal;
    TransferAt(dq, m, env, held, Key(t, m.from[t]));
    TransferAt(dq, m, env, held, Key(t, m.dest[t]));
  }

  // ---------- runs ----------

  /** An inode of the file system: its owners, the blocks charged for it, and `i_dquot`. */
  datatype Ino = Ino(live: bool, owner: seq<Id>, blocks: nat, held: Held)

  datatype State = State(enabled: seq<bool>, dq: Accounts, inodes: seq<Ino>)

  datatype Step =
    | Initialize(i: nat)                                  // dquot_initialize
    | Drop(i: nat)                                        // dquot_drop
    | AllocBlocks(i: nat, n: nat, env: Env)
    | FreeBlocks(i: nat, n: nat)
    | Create(owner: seq<Id>, env: Env)                    // initialize, alloc_inode, drop when refused
    | Delete(i: nat)                                      // free_inode, drop
    | Chown(i: nat, attr: seq<Id>, notified: bool, env: Env, env2: Env)

  predicate Initialized(enabled: seq<bool>, x: Ino)
    requires |enabled| == 2
  {
    forall t: Kind :: enabled[t] ==> x.held[t].Some?
  }

  ghost predicate Enabled(s: State, step: Step)
    requires |s.enabled| == 2
  {
    match step
    // an inode belongs to who creates it (fs/ext2/ialloc.c:457), and only user 0 is exempt from limits
    case Create(owner, env) => |owner| == 2 && (env.root <==> owner[0] == 0)
    case Initialize(i) => i < |s.inodes| && s.inodes[i].live
    case Drop(i) => i < |s.inodes| && s.inodes[i].live
    case AllocBlocks(i, _, _) => i < |s.inodes| && s.inodes[i].live && Initialized(s.enabled, s.inodes[i])
    case FreeBlocks(i, n) =>
      i < |s.inodes| && s.inodes[i].live && Initialized(s.enabled, s.inodes[i]) && n <= s.inodes[i].blocks
    case Delete(i) =>
      i < |s.inodes| && s.inodes[i].live && Initialized(s.enabled, s.inodes[i]) && s.inodes[i].blocks == 0
    case Chown(i, attr, _, _, _) =>
      i < |s.inodes| && s.inodes[i].live && Initialized(s.enabled, s.inodes[i]) && |attr| == 2
  }

  const NOTHING: Held := [None, None]

  /** What `dquot_initialize` makes of `i_dquot` (fs/dquot.c:688-723). */
  function Hung(enabled: seq<bool>, x: Ino): Held
    requires |enabled| == |x.owner| == 2
  {
    seq(2, t requires 0 <= t < 2 => if enabled[t] && x.held[t].None? then Some(x.owner[t]) else x.held[t])
  }

  /** The references follow `i_dquot` from `held` to `held'`. */
  function Refer(dq: Accounts, held: Held, held': Held): Accounts {
    map k | k in dq ::
      Counted(dq[k], Less(dq[k].count + (if Mine(held', k) then 1 else 0), if Mine(held, k) then 1 else 0))
  }

  function Put1(s: State, i: nat, x: Ino, dq: Accounts): State
    requires i < |s.inodes|
  {
    s.(dq := dq, inodes := s.inodes[i := x])
  }

  /** The last part of `sys_chown`: the transfer, the change, and the way back when that fails. */
  ghost function ChownTo(s: State, i: nat, attr: seq<Id>, notified: bool, env: Env, env2: Env): State
    requires |s.enabled| == 2 && Total(s.dq) && i < |s.inodes| && |s.inodes[i].owner| == |attr| == 2
  {
    var x := s.inodes[i];
    var m := MoveOf(s.enabled, x.owner, attr, false, x.blocks);
    var dq1 := Transfer(s.dq, m, env, x.held);
    DoneTotal(s.dq, m, env, x.held);
    if FirstRefusal(s.dq, m, env, 0) < 2 then s.(dq := dq1)
    else
      var y := x.(held := Rehung(m, x.held, 2));
      if notified then Put1(s, i, y.(owner := attr), dq1)
      else
        var b := MoveOf(s.enabled, x.owner, attr, true, x.blocks);
        var dq2 := Transfer(dq1, b, env2, y.held);
        Put1(s, i, if FirstRefusal(dq1, b, env2, 0) < 2 then y else y.(held := Rehung(b, y.held, 2)), dq2)
  }

  ghost function Do(s: State, step: Step): State
    requires |s.enabled| == 2 && Total(s.dq) && Owned(s.inodes) && Enabled(s, step)
  {
    match step
    case Initialize(i) =>
      var x := s.inodes[i];
      var y := x.(held := Hung(s.enabled, x));
      Put1(s, i, y, Refer(s.dq, x.held, y.held))
    case Drop(i) =>
      var x := s.inodes[i];
      Put1(s, i, x.(held := NOTHING), Refer(s.dq, x.held, NOTHING))
    case AllocBlocks(i, n, env) =>
      var x := s.inodes[i];
      var ok := FirstFail(s.dq, x.held, Blocks, n, env, 0) == 2;
      Put1(s, i, if ok then x.(blocks := x.blocks + n) else x, Alloc(s.dq, x.held, Blocks, n, env))
    case FreeBlocks(i, n) =>
      var x := s.inodes[i];
      Put1(s, i, x.(blocks := x.blocks - n), Freed(s.dq, x.held, Blocks, n, 2))
    case Create(owner, env) =>
      var x := Ino(true, owner, 0, NOTHING);
      var y := x.(held := Hung(s.enabled, x));
      var dq1 := Refer(s.dq, NOTHING, y.held);
      assert Total(dq1);
      var dq2 := Alloc(dq1, y.held, Inodes, 1, env);
      if FirstFail(dq1, y.held, Inodes, 1, env, 0) == 2 then s.(dq := dq2, inodes := s.inodes + [y])
      else s.(dq := Refer(dq2, y.held, NOTHING))
    case Delete(i) =>
      var x := s.inodes[i];
      Put1(s, i, x.(live := false, held := NOTHING), Refer(Freed(s.dq, x.held, Inodes, 1, 2), x.held, NOTHING))
    case Chown(i, attr, notified, env, env2) => ChownTo(s, i, attr, notified, env, env2)
  }

  // ---------- what the inodes are charged with ----------

  datatype Measure = ByInode | ByBlocks | ByReference

  function Weight(w: Measure, x: Ino, k: Key): nat
    requires |x.owner| == 2
  {
    match w
    case ByInode => if x.live && x.owner[k.kind] == k.id then 1 else 0
    case ByBlocks => if x.live && x.owner[k.kind] == k.id then x.blocks else 0
    case ByReference => if Mine(x.held, k) then 1 else 0
  }

  predicate Owned(inodes: seq<Ino>) { forall i :: 0 <= i < |inodes| ==> |inodes[i].owner| == 2 }

  function Sum(inodes: seq<Ino>, w: Measure, k: Key): nat
    requires Owned(inodes)
  {
    if inodes == [] then 0 else Sum(inodes[..|inodes| - 1], w, k) + Weight(w, inodes[|inodes| - 1], k)
  }

  lemma {:induction false} SumPut(inodes: seq<Ino>, i: nat, x: Ino, w: Measure, k: Key)
    requires Owned(inodes) && i < |inodes| && |x.owner| == 2
    ensures Owned(inodes[i := x]) && Weight(w, inodes[i], k) <= Sum(inodes, w, k)
    ensures Sum(inodes[i := x], w, k) == Sum(inodes, w, k) - Weight(w, inodes[i], k) + Weight(w, x, k)
  {
    var n := |inodes| - 1;
    if i == n {
      assert inodes[i := x][..n] == inodes[..n];
    } else {
      SumPut(inodes[..n], i, x, w, k);
      assert inodes[i := x][..n] == inodes[..n][i := x];
    }
  }

  lemma SumAdd(inodes: seq<Ino>, x: Ino, w: Measure, k: Key)
    requires Owned(inodes) && |x.owner| == 2
    ensures Owned(inodes + [x]) && Sum(inodes + [x], w, k) == Sum(inodes, w, k) + Weight(w, x, k)
  {
    assert (inodes + [x])[..|inodes|] == inodes;
  }

  /** An account says what is charged to it, and counts the inodes that refer to it. */
  predicate Balances(s: State, k: Key)
    requires Owned(s.inodes) && |s.enabled| == 2 && k in s.dq
  {
    && (s.enabled[k.kind] ==> && s.dq[k].ino.use == Sum(s.inodes, ByInode, k)
                              && s.dq[k].blk.use == Sum(s.inodes, ByBlocks, k))
    && s.dq[k].count == Sum(s.inodes, ByReference, k)
  }

  /** `i_dquot` refers to the accounts of the owners, or to none. */
  predicate WellHeld(enabled: seq<bool>, x: Ino)
    requires |enabled| == |x.owner| == 2
  {
    forall t: Kind :: x.held[t].Some? ==> x.live && enabled[t] && x.held[t].value == x.owner[t]
  }

  ghost predicate Inv(s: State) {
    && |s.enabled| == 2 && Total(s.dq) && Owned(s.inodes)
    && (forall i :: 0 <= i < |s.inodes| ==> WellHeld(s.enabled, s.inodes[i]))
    && forall k: Key :: Balances(s, k)
  }

  /** Every account balances. */
  ghost predicate InBalance(s: State) {
    |s.enabled| == 2 && Total(s.dq) && Owned(s.inodes) && forall k: Key :: Balances(s, k)
  }

  /** The change of owner fails and the first owner does not take the inode back. */
  ghost predicate Stuck(s: State, step: Step)
    requires |s.enabled| == 2 && Total(s.dq) && Owned(s.inodes) && Enabled(s, step)
  {
    step.Chown? && !step.notified &&
    var x := s.inodes[step.i];
    var m := MoveOf(s.enabled, x.owner, step.attr, false, x.blocks);
    FirstRefusal(s.dq, m, step.env, 0) == 2 && exists k: Key :: m.From(k) && !TakesBack(s.dq[k], x.blocks, step.env2)
  }

  /** An account moves with the inode it is charged for. */
  predicate Shifts(enabled: seq<bool>, d: Dquot, d': Dquot, x: Ino, y: Ino, k: Key)
    requires |enabled| == |x.owner| == |y.owner| == 2
  {
    && (enabled[k.kind] ==> && d'.ino.use + Weight(ByInode, x, k) == d.ino.use + Weight(ByInode, y, k)
                            && d'.blk.use + Weight(ByBlocks, x, k) == d.blk.use + Weight(ByBlocks, y, k))
    && d'.count + Weight(ByReference, x, k) == d.count + Weight(ByReference, y, k)
  }

  lemma PutInv(s: State, i: nat, y: Ino, dq': Accounts)
    requires Inv(s) && i < |s.inodes| && |y.owner| == 2 && WellHeld(s.enabled, y) && Total(dq')
    requires forall k: Key :: Shifts(s.enabled, s.dq[k], dq'[k], s.inodes[i], y, k)
    ensures Inv(Put1(s, i, y, dq'))
  {
    var s' := Put1(s, i, y, dq');
    assert Owned(s'.inodes);
    forall k: Key ensures Balances(s', k) {
      assert Balances(s, k) && Shifts(s.enabled, s.dq[k], dq'[k], s.inodes[i], y, k);
      SumPut(s.inodes, i, y, ByInode, k);
      SumPut(s.inodes, i, y, ByBlocks, k);
      SumPut(s.inodes, i, y, ByReference, k);
    }
  }

  lemma AddInv(s: State, y: Ino, dq': Accounts)
    requires Inv(s) && |y.owner| == 2 && WellHeld(s.enabled, y) && Total(dq')
    requires forall k: Key :: Shifts(s.enabled, s.dq[k], dq'[k], y.(live := false, held := NOTHING), y, k)
    ensures Inv(s.(dq := dq', inodes := s.inodes + [y]))
  {
    var s' := s.(dq := dq', inodes := s.inodes + [y]);
    assert Owned(s'.inodes);
    forall k: Key ensures Balances(s', k) {
      assert Balances(s, k) && Shifts(s.enabled, s.dq[k], dq'[k], y.(live := false, held := NOTHING), y, k);
      SumAdd(s.inodes, y, ByInode, k);
      SumAdd(s.inodes, y, ByBlocks, k);
      SumAdd(s.inodes, y, ByReference, k);
    }
  }

  lemma SameInv(s: State, dq': Accounts)
    requires Inv(s) && Total(dq')
    requires forall k: Key :: SameUse(dq'[k], s.dq[k]) && dq'[k].count == s.dq[k].count
    ensures Inv(s.(dq := dq'))
  {
    var s' := s.(dq := dq');
    forall k: Key ensures Balances(s', k) {
      assert Balances(s, k);
    }
  }

  /** An inode's own part in what its accounts say. */
  lemma Part(s: State, i: nat, k: Key)
    requires Inv(s) && i < |s.inodes|
    ensures s.enabled[k.kind] ==> s.dq[k].ino.use >= Weight(ByInode, s.inodes[i], k) &&
                                  s.dq[k].blk.use >= Weight(ByBlocks, s.inodes[i], k)
    ensures s.dq[k].count >= Weight(ByReference, s.inodes[i], k)
  {
    assert Balances(s, k);
    SumPut(s.inodes, i, s.inodes[i], ByInode, k);
    SumPut(s.inodes, i, s.inodes[i], ByBlocks, k);
    SumPut(s.inodes, i, s.inodes[i], ByReference, k);
  }

  /** For an initialised inode the accounts it refers to are those of its owners. */
  lemma MineIsOwner(s: State, x: Ino, k: Key)
    requires |s.enabled| == |x.owner| == 2 && WellHeld(s.enabled, x) && x.live && Initialized(s.enabled, x)
    ensures Mine(x.held, k) <==> s.enabled[k.kind] && x.owner[k.kind] == k.id
  {
  }

  lemma SameHeld(enabled: seq<bool>, x: Ino, y: Ino)
    requires |enabled| == |x.owner| == 2 && WellHeld(enabled, x)
    requires y.live == x.live && y.owner == x.owner && y.held == x.held
    ensures WellHeld(enabled, y)
  {
  }

  lemma ReferInv(s: State, i: nat, held': Held)
    requires Inv(s) && i < |s.inodes| && WellHeld(s.enabled, s.inodes[i].(held := held'))
    ensures Inv(Put1(s, i, s.inodes[i].(held := held'), Refer(s.dq, s.inodes[i].held, held')))
  {
    hide Refer, Balances, WellHeld, Mine;
    var x := s.inodes[i];
    var y, dq' := x.(held := held'), Refer(s.dq, x.held, held');
    forall k: Key ensures k in dq' && Shifts(s.enabled, s.dq[k], dq'[k], x, y, k) {
      Part(s, i, k);
      ReferAt(s.dq, x.held, held', k);
    }
    PutInv(s, i, y, dq');
  }

  lemma AfterKeeps(d: Dquot, kind: Kind, r: Resource, n: nat, env: Env)
    ensures SameUse(After(d, kind, r, n, env), d) && After(d, kind, r, n, env).count == d.count
  {
  }

  lemma AllocAt(dq: Accounts, held: Held, r: Resource, n: nat, env: Env, k: Key)
    requires Total(dq)
    ensures var dq', ok := Alloc(dq, held, r, n, env), FirstFail(dq, held, r, n, env, 0) == 2;
            && k in dq' && dq'[k].count == dq[k].count
            && dq'[k].ino.use == dq[k].ino.use + (if ok && Mine(held, k) && r.Inodes? then n else 0)
            && dq'[k].blk.use == dq[k].blk.use + (if ok && Mine(held, k) && r.Blocks? then n else 0)
  {
    hide After, Mine, FirstFail;
    assert k in dq;
    AfterKeeps(dq[k], k.kind, r, n, env);
  }

  lemma AllocInv(s: State, i: nat, n: nat, env: Env)
    requires Inv(s) && Enabled(s, AllocBlocks(i, n, env))
    ensures Inv(Do(s, AllocBlocks(i, n, env)))
  {
    hide Alloc, FirstFail, Balances, WellHeld, Initialized;
    var x := s.inodes[i];
    var ok, dq' := FirstFail(s.dq, x.held, Blocks, n, env, 0) == 2, Alloc(s.dq, x.held, Blocks, n, env);
    var y := if ok then x.(blocks := x.blocks + n) else x;
    forall k: Key ensures k in dq' && Shifts(s.enabled, s.dq[k], dq'[k], x, y, k) {
      AllocAt(s.dq, x.held, Blocks, n, env, k);
      MineIsOwner(s, x, k);
    }
    SameHeld(s.enabled, x, y);
    PutInv(s, i, y, dq');
  }

  lemma FreedAt(dq: Accounts, held: Held, r: Resource, n: nat, k: Key)
    requires Total(dq)
    ensures var dq' := Freed(dq, held, r, n, 2);
            && k in dq' && dq'[k].count == dq[k].count
            && dq'[k].ino.use == (if Mine(held, k) && r.Inodes? then Less(dq[k].ino.use, n) else dq[k].ino.use)
            && dq'[k].blk.use == (if Mine(held, k) && r.Blocks? then Less(dq[k].blk.use, n) else dq[k].blk.use)
  {
    assert k in dq;
  }

  lemma FreeInv(s: State, i: nat, n: nat)
    requires Inv(s) && Enabled(s, FreeBlocks(i, n))
    ensures Inv(Do(s, FreeBlocks(i, n)))
  {
    hide Freed, Balances, WellHeld, Initialized;
    var x := s.inodes[i];
    var y, dq' := x.(blocks := x.blocks - n), Freed(s.dq, x.held, Blocks, n, 2);
    forall k: Key ensures k in dq' && Shifts(s.enabled, s.dq[k], dq'[k], x, y, k) {
      FreedAt(s.dq, x.held, Blocks, n, k);
      MineIsOwner(s, x, k);
      Part(s, i, k);
    }
    SameHeld(s.enabled, x, y);
    PutInv(s, i, y, dq');
  }

  lemma ReferAt(dq: Accounts, held: Held, held': Held, k: Key)
    requires k in dq
    ensures k in Refer(dq, held, held') && SameUse(Refer(dq, held, held')[k], dq[k])
    ensures var a, b := if Mine(held', k) then 1 else 0, if Mine(held, k) then 1 else 0;
            dq[k].count + a >= b ==> Refer(dq, held, held')[k].count == dq[k].count + a - b
  {
  }

  lemma NothingHeld(enabled: seq<bool>, x: Ino, k: Key)
    requires |enabled| == |x.owner| == 2 && x.held == NOTHING
    ensures WellHeld(enabled, x) && !Mine(NOTHING, k)
  {
  }

  lemma DeleteInv(s: State, i: nat)
    requires Inv(s) && Enabled(s, Delete(i))
    ensures Inv(Do(s, Delete(i)))
  {
    hide Freed, Refer, Balances, WellHeld, Initialized, Mine;
    var x := s.inodes[i];
    var dq1 := Freed(s.dq, x.held, Inodes, 1, 2);
    var y, dq' := x.(live := false, held := NOTHING), Refer(dq1, x.held, NOTHING);
    forall k: Key ensures k in dq' && WellHeld(s.enabled, y) && Shifts(s.enabled, s.dq[k], dq'[k], x, y, k) {
      FreedAt(s.dq, x.held, Inodes, 1, k);
      ReferAt(dq1, x.held, NOTHING, k);
      NothingHeld(s.enabled, y, k);
      MineIsOwner(s, x, k);
      Part(s, i, k);
    }
    assert WellHeld(s.enabled, y) by { NothingHeld(s.enabled, y, Key(0, 0)); }
    PutInv(s, i, y, dq');
  }

  lemma NewHeld(enabled: seq<bool>, owner: seq<Id>)
    requires |enabled| == |owner| == 2
    ensures var x := Ino(true, owner, 0, NOTHING);
            WellHeld(enabled, x.(held := Hung(enabled, x))) && Initialized(enabled, x.(held := Hung(enabled, x)))
  {
  }

  /** A new inode, account by account. */
  lemma CreateAt(s: State, y: Ino, env: Env, dq1: Accounts, dq2: Accounts, dq3: Accounts, ok: bool, k: Key)
    requires |s.enabled| == |y.owner| == 2 && y.live && y.blocks == 0
    requires Total(s.dq) && WellHeld(s.enabled, y) && Initialized(s.enabled, y)
    requires dq1 == Refer(s.dq, NOTHING, y.held) && Total(dq1)
    requires dq2 == Alloc(dq1, y.held, Inodes, 1, env) && ok == (FirstFail(dq1, y.held, Inodes, 1, env, 0) == 2)
    requires dq3 == Refer(dq2, y.held, NOTHING)
    ensures k in dq2 && k in dq3
    ensures ok ==> Shifts(s.enabled, s.dq[k], dq2[k], y.(live := false, held := NOTHING), y, k)
    ensures !ok ==> SameUse(dq3[k], s.dq[k]) && dq3[k].count == s.dq[k].count
  {
    hide Alloc, FirstFail, Refer, WellHeld, Initialized, Mine;
    assert k in s.dq && k in dq1;
    ReferAt(s.dq, NOTHING, y.held, k);
    AllocAt(dq1, y.held, Inodes, 1, env, k);
    ReferAt(dq2, y.held, NOTHING, k);
    MineIsOwner(s, y, k);
    NothingHeld(s.enabled, y.(held := NOTHING), k);
  }

  lemma CreateInv(s: State, owner: seq<Id>, env: Env)
    requires Inv(s) && Enabled(s, Create(owner, env))
    ensures Inv(Do(s, Create(owner, env)))
  {
    hide Alloc, FirstFail, Balances, WellHeld, Initialized, Mine, Hung, Shifts;
    var x := Ino(true, owner, 0, NOTHING);
    var y := x.(held := Hung(s.enabled, x));
    NewHeld(s.enabled, owner);
    var dq1 := Refer(s.dq, NOTHING, y.held);
    assert Total(dq1);
    var dq2 := Alloc(dq1, y.held, Inodes, 1, env);
    var dq3 := Refer(dq2, y.held, NOTHING);
    var ok := FirstFail(dq1, y.held, Inodes, 1, env, 0) == 2;
    forall k: Key
      ensures k in dq2 && k in dq3
      ensures ok ==> Shifts(s.enabled, s.dq[k], dq2[k], y.(live := false, held := NOTHING), y, k)
      ensures !ok ==> SameUse(dq3[k], s.dq[k]) && dq3[k].count == s.dq[k].count
    {
      CreateAt(s, y, env, dq1, dq2, dq3, ok, k);
    }
    if ok { AddInv(s, y, dq2); } else { SameInv(s, dq3); }
  }

  /** The owners' accounts cover an inode that is about to be moved. */
  lemma CoversOwners(s: State, i: nat, attr: seq<Id>)
    requires Inv(s) && i < |s.inodes| && s.inodes[i].live && |attr| == 2
    ensures Covers(s.dq, MoveOf(s.enabled, s.inodes[i].owner, attr, false, s.inodes[i].blocks), s.inodes[i].held)
  {
    var x := s.inodes[i];
    var m := MoveOf(s.enabled, x.owner, attr, false, x.blocks);
    forall k: Key | m.From(k)
      ensures && s.dq[k].ino.use >= 1 && s.dq[k].blk.use >= m.blocks
              && (x.held[k.kind].Some? ==> Mine(x.held, k) && s.dq[k].count > 0)
    {
      Part(s, i, k);
    }
  }

  lemma RehungHeld(enabled: seq<bool>, x: Ino, attr: seq<Id>)
    requires |enabled| == |x.owner| == |attr| == 2 && x.live && WellHeld(enabled, x) && Initialized(enabled, x)
    ensures var m := MoveOf(enabled, x.owner, attr, false, x.blocks);
            var y := x.(held := Rehung(m, x.held, 2), owner := attr);
            WellHeld(enabled, y) && Initialized(enabled, y)
  {
  }

  /** An accepted transfer moves the inode's charge and reference, account by account. */
  lemma ChownAt(s: State, i: nat, attr: seq<Id>, env: Env, k: Key)
    requires Inv(s) && Enabled(s, Chown(i, attr, true, env, env))
    requires FirstRefusal(s.dq, MoveOf(s.enabled, s.inodes[i].owner, attr, false, s.inodes[i].blocks), env, 0) == 2
    ensures var x := s.inodes[i];
            var m := MoveOf(s.enabled, x.owner, attr, false, x.blocks);
            var dq' := Transfer(s.dq, m, env, x.held);
            var y := x.(held := Rehung(m, x.held, 2), owner := attr);
            k in dq' && Shifts(s.enabled, s.dq[k], dq'[k], x, y, k)
  {
    hide Transfer, FirstRefusal, Balances, WellHeld, Initialized;
    var x := s.inodes[i];
    var m := MoveOf(s.enabled, x.owner, attr, false, x.blocks);
    var y := x.(held := Rehung(m, x.held, 2), owner := attr);
    TransferAt(s.dq, m, env, x.held, k);
    Part(s, i, k);
    MineIsOwner(s, x, k);
    RehungHeld(s.enabled, x, attr);
    MineIsOwner(s, y, k);
  }

  lemma ChownInv(s: State, i: nat, attr: seq<Id>, notified: bool, env: Env, env2: Env)
    requires Inv(s) && Enabled(s, Chown(i, attr, notified, env, env2))
    ensures var s', stuck := ChownTo(s, i, attr, notified, env, env2), Stuck(s, Chown(i, attr, notified, env, env2));
            (Inv(s') <==> !stuck) && (stuck ==> !InBalance(s'))
  {
    hide Transfer, FirstRefusal, Balances, WellHeld, Initialized, Shifts;
    var x := s.inodes[i];
    var m := MoveOf(s.enabled, x.owner, attr, false, x.blocks);
    var dq1 := Transfer(s.dq, m, env, x.held);
    DoneTotal(s.dq, m, env, x.held);
    if FirstRefusal(s.dq, m, env, 0) < 2 {
      forall k: Key ensures SameUse(dq1[k], s.dq[k]) && dq1[k].count == s.dq[k].count {
        TransferAt(s.dq, m, env, x.held, k);
      }
      SameInv(s, dq1);
    } else if notified {
      var y := x.(held := Rehung(m, x.held, 2), owner := attr);
      RehungHeld(s.enabled, x, attr);
      forall k: Key ensures Shifts(s.enabled, s.dq[k], dq1[k], x, y, k) {
        ChownAt(s, i, attr, env, k);
      }
      PutInv(s, i, y, dq1);
    } else {
      UndoInv(s, i, attr, env, env2);
    }
  }

  lemma UndoInv(s: State, i: nat, attr: seq<Id>, env: Env, env2: Env)
    requires Inv(s) && Enabled(s, Chown(i, attr, false, env, env2))
    requires FirstRefusal(s.dq, MoveOf(s.enabled, s.inodes[i].owner, attr, false, s.inodes[i].blocks), env, 0) == 2
    ensures var s', stuck := ChownTo(s, i, attr, false, env, env2), Stuck(s, Chown(i, attr, false, env, env2));
            (Inv(s') <==> !stuck) && (stuck ==> !InBalance(s'))
  {
    hide Transfer, FirstRefusal, Balances, WellHeld, Initialized, Covers, TakesBack, Rehung, SameUse;
    var x := s.inodes[i];
    var m, b := MoveOf(s.enabled, x.owner, attr, false, x.blocks), MoveOf(s.enabled, x.owner, attr, true, x.blocks);
    CoversOwners(s, i, attr);
    ReverseUndoes(s.dq, s.enabled, x.owner, attr, x.blocks, env, env2, x.held);
    var dq1, held1 := Transfer(s.dq, m, env, x.held), Rehung(m, x.held, 2);
    var dq2 := Transfer(dq1, b, env2, held1);
    var s' := ChownTo(s, i, attr, false, env, env2);
    if FirstRefusal(dq1, b, env2, 0) == 2 {
      assert s' == Put1(s, i, x, dq2);
      SameInode(s, i, dq2);
      SameInv(s, dq2);
    } else {
      var k: Key :| m.From(k) && !TakesBack(s.dq[k], x.blocks, env2);
      StuckAt(s, i, attr, env, env2, k);
      ShortAccount(s', k);
    }
  }

  lemma SameInode(s: State, i: nat, dq: Accounts)
    requires i < |s.inodes|
    ensures Put1(s, i, s.inodes[i], dq) == s.(dq := dq)
  {
    assert s.inodes[i := s.inodes[i]] == s.inodes;
  }

  /** An undo that is refused leaves usage where the transfer put it, and the inode with the owners it had. */
  lemma StuckState(s: State, i: nat, attr: seq<Id>, env: Env, env2: Env, k: Key)
    requires Inv(s) && Enabled(s, Chown(i, attr, false, env, env2)) && Stuck(s, Chown(i, attr, false, env, env2))
    ensures var s', x := ChownTo(s, i, attr, false, env, env2), s.inodes[i];
            var m := MoveOf(s.enabled, x.owner, attr, false, x.blocks);
            var dq1, held1 := Transfer(s.dq, m, env, x.held), Rehung(m, x.held, 2);
            && s'.enabled == s.enabled && Total(s'.dq) && s'.inodes == s.inodes[i := x.(held := held1)]
            && k in dq1 && SameUse(s'.dq[k], dq1[k])
            && FirstRefusal(s.dq, m, env, 0) == 2 && Covers(s.dq, m, x.held)
  {
    hide Transfer, FirstRefusal, Balances, WellHeld, Initialized, Covers, TakesBack, Rehung, SameUse, MoveOf;
    var x := s.inodes[i];
    CoversOwners(s, i, attr);
    ReverseUndoes(s.dq, s.enabled, x.owner, attr, x.blocks, env, env2, x.held);
  }

  /** An inode is then missing from the account of each owner it was to leave, and counted with the account
      of each owner it did not get. */
  lemma StuckAt(s: State, i: nat, attr: seq<Id>, env: Env, env2: Env, k: Key)
    requires Inv(s) && Enabled(s, Chown(i, attr, false, env, env2)) && Stuck(s, Chown(i, attr, false, env, env2))
    ensures var s' := ChownTo(s, i, attr, false, env, env2);
            var m := MoveOf(s.enabled, s.inodes[i].owner, attr, false, s.inodes[i].blocks);
            && s'.enabled == s.enabled && Total(s'.dq) && Owned(s'.inodes)
            && (m.From(k) ==> s'.dq[k].ino.use + 1 == Sum(s'.inodes, ByInode, k))
            && (m.To(k) ==> s'.dq[k].ino.use == Sum(s'.inodes, ByInode, k) + 1)
  {
    hide Transfer, FirstRefusal, Balances, WellHeld, Initialized, Covers, Stuck, ChownTo, Rehung;
    var x := s.inodes[i];
    var m := MoveOf(s.enabled, x.owner, attr, false, x.blocks);
    StuckState(s, i, attr, env, env2, k);
    TransferAt(s.dq, m, env, x.held, k);
    SameSum(s, i, Rehung(m, x.held, 2), k);
    CoveredUse(s.dq, m, x.held, k);
  }

  lemma SameSum(s: State, i: nat, held: Held, k: Key)
    requires Inv(s) && i < |s.inodes|
    ensures var inodes := s.inodes[i := s.inodes[i].(held := held)];
            Owned(inodes) && (s.enabled[k.kind] ==> s.dq[k].ino.use == Sum(inodes, ByInode, k))
  {
    SumPut(s.inodes, i, s.inodes[i].(held := held), ByInode, k);
    assert Balances(s, k);
  }

  lemma CoveredUse(dq: Accounts, m: Move, held: Held, k: Key)
    requires Total(dq) && m.Valid() && Covers(dq, m, held)
    ensures m.From(k) ==> dq[k].ino.use >= 1
  {
  }

  lemma ShortAccount(s: State, k: Key)
    requires |s.enabled| == 2 && Total(s.dq) && Owned(s.inodes) && s.enabled[k.kind]
    requires s.dq[k].ino.use != Sum(s.inodes, ByInode, k)
    ensures !Balances(s, k) && !InBalance(s) && !Inv(s)
  {
  }

  /** Every step keeps the accounts in balance, except an undo that the first owner refuses, which never
      does. */
  lemma StepInv(s: State, step: Step)
    requires Inv(s) && Enabled(s, step)
    ensures Inv(Do(s, step)) <==> !Stuck(s, step)
    ensures InBalance(Do(s, step)) <==> !Stuck(s, step)
  {
    match step
    case Initialize(i) => InitializeInv(s, i);
    case Drop(i) =>
      NothingHeld(s.enabled, s.inodes[i].(held := NOTHING), Key(0, 0));
      ReferInv(s, i, NOTHING);
    case AllocBlocks(i, n, env) => AllocInv(s, i, n, env);
    case FreeBlocks(i, n) => FreeInv(s, i, n);
    case Create(owner, env) => CreateInv(s, owner, env);
    case Delete(i) => DeleteInv(s, i);
    case Chown(i, attr, notified, env, env2) => ChownInv(s, i, attr, notified, env, env2);
  }

  lemma InitializeInv(s: State, i: nat)
    requires Inv(s) && Enabled(s, Initialize(i))
    ensures Inv(Do(s, Initialize(i)))
  {
    assert WellHeld(s.enabled, s.inodes[i]);
    ReferInv(s, i, Hung(s.enabled, s.inodes[i]));
  }

  /** No inode yet and nothing used. */
  ghost predicate Init(s: State) {
    && |s.enabled| == 2 && Total(s.dq) && s.inodes == []
    && forall k: Key :: s.dq[k].ino.use == s.dq[k].blk.use == s.dq[k].count == 0
  }

  ghost predicate Next(s: State, step: Step, s': State) {
    && |s.enabled| == 2 && Total(s.dq) && Owned(s.inodes) && Enabled(s, step)
    && !Stuck(s, step) && s' == Do(s, step)
  }

  ghost predicate Run(states: seq<State>, steps: seq<Step>) {
    && |states| == |steps| + 1 && Init(states[0])
    && forall j :: 0 <= j < |steps| ==> Next(states[j], steps[j], states[j + 1])
  }

  lemma {:induction false} RunInv(states: seq<State>, steps: seq<Step>, j: nat)
    requires Run(states, steps) && j < |states|
    ensures Inv(states[j])
  {
    if j == 0 {
      forall k: Key ensures Balances(states[0], k) {
        assert k in states[0].dq;
      }
    } else {
      RunInv(states, steps, j - 1);
      assert Next(states[j - 1], steps[j - 1], states[j - 1 + 1]);
      StepInv(states[j - 1], steps[j - 1]);
    }
  }

  /** In every state of every run each account of an enabled kind records the inodes and blocks charged to
      its owner, and as many references as there are inodes that refer to it. */
  lemma AccountsBalance(states: seq<State>, steps: seq<Step>, j: nat, k: Key)
    requires Run(states, steps) && j < |states|
    ensures Inv(states[j]) && Balances(states[j], k)
  {
    RunInv(states, steps, j);
  }

  // ---------- a run that reaches a refused undo ----------

  const UNUSED := Meter(0, 0, 0, 0)

  /** Group 1 may have one inode; nobody else is limited. */
  function FreshAt(k: Key): Dquot { Dquot(if k == Key(1, 1) then UNUSED.(hard := 1) else UNUSED, UNUSED, false, 0) }

  const KEYS := set t: Kind, i: Id | 0 <= t < 2 && 0 <= i < 0x1_0000 :: Key(t, i)

  const FRESH: Accounts := map k | k in KEYS :: FreshAt(k)

  function By(root: bool): Env { Env(0, root, (_, _) => 0) }

  const OWNED := Ino(true, [0, 1], 0, [None, Some(1)])

  function Limits(d: Dquot): (nat, nat, bool) { (d.ino.hard, d.ino.soft, d.fake) }

  lemma FreshLimits()
    ensures Total(FRESH)
    ensures forall k: Key :: FRESH[k].ino.use == FRESH[k].blk.use == FRESH[k].count == 0
    ensures forall k: Key :: Limits(FRESH[k]) == (if k == Key(1, 1) then 1 else 0, 0, false)
  {
    forall k: Key ensures k in FRESH && FRESH[k] == FreshAt(k) {
      assert k == Key(k.kind, k.id);
    }
  }

  /** Charging an account or taking a reference on it leaves its limits alone. */
  lemma LimitsStay(dq: Accounts, held: Held, env: Env, k: Key)
    requires Total(dq)
    ensures var dq1 := Refer(dq, NOTHING, held);
            && Total(dq1)
            && var dq2 := Alloc(dq1, held, Inodes, 1, env);
               k in dq2 && Limits(dq2[k]) == Limits(dq[k])
  {
    hide After, Plus, Passes, FirstFail;
    assert k in dq;
    var d := Refer(dq, NOTHING, held)[k];
    ChargeLimits(d, k.kind, env);
    ChargeLimits(After(d, k.kind, Inodes, 1, env), k.kind, env);
  }

  lemma ChargeLimits(d: Dquot, kind: Kind, env: Env)
    ensures Limits(After(d, kind, Inodes, 1, env)) == Limits(Plus(d, Inodes, 1)) == Limits(d)
  {
  }

  lemma CreateByRoot(s: State)
    requires s.enabled == [false, true] && Total(s.dq) && Owned(s.inodes)
    ensures var step := Create([0, 1], By(true));
            var s' := Do(s, step);
            && Next(s, step, s') && s'.enabled == s.enabled && s'.inodes == s.inodes + [OWNED]
            && Total(s'.dq) && forall k: Key :: Limits(s'.dq[k]) == Limits(s.dq[k])
  {
    hide Alloc, Refer, Limits;
    var x := Ino(true, [0, 1], 0, NOTHING);
    assert Hung(s.enabled, x) == OWNED.held;
    LimitsStay(s.dq, OWNED.held, By(true), Key(1, 1));
    var dq2 := Alloc(Refer(s.dq, NOTHING, OWNED.held), OWNED.held, Inodes, 1, By(true));
    forall k: Key ensures k in dq2 && Limits(dq2[k]) == Limits(s.dq[k]) {
      LimitsStay(s.dq, OWNED.held, By(true), k);
    }
  }

  /** With limits on groups, root makes two inodes in group 1, which may have one.  Somebody else then asks for
      one of them to go to group 2.  The transfer comes before the permission is checked; the change is refused and
      the transfer is not undone. */
  lemma StuckRun() returns (states: seq<State>, steps: seq<Step>, step: Step)
    ensures Run(states, steps) && |steps| == 2
    ensures var s := states[2];
            Inv(s) && Enabled(s, step) && Stuck(s, step) && step.env == step.env2 == By(false) && !InBalance(Do(s, step))
  {
    hide Balances, Alloc, Refer, Do, Stuck, InBalance, Inv;
    var create := Create([0, 1], By(true));
    var s0 := State([false, true], FRESH, []);
    FreshLimits();
    CreateByRoot(s0);
    var s1 := Do(s0, create);
    CreateByRoot(s1);
    var s2 := Do(s1, create);
    states, steps, step := [s0, s1, s2], [create, create], Chown(0, [0, 2], false, By(false), By(false));
    RunInv(states, steps, 2);
    assert s2.inodes == [OWNED, OWNED];
    TwoOwned(s2);
    GivenAway(s2);
    StepInv(s2, step);
  }

  lemma TwoOwned(s: State)
    requires Inv(s) && s.enabled == [false, true] && s.inodes == [OWNED, OWNED]
    ensures s.dq[Key(1, 1)].ino.use == 2
  {
    assert Balances(s, Key(1, 1));
    SumAdd([], OWNED, ByInode, Key(1, 1));
    SumAdd([OWNED], OWNED, ByInode, Key(1, 1));
    assert [OWNED] + [OWNED] == [OWNED, OWNED] && [] + [OWNED] == [OWNED];
  }

  lemma GivenAway(s: State)
    requires s.enabled == [false, true] && Total(s.dq) && s.inodes == [OWNED, OWNED]
    requires s.dq[Key(1, 1)].ino.use == 2 && Limits(s.dq[Key(1, 1)]) == (1, 0, false)
    requires Limits(s.dq[Key(1, 2)]) == (0, 0, false)
    ensures Owned(s.inodes) && Stuck(s, Chown(0, [0, 2], false, By(false), By(false)))
  {
    var m := MoveOf(s.enabled, [0, 1], [0, 2], false, 0);
    assert m.From(Key(1, 1));
    LimitsDecide(s.dq[Key(1, 1)], 0, By(false));
  }
}
