/** Disk quota accounts (fs/dquot.c): check, charge and transfer.  Warnings to the terminal and the
    write-back of an account are not part of the model, and every call is atomic. */
module Quota {
  import opened Base

  const MAXQUOTAS: nat := 2
  type Kind = x: int | 0 <= x < 2
  type Id = x: int | 0 <= x < 0x1_0000

  /** There is an account for each user (kind 0) and each group (kind 1). */
  datatype Key = Key(kind: Kind, id: Id)

  datatype Resource = Inodes | Blocks

  /** How much is used, the two limits, and when the grace time for the soft one ends (0: not running). */
  datatype Meter = Meter(use: nat, hard: nat, soft: nat, time: nat)

  datatype Dquot = Dquot(ino: Meter, blk: Meter, fake: bool, count: nat)

  datatype Env = Env(now: nat, root: bool, exp: (Kind, Resource) -> nat)

  type Accounts = map<Key, Dquot>

  ghost predicate Total(dq: Accounts) { forall k: Key :: k in dq }

  // ---------- one account (fs/dquot.c:326-455) ----------

  function Of(d: Dquot, r: Resource): Meter { if r.Inodes? then d.ino else d.blk }

  function With(d: Dquot, r: Resource, m: Meter): Dquot { if r.Inodes? then d.(ino := m) else d.(blk := m) }

  /** `n` more are within the hard limit and, once the grace time is over, within the soft one. */
  predicate Allows(m: Meter, n: nat, now: nat) {
    && (m.hard == 0 || m.use + n <= m.hard)
    && (m.soft == 0 || m.use + n <= m.soft || m.time == 0 || now < m.time)
  }

  predicate Passes(d: Dquot, r: Resource, n: nat, env: Env) {
    n == 0 || d.fake || env.root || Allows(Of(d, r), n, env.now)
  }

  /** A check that passes starts the grace time when it finds the soft limit crossed. */
  function After(d: Dquot, kind: Kind, r: Resource, n: nat, env: Env): Dquot {
    var m := Of(d, r);
    if n == 0 || d.fake || env.root || m.soft == 0 || m.use + n <= m.soft || m.time != 0 || !Passes(d, r, n, env)
    then d
    else With(d, r, m.(time := env.now + env.exp(kind, r)))
  }

  function Counted(d: Dquot, n: nat): Dquot { d.(count := n) }

  function Less(use: nat, n: nat): nat { if use > n then use - n else 0 }

  function Plus(d: Dquot, r: Resource, n: nat): Dquot {
    With(d, r, Of(d, r).(use := Of(d, r).use + n))
  }

  function Minus(d: Dquot, r: Resource, n: nat): Dquot {
    var m := Of(d, r);
    var use := Less(m.use, n);
    With(d, r, m.(use := use, time := if use < m.soft then 0 else m.time))
  }

  /** A release undoes a charge of as much; a charge undoes a release exactly when that much was used, for
      usage does not fall below nothing.  Neither touches the other resource, the limits or the references, and
      a release ends the grace time just when it leaves less than the soft limit. */
  lemma ReleaseUndoesCharge(d: Dquot, r: Resource, n: nat)
    ensures Of(Minus(Plus(d, r, n), r, n), r).use == Of(d, r).use
    ensures Of(Plus(Minus(d, r, n), r, n), r).use == Of(d, r).use <==> n <= Of(d, r).use
    ensures var e, other := Minus(Plus(d, r, n), r, n), if r.Inodes? then Blocks else Inodes;
            && Of(e, other) == Of(d, other) && e.fake == d.fake && e.count == d.count
            && Of(e, r).hard == Of(d, r).hard && Of(e, r).soft == Of(d, r).soft
            && (e == d <==> Of(d, r).soft <= Of(d, r).use || Of(d, r).time == 0)
  {
  }

  // ---------- allocation and release (fs/dquot.c:771-826) ----------

  type Held = h: seq<Option<Id>> | |h| == 2 witness [None, None]

  predicate Mine(held: Held, k: Key) { held[k.kind] == Some(k.id) }

  /** The first kind from `c` on whose check fails, or 2. */
  function FirstFail(dq: Accounts, held: Held, r: Resource, n: nat, env: Env, c: nat): (f: nat)
    requires Total(dq) && c <= 2
    ensures c <= f <= 2
    ensures forall k: Key :: Mine(held, k) && c <= k.kind < f ==> Passes(dq[k], r, n, env)
    ensures f < 2 ==> held[f].Some? && !Passes(dq[Key(f, held[f].value)], r, n, env)
    decreases 2 - c
  {
    if c == 2 || (held[c].Some? && !Passes(dq[Key(c, held[c].value)], r, n, env)) then c
    else FirstFail(dq, held, r, n, env, c + 1)
  }

  /** The accounts after the checks of the kinds below `c`. */
  function Checked(dq: Accounts, held: Held, r: Resource, n: nat, env: Env, c: nat): Accounts {
    map k | k in dq :: if Mine(held, k) && k.kind < c then After(dq[k], k.kind, r, n, env) else dq[k]
  }

  function Charged(dq: Accounts, held: Held, r: Resource, n: nat, c: nat): Accounts {
    map k | k in dq :: if Mine(held, k) && k.kind < c then Plus(dq[k], r, n) else dq[k]
  }

  function Freed(dq: Accounts, held: Held, r: Resource, n: nat, c: nat): Accounts {
    map k | k in dq :: if Mine(held, k) && k.kind < c then Minus(dq[k], r, n) else dq[k]
  }

  /** `dquot_alloc_block` and `dquot_alloc_inode`: all the accounts are charged or none is. */
  function Alloc(dq: Accounts, held: Held, r: Resource, n: nat, env: Env): Accounts
    requires Total(dq)
  {
    var f := FirstFail(dq, held, r, n, env, 0);
    if f < 2 then Checked(dq, held, r, n, env, f) else Charged(Checked(dq, held, r, n, env, 2), held, r, n, 2)
  }

  // ---------- transfer (fs/dquot.c:832-921) ----------

  /** What a transfer moves: for each kind in `on`, from one account to another. */
  datatype Move = Move(on: seq<bool>, from: seq<Id>, dest: seq<Id>, blocks: nat) {
    predicate Valid() {
      |on| == |from| == |dest| == 2 && forall t: Kind :: on[t] ==> from[t] != dest[t]
    }
    predicate From(k: Key) requires Valid() { on[k.kind] && from[k.kind] == k.id }
    predicate To(k: Key) requires Valid() { on[k.kind] && dest[k.kind] == k.id }
  }

  predicate Accepts(d: Dquot, blocks: nat, env: Env) {
    Passes(d, Inodes, 1, env) && Passes(d, Blocks, blocks, env)
  }

  function AfterBoth(d: Dquot, kind: Kind, blocks: nat, env: Env): Dquot {
    if !Passes(d, Inodes, 1, env) then d else After(After(d, kind, Inodes, 1, env), kind, Blocks, blocks, env)
  }

  /** The first kind from `c` on whose new account does not accept the inode, or 2. */
  function FirstRefusal(dq: Accounts, m: Move, env: Env, c: nat): (f: nat)
    requires Total(dq) && m.Valid() && c <= 2
    ensures c <= f <= 2
    ensures forall k: Key :: m.To(k) && c <= k.kind < f ==> Accepts(dq[k], m.blocks, env)
    ensures f < 2 ==> m.on[f] && !Accepts(dq[Key(f, m.dest[f])], m.blocks, env)
    decreases 2 - c
  {
    if c == 2 || (m.on[c] && !Accepts(dq[Key(c, m.dest[c])], m.blocks, env)) then c
    else FirstRefusal(dq, m, env, c + 1)
  }

  /** An account when both references of the kinds below `c` have been taken and the kinds below `v`
      checked. */
  function TakenAt(d: Dquot, k: Key, m: Move, env: Env, c: nat, v: nat): Dquot
    requires m.Valid()
  {
    if m.From(k) && k.kind < c then Counted(d, d.count + 1)
    else if m.To(k) && k.kind < c then
      Counted(if k.kind < v then AfterBoth(d, k.kind, m.blocks, env) else d, d.count + 1)
    else d
  }

  function Taken(dq: Accounts, m: Move, env: Env, c: nat, v: nat): Accounts
    requires m.Valid()
  {
    map k | k in dq :: TakenAt(dq[k], k, m, env, c, v)
  }

  /** A refused transfer: only grace times may have started. */
  function RefusedAt(d: Dquot, k: Key, m: Move, env: Env, v: nat): Dquot
    requires m.Valid()
  {
    if m.To(k) && k.kind < v then AfterBoth(d, k.kind, m.blocks, env) else d
  }

  function Refused(dq: Accounts, m: Move, env: Env, v: nat): Accounts
    requires m.Valid()
  {
    map k | k in dq :: RefusedAt(dq[k], k, m, env, v)
  }

  function Debit(d: Dquot, blocks: nat): Dquot { Minus(Minus(d, Inodes, 1), Blocks, blocks) }

  function Credit(d: Dquot, blocks: nat): Dquot { Plus(Plus(d, Inodes, 1), Blocks, blocks) }

  /** The references on an account after the transfer: the inode's own moves with it, if it has one. */
  function Moved(d: Dquot, k: Key, m: Move, held: Held): nat
    requires m.Valid()
  {
    Less(d.count + (if m.To(k) && held[k.kind].Some? then 1 else 0), if Mine(held, k) then 1 else 0)
  }

  /** An account after an accepted transfer. */
  function DoneAt(d: Dquot, k: Key, m: Move, env: Env, held: Held): Dquot
    requires m.Valid()
  {
    if !m.on[k.kind] then d
    else
      Counted(if m.From(k) then Debit(d, m.blocks)
              else if m.To(k) then Credit(AfterBoth(d, k.kind, m.blocks, env), m.blocks)
              else d,
              Moved(d, k, m, held))
  }

  function Done(dq: Accounts, m: Move, env: Env, held: Held): Accounts
    requires m.Valid()
  {
    map k | k in dq :: DoneAt(dq[k], k, m, env, held)
  }

  function Rehung(m: Move, held: Held, c: nat): Held
    requires m.Valid()
  {
    seq(2, t requires 0 <= t < 2 => if m.on[t] && t < c && held[t].Some? then Some(m.dest[t]) else held[t])
  }

  /** What a call of `dquot_transfer` moves (fs/dquot.c:864-880): `direction` is set to undo an earlier
      call with the same arguments. */
  function MoveOf(enabled: seq<bool>, owner: seq<Id>, attr: seq<Id>, direction: bool, blocks: nat): (m: Move)
    requires |enabled| == |owner| == |attr| == 2
    ensures m.Valid()
  {
    Move(seq(2, t requires 0 <= t < 2 => enabled[t] && owner[t] != attr[t]),
         if direction then attr else owner, if direction then owner else attr, blocks)
  }

  /** `dquot_transfer`. */
  function Transfer(dq: Accounts, m: Move, env: Env, held: Held): Accounts
    requires Total(dq) && m.Valid()
  {
    var f := FirstRefusal(dq, m, env, 0);
    if f < 2 then Refused(dq, m, env, f + 1) else Done(dq, m, env, held)
  }

  // ---------- one more kind ----------

  lemma CheckedStep(dq: Accounts, held: Held, r: Resource, n: nat, env: Env, c: nat)
    requires Total(dq) && c < 2
    ensures var now, next := Checked(dq, held, r, n, env, c), Checked(dq, held, r, n, env, c + 1);
            && Total(now) && Total(next)
            && if held[c].None? then next == now
               else var k := Key(c, held[c].value);
                    now[k] == dq[k] && next == now[k := After(dq[k], c, r, n, env)]
  {
    hide After;
  }

  lemma ChargedStep(dq: Accounts, held: Held, r: Resource, n: nat, c: nat)
    requires Total(dq) && c < 2
    ensures var now, next := Charged(dq, held, r, n, c), Charged(dq, held, r, n, c + 1);
            && Total(now) && Total(next)
            && if held[c].None? then next == now
               else var k := Key(c, held[c].value);
                    now[k] == dq[k] && next == now[k := Plus(dq[k], r, n)]
  {
    hide Plus;
  }

  lemma FreedStep(dq: Accounts, held: Held, r: Resource, n: nat, c: nat)
    requires Total(dq) && c < 2
    ensures var now, next := Freed(dq, held, r, n, c), Freed(dq, held, r, n, c + 1);
            && Total(now) && Total(next)
            && if held[c].None? then next == now
               else var k := Key(c, held[c].value);
                    now[k] == dq[k] && next == now[k := Minus(dq[k], r, n)]
  {
    hide Minus;
  }

  lemma NoKindYet(dq: Accounts, held: Held, r: Resource, n: nat, env: Env)
    ensures Checked(dq, held, r, n, env, 0) == Charged(dq, held, r, n, 0) == Freed(dq, held, r, n, 0) == dq
  {
  }

  lemma FailKeeps(d: Dquot, kind: Kind, r: Resource, n: nat, env: Env)
    requires !Passes(d, r, n, env)
    ensures After(d, kind, r, n, env) == d
  {
  }

  lemma SameCount(d: Dquot, blocks: nat)
    ensures Debit(d, blocks).count == Credit(d, blocks).count == d.count
  {
  }

  /** References and accounting do not interfere. */
  lemma CountApart(d: Dquot, n: nat, kind: Kind, blocks: nat, env: Env)
    ensures Passes(Counted(d, n), Inodes, 1, env) == Passes(d, Inodes, 1, env)
    ensures After(Counted(d, n), kind, Inodes, 1, env) == Counted(After(d, kind, Inodes, 1, env), n)
    ensures Passes(After(d, kind, Inodes, 1, env), Blocks, blocks, env) == Passes(d, Blocks, blocks, env)
    ensures Passes(Counted(d, n), Blocks, blocks, env) == Passes(d, Blocks, blocks, env)
    ensures After(Counted(d, n), kind, Blocks, blocks, env) == Counted(After(d, kind, Blocks, blocks, env), n)
    ensures Debit(Counted(d, n), blocks) == Counted(Debit(d, blocks), n)
    ensures Credit(Counted(d, n), blocks) == Counted(Credit(d, blocks), n)
    ensures After(d, kind, Inodes, 1, env).count == AfterBoth(d, kind, blocks, env).count == d.count
    ensures Debit(d, blocks).count == Credit(d, blocks).count == d.count
  {
  }

  /** The references of the kinds from `d` to below `c` are still taken. */
  ghost function Returning(dq: Accounts, m: Move, env: Env, c: nat, d: nat): Accounts
    requires m.Valid()
  {
    map k | k in dq :: if k.kind < d then RefusedAt(dq[k], k, m, env, c) else TakenAt(dq[k], k, m, env, c, c)
  }

  /** The kinds below `c` are settled, the references of the others still taken. */
  ghost function Settling(dq: Accounts, m: Move, env: Env, held: Held, c: nat): Accounts
    requires m.Valid()
  {
    map k | k in dq :: if k.kind < c then DoneAt(dq[k], k, m, env, held) else TakenAt(dq[k], k, m, env, 2, 2)
  }

  lemma AtFacts(d: Dquot, k: Key, m: Move, env: Env, held: Held, c: nat)
    requires m.Valid() && c <= 2
    ensures TakenAt(d, k, m, env, 0, 0) == d
    ensures k.kind != c ==> TakenAt(d, k, m, env, c, c) == TakenAt(d, k, m, env, c + 1, c + 1)
    ensures k.kind >= c ==> TakenAt(d, k, m, env, c, c) == RefusedAt(d, k, m, env, c) == d
    ensures !m.on[k.kind] ==> TakenAt(d, k, m, env, c, c) == RefusedAt(d, k, m, env, c) == DoneAt(d, k, m, env, held) == d
    ensures k.kind < c && m.From(k) ==>
              TakenAt(d, k, m, env, c, c) == Counted(d, d.count + 1) && RefusedAt(d, k, m, env, c) == d
    ensures k.kind < c && m.To(k) ==>
              var e := AfterBoth(d, k.kind, m.blocks, env);
              TakenAt(d, k, m, env, c, c) == Counted(e, d.count + 1) && RefusedAt(d, k, m, env, c) == e == Counted(e, d.count)
    ensures m.From(k) ==> DoneAt(d, k, m, env, held) == Counted(Debit(d, m.blocks), Moved(d, k, m, held))
    ensures m.To(k) ==>
              DoneAt(d, k, m, env, held)
              == Counted(Credit(AfterBoth(d, k.kind, m.blocks, env), m.blocks), Moved(d, k, m, held))
    ensures !m.From(k) && !m.To(k) ==> TakenAt(d, k, m, env, c, c) == RefusedAt(d, k, m, env, c) == d
    ensures !m.From(k) && !m.To(k) && m.on[k.kind] ==>
              DoneAt(d, k, m, env, held) == if Mine(held, k) then Counted(d, Less(d.count, 1)) else d
  {
    hide Debit, Credit, AfterBoth;
    AfterBothCount(d, k.kind, m.blocks, env);
  }

  lemma AfterBothCount(d: Dquot, kind: Kind, blocks: nat, env: Env)
    ensures AfterBoth(d, kind, blocks, env).count == d.count
  {
  }

  lemma NoneTaken(dq: Accounts, m: Move, env: Env)
    requires m.Valid()
    ensures Taken(dq, m, env, 0, 0) == dq
  {
  }

  lemma TakenTotal(dq: Accounts, m: Move, env: Env)
    requires Total(dq) && m.Valid()
    ensures Total(Taken(dq, m, env, 2, 2))
  {
  }

  lemma TakenStep(dq: Accounts, m: Move, env: Env, c: nat)
    requires Total(dq) && m.Valid() && c < 2
    ensures var now, next := Taken(dq, m, env, c, c), Taken(dq, m, env, c + 1, c + 1);
            && Total(now) && Total(next)
            && if !m.on[c] then next == now
               else var a, b := Key(c, m.from[c]), Key(c, m.dest[c]);
                    && now[a] == dq[a] && now[b] == dq[b]
                    && next == now[a := Counted(dq[a], dq[a].count + 1)]
                                  [b := Counted(AfterBoth(dq[b], c, m.blocks, env), dq[b].count + 1)]
  {
    hide TakenAt, AfterBoth;
    ghost var a, b := Key(c, m.from[c]), Key(c, m.dest[c]);
    forall k: Key | !m.on[c] || (k != a && k != b)
      ensures k in dq && TakenAt(dq[k], k, m, env, c, c) == TakenAt(dq[k], k, m, env, c + 1, c + 1)
    {
      AtFacts(dq[k], k, m, env, [None, None], c);
      AtFacts(dq[k], k, m, env, [None, None], c + 1);
    }
    AtFacts(dq[a], a, m, env, [None, None], c);
    AtFacts(dq[a], a, m, env, [None, None], c + 1);
    AtFacts(dq[b], b, m, env, [None, None], c);
    AtFacts(dq[b], b, m, env, [None, None], c + 1);
  }

  lemma ReturningStep(dq: Accounts, m: Move, env: Env, c: nat, d: nat)
    requires Total(dq) && m.Valid() && d < c <= 2
    ensures var now, next := Returning(dq, m, env, c, d), Returning(dq, m, env, c, d + 1);
            && Total(now) && Total(next)
            && if !m.on[d] then next == now
               else var a, b := Key(d, m.from[d]), Key(d, m.dest[d]);
                    && now[a].count > 0 && now[b].count > 0
                    && next == now[a := Counted(now[a], now[a].count - 1)][b := Counted(now[b], now[b].count - 1)]
  {
    hide TakenAt, RefusedAt, AfterBoth;
    ghost var a, b := Key(d, m.from[d]), Key(d, m.dest[d]);
    forall k: Key | !m.on[d] || (k != a && k != b)
      ensures k in dq && (k.kind == d ==> TakenAt(dq[k], k, m, env, c, c) == RefusedAt(dq[k], k, m, env, c))
    {
      AtFacts(dq[k], k, m, env, [None, None], c);
    }
    AtFacts(dq[a], a, m, env, [None, None], c);
    AtFacts(dq[b], b, m, env, [None, None], c);
  }

  lemma ReturningEnds(dq: Accounts, m: Move, env: Env, c: nat)
    requires Total(dq) && m.Valid() && c <= 2
    ensures Returning(dq, m, env, c, 0) == Taken(dq, m, env, c, c)
    ensures Returning(dq, m, env, c, c) == Refused(dq, m, env, c)
  {
    hide TakenAt, RefusedAt;
    forall k: Key | k.kind >= c ensures k in dq && TakenAt(dq[k], k, m, env, c, c) == RefusedAt(dq[k], k, m, env, c) {
      AtFacts(dq[k], k, m, env, [None, None], c);
    }
  }

  lemma SettlingEnds(dq: Accounts, m: Move, env: Env, held: Held)
    requires Total(dq) && m.Valid()
    ensures Settling(dq, m, env, held, 0) == Taken(dq, m, env, 2, 2)
    ensures Settling(dq, m, env, held, 2) == Done(dq, m, env, held)
    ensures Rehung(m, held, 0) == held
  {
    hide TakenAt, DoneAt;
  }

  /** What settling kind `c` does to the accounts. */
  lemma SettlingStep(dq: Accounts, m: Move, env: Env, held: Held, c: nat)
    requires Total(dq) && m.Valid() && c < 2
    ensures var now, next := Settling(dq, m, env, held, c), Settling(dq, m, env, held, c + 1);
            && Total(now) && Total(next)
            && if !m.on[c] then next == now
               else
                 var a, b := Key(c, m.from[c]), Key(c, m.dest[c]);
                 var checked := AfterBoth(dq[b], c, m.blocks, env);
                 && now[a] == Counted(dq[a], dq[a].count + 1)
                 && now[b] == Counted(checked, dq[b].count + 1)
                 && now[a].count > 0 && now[b].count > 0
                 && next[a] == Counted(Debit(dq[a], m.blocks), Moved(dq[a], a, m, held))
                 && next[b] == Counted(Credit(checked, m.blocks), Moved(dq[b], b, m, held))
                 && (forall k: Key :: k != a && k != b ==>
                      next[k] == if k.kind == c && Mine(held, k) then Counted(now[k], Less(now[k].count, 1))
                                 else now[k])
  {
    hide TakenAt, DoneAt, AfterBoth, Debit, Credit, Moved;
    ghost var a, b := Key(c, m.from[c]), Key(c, m.dest[c]);
    forall k: Key | !m.on[c] || (k != a && k != b)
      ensures k in dq && (k.kind == c ==> TakenAt(dq[k], k, m, env, 2, 2) == dq[k])
      ensures k.kind == c ==>
                DoneAt(dq[k], k, m, env, held)
                == if m.on[c] && Mine(held, k) then Counted(dq[k], Less(dq[k].count, 1)) else dq[k]
    {
      AtFacts(dq[k], k, m, env, held, 2);
    }
    AtFacts(dq[a], a, m, env, held, 2);
    AtFacts(dq[b], b, m, env, held, 2);
  }

  /** What the second half does for one kind, account by account. */
  ghost predicate Settled(dq: Accounts, held: Held, dq': Accounts, held': Held, a: Key, b: Key, blocks: nat)
    requires Total(dq)
  {
    && Total(dq')
    && held' == (if held[a.kind].None? then held else held[a.kind := Some(b.id)])
    && dq[a].count > 0 && dq[b].count > 0
    && dq'[a] == Counted(Debit(dq[a], blocks), Less(dq[a].count - 1, if Mine(held, a) then 1 else 0))
    && dq'[b] == Counted(Credit(dq[b], blocks),
                         dq[b].count - if held[a.kind].None? || Mine(held, b) then 1 else 0)
    && forall k: Key :: k != a && k != b ==>
         dq'[k] == if k.kind == a.kind && Mine(held, k) then Counted(dq[k], Less(dq[k].count, 1)) else dq[k]
  }

  lemma SettledIs(dq: Accounts, m: Move, env: Env, held: Held, c: nat,
                  now: Accounts, mid: Held, dq': Accounts, held': Held)
    requires Total(dq) && m.Valid() && c < 2 && m.on[c]
    requires now == Settling(dq, m, env, held, c) && Total(now) && mid == Rehung(m, held, c)
    requires Settled(now, mid, dq', held', Key(c, m.from[c]), Key(c, m.dest[c]), m.blocks)
    ensures dq' == Settling(dq, m, env, held, c + 1) && held' == Rehung(m, held, c + 1)
  {
    hide Settling, Debit, Credit, AfterBoth;
    ghost var a, b := Key(c, m.from[c]), Key(c, m.dest[c]);
    ghost var checked := AfterBoth(dq[b], c, m.blocks, env);
    SettlingStep(dq, m, env, held, c);
    CountApart(dq[a], dq[a].count + 1, c, m.blocks, env);
    CountApart(checked, dq[b].count + 1, c, m.blocks, env);
    ghost var next := Settling(dq, m, env, held, c + 1);
    assert dq'[a] == next[a];
    assert dq'[b] == next[b];
    assert forall k: Key :: dq'[k] == next[k];
  }

  // ---------- the code ----------

  /** The quota part of an inode: its owners and `i_dquot`. */
  class Inode {
    var owner: seq<Id>
    var held: Held
  }

  class Dquots {
    var dq: Accounts

    method Get(k: Key)
      requires k in dq
      modifies this
      ensures dq == old(dq)[k := old(dq[k]).(count := old(dq[k].count) + 1)]
    {
      dq := dq[k := dq[k].(count := dq[k].count + 1)];
    }

    /** fs/dquot.c:457-492. */
    method Put(k: Key)
      requires k in dq
      modifies this
      ensures dq == old(dq)[k := old(dq[k]).(count := Less(old(dq[k].count), 1))]
    {
      if dq[k].count == 0 {
        // a reference too many is only reported
        assert dq == dq[k := dq[k]];
        return;
      }
      dq := dq[k := dq[k].(count := dq[k].count - 1)];
    }

    /** fs/dquot.c:381-455. */
    method Check(k: Key, r: Resource, n: nat, env: Env) returns (ok: bool)
      requires k in dq
      modifies this
      ensures ok == Passes(old(dq[k]), r, n, env)
      ensures dq == old(dq)[k := After(old(dq[k]), k.kind, r, n, env)]
    {
      var d := dq[k];
      var m := Of(d, r);
      assert dq == dq[k := d];
      if n == 0 || d.fake { return true; }
      if m.hard != 0 && m.use + n > m.hard && !env.root { return false; }
      if m.soft != 0 && m.use + n > m.soft && m.time != 0 && env.now >= m.time && !env.root { return false; }
      if m.soft != 0 && m.use + n > m.soft && m.time == 0 && !env.root {
        dq := dq[k := With(d, r, m.(time := env.now + env.exp(k.kind, r)))];
      }
      return true;
    }

    /** fs/dquot.c:326-340. */
    method Incr(k: Key, r: Resource, n: nat)
      requires k in dq
      modifies this
      ensures dq == old(dq)[k := Plus(old(dq[k]), r, n)]
    {
      var m := Of(dq[k], r);
      dq := dq[k := With(dq[k], r, m.(use := m.use + n))];
    }

    /** fs/dquot.c:342-368. */
    method Decr(k: Key, r: Resource, n: nat)
      requires k in dq
      modifies this
      ensures dq == old(dq)[k := Minus(old(dq[k]), r, n)]
    {
      var m := Of(dq[k], r);
      if m.use > n { m := m.(use := m.use - n); } else { m := m.(use := 0); }
      if m.use < m.soft { m := m.(time := 0); }
      dq := dq[k := With(dq[k], r, m)];
    }

    /** `dquot_alloc_block` and `dquot_alloc_inode` (fs/dquot.c:771-806). */
    method AllocFor(inode: Inode, r: Resource, n: nat, env: Env) returns (ok: bool)
      requires Total(dq)
      modifies this
      ensures dq == Alloc(old(dq), inode.held, r, n, env)
      ensures ok <==> FirstFail(old(dq), inode.held, r, n, env, 0) == 2
    {
      hide Checked, Charged, After, Plus, Passes;
      ghost var was, held := dq, inode.held;
      NoKindYet(was, held, r, n, env);
      for cnt := 0 to MAXQUOTAS
        invariant Total(dq) && dq == Checked(was, held, r, n, env, cnt)
        invariant FirstFail(was, held, r, n, env, 0) == FirstFail(was, held, r, n, env, cnt)
      {
        CheckedStep(was, held, r, n, env, cnt);
        if inode.held[cnt].None? { continue; }
        var pass := Check(Key(cnt, inode.held[cnt].value), r, n, env);
        if !pass {
          FailKeeps(was[Key(cnt, held[cnt].value)], cnt, r, n, env);
          return false;
        }
      }
      ghost var mid := dq;
      NoKindYet(mid, held, r, n, env);
      for cnt := 0 to MAXQUOTAS
        invariant Total(dq) && dq == Charged(mid, held, r, n, cnt)
      {
        ChargedStep(mid, held, r, n, cnt);
        if inode.held[cnt].None? { continue; }
        Incr(Key(cnt, inode.held[cnt].value), r, n);
      }
      return true;
    }

    /** `dquot_free_block` and `dquot_free_inode` (fs/dquot.c:807-829). */
    method FreeFor(inode: Inode, r: Resource, n: nat)
      requires Total(dq)
      modifies this
      ensures dq == Freed(old(dq), inode.held, r, n, 2)
    {
      hide Freed, Minus;
      ghost var was, held := dq, inode.held;
      NoKindYet(was, held, r, n, Env(0, false, (_, _) => 0));
      for cnt := 0 to MAXQUOTAS
        invariant Total(dq) && dq == Freed(was, held, r, n, cnt)
      {
        FreedStep(was, held, r, n, cnt);
        if inode.held[cnt].None? { continue; }
        Decr(Key(cnt, inode.held[cnt].value), r, n);
      }
    }

    /** The first half of `dquot_transfer`: take the references and ask the new accounts
        (fs/dquot.c:860-893). */
    method Build(m: Move, env: Env) returns (ok: bool)
      requires Total(dq) && m.Valid()
      modifies this
      ensures var f := FirstRefusal(old(dq), m, env, 0);
              ok == (f == 2) && dq == if ok then Taken(old(dq), m, env, 2, 2) else Refused(old(dq), m, env, f + 1)
    {
      hide Taken, Refused, Passes, After;
      ghost var was := dq;
      NoneTaken(was, m, env);
      for cnt := 0 to MAXQUOTAS
        invariant Total(dq) && dq == Taken(was, m, env, cnt, cnt)
        invariant FirstRefusal(was, m, env, 0) == FirstRefusal(was, m, env, cnt)
      {
        TakenStep(was, m, env, cnt);
        if !m.on[cnt] { continue; }
        var pass := Ask(Key(cnt, m.from[cnt]), Key(cnt, m.dest[cnt]), m.blocks, env);
        if !pass {
          GiveBack(m, env, was, cnt);
          return false;
        }
      }
      return true;
    }

    /** One kind: a reference on each account, then the two checks on the new one. */
    method Ask(a: Key, b: Key, blocks: nat, env: Env) returns (ok: bool)
      requires a in dq && b in dq && a != b
      modifies this
      ensures ok == Accepts(old(dq[b]), blocks, env)
      ensures dq == old(dq)[a := Counted(old(dq[a]), old(dq[a]).count + 1)]
                    [b := Counted(AfterBoth(old(dq[b]), b.kind, blocks, env), old(dq[b]).count + 1)]
    {
      hide Passes, After;
      var d := dq[b];
      CountApart(d, d.count + 1, b.kind, blocks, env);
      Get(a);
      Get(b);
      ok := Check(b, Inodes, 1, env);
      if ok {
        ghost var e := After(d, b.kind, Inodes, 1, env);
        CountApart(e, d.count + 1, b.kind, blocks, env);
        ok := Check(b, Blocks, blocks, env);
      } else {
        FailKeeps(d, b.kind, Inodes, 1, env);
      }
    }

    /** The references of the kinds up to `cnt` are given back (fs/dquot.c:887-891). */
    method GiveBack(m: Move, env: Env, ghost was: Accounts, cnt: nat)
      requires Total(was) && m.Valid() && cnt < 2 && dq == Taken(was, m, env, cnt + 1, cnt + 1)
      modifies this
      ensures dq == Refused(was, m, env, cnt + 1)
    {
      hide Taken, Refused, Returning;
      ReturningEnds(was, m, env, cnt + 1);
      for disc := 0 to cnt + 1
        invariant dq == Returning(was, m, env, cnt + 1, disc)
      {
        ReturningStep(was, m, env, cnt + 1, disc);
        if m.on[disc] {
          Put(Key(disc, m.from[disc]));
          Put(Key(disc, m.dest[disc]));
        }
      }
    }

    method Shift(a: Key, b: Key, blocks: nat)
      requires a in dq && b in dq && a != b
      modifies this
      ensures dq == old(dq)[a := Debit(old(dq[a]), blocks)][b := Credit(old(dq[b]), blocks)]
    {
      hide Minus, Plus;
      Decr(a, Inodes, 1);
      Decr(a, Blocks, blocks);
      Incr(b, Inodes, 1);
      Incr(b, Blocks, blocks);
    }

    /** The second half for one kind (fs/dquot.c:906-917). */
    method Settle(inode: Inode, a: Key, b: Key, blocks: nat)
      requires Total(dq) && a != b && a.kind == b.kind && dq[a].count > 0 && dq[b].count > 0
      modifies this, inode`held
      ensures Settled(old(dq), old(inode.held), dq, inode.held, a, b, blocks)
    {
      hide Debit, Credit;
      SameCount(dq[a], blocks);
      SameCount(dq[b], blocks);
      Shift(a, b, blocks);
      Put(a);
      if inode.held[a.kind].Some? {
        Put(Key(a.kind, inode.held[a.kind].value));
        inode.held := inode.held[a.kind := Some(b.id)];
      } else {
        Put(b);
      }
    }

    /** `dquot_transfer` (fs/dquot.c:832-921). */
    method TransferFor(inode: Inode, enabled: seq<bool>, attr: seq<Id>, direction: bool, blocks: nat, env: Env)
      returns (ok: bool)
      requires Total(dq) && |enabled| == |inode.owner| == |attr| == 2
      modifies this, inode`held
      ensures var m := MoveOf(enabled, inode.owner, attr, direction, blocks);
              && ok == (FirstRefusal(old(dq), m, env, 0) == 2)
              && dq == Transfer(old(dq), m, env, old(inode.held))
              && inode.held == if ok then Rehung(m, old(inode.held), 2) else old(inode.held)
    {
      hide Taken, Refused, Settling, Settled, Done, Counted, Debit, Credit, AfterBoth, Passes, After, Moved;
      var m := MoveOf(enabled, inode.owner, attr, direction, blocks);
      ghost var was, held := dq, inode.held;
      ok := Build(m, env);
      if !ok { return; }
      SettlingEnds(was, m, env, held);
      TakenTotal(was, m, env);
      for cnt := 0 to MAXQUOTAS
        invariant Total(dq) && dq == Settling(was, m, env, held, cnt) && inode.held == Rehung(m, held, cnt)
      {
        SettlingStep(was, m, env, held, cnt);
        if m.on[cnt] {
          ghost var now, mid := dq, inode.held;
          Settle(inode, Key(cnt, m.from[cnt]), Key(cnt, m.dest[cnt]), m.blocks);
          SettledIs(was, m, env, held, cnt, now, mid, dq, inode.held);
        } else {
          assert inode.held == Rehung(m, held, cnt + 1);
        }
      }
    }
  }
}
