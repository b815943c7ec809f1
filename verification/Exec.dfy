/** `do_execve` from the argument strings to the tables of the new program
    (fs/exec.c:278-311, 659-690; fs/binfmt_elf.c:107-168; fs/binfmt_aout.c:205-249). */
module Exec {
  import opened Base
  import opened ArgPages
  import opened ExecTables

  const STACK_TOP: int := 0xC000_0000
  const STACK_BASE: int := STACK_TOP - AREA

  /** A NULL-terminated array of pointers to exact copies of the strings. */
  ghost predicate PointerArray(mem: map<int, byte>, a: int, strs: seq<CString>) {
    && (forall i :: 0 <= i < |strs| ==> PointsTo(mem, a + 4 * i, strs[i]))
    && WordIs(mem, a + 4 * |strs|, 0)
  }

  ghost predicate PointsTo(mem: map<int, byte>, a: int, s: CString) {
    exists v :: WordIs(mem, a, v) && BytesAt(mem, v, s + [0])
  }

  /** What a program finds at its stack pointer. */
  ghost predicate StackOk(mem: map<int, byte>, sp: int, args: seq<CString>, envs: seq<CString>,
                          aux: seq<int>, ibcs: bool)
  {
    var argv := sp + (if ibcs then 4 else 12);
    var envp := argv + 4 * (|args| + 1);
    && WordIs(mem, sp, |args|)
    && (!ibcs ==> WordIs(mem, sp + 4, argv) && WordIs(mem, sp + 8, envp))
    && PointerArray(mem, argv, args) && PointerArray(mem, envp, envs)
    && forall i :: 0 <= i < |aux| ==> WordIs(mem, envp + 4 * (|envs| + 1) + 4 * i, aux[i])
  }

  lemma TableWord(mem: map<int, byte>, base: int, vals: seq<int>, i: nat)
    requires Table(mem, base, Somes(vals)) && i < |vals|
    ensures WordIs(mem, base + 4 * i, vals[i])
  {
    assert SlotIs(mem, base, Somes(vals), i);
  }

  /** A stretch of the image that is a pointer array is one in memory. */
  lemma ArrayInTable(mem: map<int, byte>, base: int, vals: seq<int>, at: nat, p: int, strs: seq<CString>)
    requires Table(mem, base, Somes(vals)) && at + |strs| < |vals|
    requires vals[at..at + |strs|] == Pointers(p, strs) && vals[at + |strs|] == 0
    requires BytesAt(mem, p, Flat(strs))
    ensures PointerArray(mem, base + 4 * at, strs)
  {
    hide Table, Somes, BytesAt, Flat, WordIs;
    forall i | 0 <= i < |strs| ensures PointsTo(mem, base + 4 * at + 4 * i, strs[i]) {
      TableWord(mem, base, vals, at + i);
      assert vals[at + i] == vals[at..at + |strs|][i];
      PointsToString(mem, p, strs, i);
    }
    TableWord(mem, base, vals, at + |strs|);
  }

  lemma ImageParts(sp: int, p: int, args: seq<CString>, envs: seq<CString>, aux: seq<int>, ibcs: bool)
    ensures var vals := Image(sp, p, args, envs, aux, ibcs);
            var h := if ibcs then 1 else 3;
            var e := h + |args| + 1;
            var d := e + |envs| + 1;
            && |vals| == d + |aux| && vals[d..] == aux
            && vals[h..h + |args|] == Pointers(p, args) && vals[h + |args|] == 0
            && vals[e..e + |envs|] == Pointers(p + |Flat(args)|, envs) && vals[e + |envs|] == 0
  {
    hide Flat, Pointers;
    var argv := sp + (if ibcs then 4 else 12);
    var head := [|args|] + (if ibcs then [] else [argv, argv + 4 * (|args| + 1)]);
    Parts(head, Pointers(p, args), Pointers(p + |Flat(args)|, envs), aux);
  }

  lemma Parts(head: seq<int>, a: seq<int>, b: seq<int>, aux: seq<int>)
    ensures var vals := head + (a + [0]) + (b + [0]) + aux;
            var h := |head|;
            var e := h + |a| + 1;
            var d := e + |b| + 1;
            && |vals| == d + |aux| && vals[d..] == aux
            && vals[h..h + |a|] == a && vals[h + |a|] == 0
            && vals[e..e + |b|] == b && vals[e + |b|] == 0
  {
  }

  /** The image the loaders build is the stack the program expects. */
  lemma ImageIsStack(mem: map<int, byte>, sp: int, p: int, args: seq<CString>, envs: seq<CString>,
                     aux: seq<int>, ibcs: bool)
    requires Table(mem, sp, Somes(Image(sp, p, args, envs, aux, ibcs)))
    requires BytesAt(mem, p, Flat(args) + Flat(envs))
    ensures StackOk(mem, sp, args, envs, aux, ibcs)
  {
    hide Table, Somes, BytesAt, Flat, WordIs, Pointers, PointerArray;
    var vals := Image(sp, p, args, envs, aux, ibcs);
    var h := if ibcs then 1 else 3;
    BytesSplit(mem, p, Flat(args), Flat(envs));
    TableWord(mem, sp, vals, 0);
    if !ibcs {
      TableWord(mem, sp, vals, 1);
      TableWord(mem, sp, vals, 2);
    }
    ImageParts(sp, p, args, envs, aux, ibcs);
    ArrayInTable(mem, sp, vals, h, p, args);
    var e := h + |args| + 1;
    ArrayInTable(mem, sp, vals, e, p + |Flat(args)|, envs);
    var d := e + |envs| + 1;
    forall i | 0 <= i < |aux| ensures WordIs(mem, sp + 4 * d + 4 * i, aux[i]) {
      TableWord(mem, sp, vals, d + i);
      assert vals[d..][i] == vals[d + i];
    }
  }

  /** The argument area as `setup_arg_pages` maps it. */
  function Mapped(area: seq<byte>): map<int, byte>
    requires |area| == AREA
  {
    map x | STACK_BASE <= x < STACK_TOP :: AreaByte(area, x)
  }

  function AreaByte(area: seq<byte>, x: int): byte
    requires |area| == AREA && STACK_BASE <= x < STACK_TOP
  {
    area[x - STACK_BASE]
  }

  lemma MappedBytes(area: seq<byte>, p: nat, data: seq<byte>)
    requires |area| == AREA && p + |data| <= AREA && area[p..p + |data|] == data
    ensures BytesAt(Mapped(area), STACK_BASE + p, data)
  {
    forall i | 0 <= i < |data| ensures ByteIs(Mapped(area), STACK_BASE + p + i, data[i]) {
      assert data[i] == area[p..p + |data|][i];
    }
  }

  lemma {:induction false} CountStrings(strs: seq<CString>)
    ensures |strs| <= |Flat(strs)|
  {
    if strs != [] { CountStrings(strs[1..]); }
  }

  /** Three pushes, one above the other. */
  lemma ThreePushes(m0: seq<byte>, p: nat, a: seq<byte>, b: seq<byte>, c: seq<byte>)
    requires p + |a| + |b| + |c| <= |m0|
    ensures var m := Stored(Stored(Stored(m0, p + |a| + |b|, c), p + |a|, b), p, a);
            m[p..p + |a| + |b|] == a + b
  {
    StoredTwice(m0, p + |a|, b, c);
    StoredTwice(m0, p, a, b + c);
    StoredRange(m0, p, a + (b + c));
  }

  /** Push file name, environment and arguments, map the pages, build the tables.  Given pages enough,
      the call fails exactly when the strings do not fit the argument area; when it succeeds, argv[i]
      and envp[j] point at exact copies of the i-th argument and the j-th environment string. */
  method DoExecve(filename: CString, args: seq<CString>, envs: seq<CString>, avail: nat, f: Format)
    returns (ok: bool, user: UserMemory, sp: int)
    requires FormatOk(f)
    ensures avail >= MAX_ARG_PAGES ==>
              (ok <==> |Flat(args)| + |Flat(envs)| + |filename| + 1 < AREA - 4)
    ensures ok ==> StackOk(user.mem, sp, args, envs, Aux(f), Ibcs(f))
  {
    hide StackOk, Stored, Count, Flat, Mapped, Table, Image, BytesAt, Somes, Align, Aux;
    sp := 0;
    user := new UserMemory(map[]);
    var area := new Area();
    CountNone();
    ghost var m0 := area.mem;
    var p, left := area.CopyStrings([filename], AREA - 4, avail);
    ghost var m1 := area.mem;
    p, left := area.CopyStrings(envs, p, left);
    p, left := area.CopyStrings(args, p, left);
    OneString(filename);
    ok := p > 0;
    if ok {
      ThreePushes(m0, p, Flat(args), Flat(envs), Flat([filename]));
      MappedBytes(area.mem, p, Flat(args) + Flat(envs));
      user.mem := Mapped(area.mem);
      CountStrings(args);
      CountStrings(envs);
      ghost var mem0 := user.mem;
      var end: int;
      sp, end := user.CreateTables(STACK_BASE + p, |args|, |envs|, f, args, envs);
      AboveBytes(mem0, user.mem, STACK_BASE + p, STACK_BASE + p, Flat(args) + Flat(envs));
      ImageIsStack(user.mem, sp, STACK_BASE + p, args, envs, Aux(f), Ibcs(f));
    }
  }

  lemma CountNone()
    ensures Count(seq(MAX_ARG_PAGES, i => false)) == 0
  {
    NoneOf(seq(MAX_ARG_PAGES, i => false));
  }

  lemma {:induction false} NoneOf(s: seq<bool>)
    requires forall i :: 0 <= i < |s| ==> !s[i]
    ensures Count(s) == 0
  {
    if s != [] { NoneOf(s[1..]); }
  }

  lemma OneString(s: CString)
    ensures |Flat([s])| == |s| + 1
  {
    assert [s][1..] == [];
  }

  /** Pushing a string and removing it again restores the top of the area, wherever the string falls on
      the pages. */
  method PushThenRemove(area: Area, s: CString, p: nat, argc: nat, avail: nat) returns (q: nat, argc': nat)
    requires area.Valid() && |s| + 1 < p <= AREA && avail + Count(area.present) >= MAX_ARG_PAGES
    modifies area
    ensures q == p && argc' == argc
  {
    hide Count;
    assert Flat([s]) == s + [0] + [] by { assert [s][1..] == []; }
    OneString(s);
    ghost var m0 := area.mem;
    var top, _ := area.CopyStrings([s], p, avail);
    StoredRange(m0, top, s + [0]);
    assert area.mem[top..top + |s| + 1] == s + [0];
    forall i | top <= i < top + |s| ensures area.mem[i] != 0 {
      assert area.mem[i] == area.mem[top..top + |s| + 1][i - top] == s[i - top];
    }
    assert area.mem[top + |s|] == area.mem[top..top + |s| + 1][|s|];
    q, argc' := area.RemoveArgZero(top, argc + 1, |s|);
  }
}
