/** The tables a new program finds on its stack (fs/binfmt_elf.c:107-168, fs/binfmt_aout.c:205-249):
    argument count, pointer arrays and auxiliary vector, built below the strings from the strings. */
module ExecTables {
  import opened Base
  import opened ArgPages

  const WORDS: int := 0x1_0000_0000
  const DLINFO_ITEMS: nat := 12

  // ---------- formats ----------

  /** What `create_elf_tables` takes from the ELF header and the task. */
  datatype ElfInfo = ElfInfo(phdr: int, phnum: int, interp: int, entry: int,
                             uid: int, euid: int, gid: int, egid: int)

  /** An ELF program, with or without an ELF interpreter, or an a.out program (i386). */
  datatype Format = Elf(exec: Option<ElfInfo>, ibcs: bool) | Aout

  predicate Word(v: int) { 0 <= v < WORDS }

  predicate FormatOk(f: Format) {
    f.Elf? && f.exec.Some? ==>
      var e := f.exec.value;
      && Word(e.phdr) && Word(e.phnum) && Word(e.interp) && Word(e.entry)
      && Word(e.uid) && Word(e.euid) && Word(e.gid) && Word(e.egid)
  }

  function Ibcs(f: Format): bool { f.Elf? && f.ibcs }

  function Alignment(f: Format): int { if f.Elf? then 16 else 4 }

  /** The words set aside for the auxiliary vector before anything is written (fs/binfmt_elf.c:119). */
  function Reserved(f: Format): nat {
    if f.Aout? then 0 else if f.exec.Some? then DLINFO_ITEMS * 2 else 2
  }

  /** The auxiliary vector: identifiers and values, ended by AT_NULL. */
  function Aux(f: Format): seq<int> {
    match f
    case Aout => []
    case Elf(None, _) => [0, 0]
    case Elf(Some(e), _) =>
      [3, e.phdr, 4, 32, 5, e.phnum, 6, PAGE_SIZE, 7, e.interp, 8, 0, 9, e.entry,
       11, e.uid, 12, e.euid, 13, e.gid, 14, e.egid, 0, 0]
  }

  /** The vector fills the words set aside for it. */
  lemma AuxFits(f: Format)
    requires FormatOk(f)
    ensures |Aux(f)| == Reserved(f)
    ensures forall i :: 0 <= i < |Aux(f)| ==> Word(Aux(f)[i])
  {
  }

  // ---------- words in byte-addressed memory ----------

  function Lo(v: int): byte { v % 0x100 }

  function Hi(v: int): int { v / 0x100 }

  lemma HiLo(v: int, k: int)
    requires 0 <= v < 0x100 * k
    ensures v == 0x100 * Hi(v) + Lo(v) && 0 <= Hi(v) < k
  {
  }

  lemma WordBytes(v: int)
    requires 0 <= v < WORDS
    ensures 0 <= Hi(Hi(Hi(v))) < 0x100
    ensures v == Join(Lo(v), Lo(Hi(v)), Lo(Hi(Hi(v))), Hi(Hi(Hi(v))))
  {
    hide Hi, Lo;
    HiLo(v, 0x100_0000);
    HiLo(Hi(v), 0x1_0000);
    HiLo(Hi(Hi(v)), 0x100);
  }

  /** `put_user` of a 32-bit word, least significant byte first. */
  function PutWord(mem: map<int, byte>, a: int, v: int): map<int, byte>
    requires 0 <= v < WORDS
  {
    WordBytes(v);
    mem[a := Lo(v)][a + 1 := Lo(Hi(v))][a + 2 := Lo(Hi(Hi(v)))][a + 3 := Hi(Hi(Hi(v)))]
  }

  function Join(b0: int, b1: int, b2: int, b3: int): int {
    b0 + 0x100 * b1 + 0x1_0000 * b2 + 0x100_0000 * b3
  }

  predicate WordIs(mem: map<int, byte>, a: int, v: int) {
    && a in mem && a + 1 in mem && a + 2 in mem && a + 3 in mem
    && v == Join(mem[a], mem[a + 1], mem[a + 2], mem[a + 3])
  }

  lemma PutWordIs(mem: map<int, byte>, a: int, v: int)
    requires 0 <= v < WORDS
    ensures WordIs(PutWord(mem, a, v), a, v)
    ensures forall x :: x in mem && (x < a || a + 4 <= x) ==> x in PutWord(mem, a, v) && PutWord(mem, a, v)[x] == mem[x]
  {
    hide Hi, Lo;
    WordBytes(v);
  }

  /** Word number `i` of the table at `base`, once it has been written. */
  predicate SlotIs(mem: map<int, byte>, base: int, slots: seq<Option<int>>, i: nat)
    requires i < |slots|
  {
    slots[i].Some? ==> WordIs(mem, base + 4 * i, slots[i].value)
  }

  /** The table at `base` holds `slots`. */
  ghost predicate Table(mem: map<int, byte>, base: int, slots: seq<Option<int>>) {
    forall i :: 0 <= i < |slots| ==> SlotIs(mem, base, slots, i)
  }

  lemma PutInTable(mem: map<int, byte>, base: int, slots: seq<Option<int>>, i: nat, v: int)
    requires Table(mem, base, slots) && i < |slots| && 0 <= v < WORDS
    ensures Table(PutWord(mem, base + 4 * i, v), base, slots[i := Some(v)])
  {
    hide PutWord;
    var mem', slots' := PutWord(mem, base + 4 * i, v), slots[i := Some(v)];
    PutWordIs(mem, base + 4 * i, v);
    forall j | 0 <= j < |slots| ensures SlotIs(mem', base, slots', j) {
      assert SlotIs(mem, base, slots, j);
    }
  }

  function Somes(vals: seq<int>): seq<Option<int>> {
    seq(|vals|, i requires 0 <= i < |vals| => Some(vals[i]))
  }

  /** `slots` with `vals` written from position `at` on. */
  function Written(slots: seq<Option<int>>, at: nat, vals: seq<int>): (r: seq<Option<int>>)
    requires at + |vals| <= |slots|
    ensures |r| == |slots|
  {
    slots[..at] + Somes(vals) + slots[at + |vals|..]
  }

  lemma WriteOneMore(slots: seq<Option<int>>, at: nat, vals: seq<int>, v: int)
    requires at + |vals| < |slots|
    ensures Written(slots, at, vals)[at + |vals| := Some(v)] == Written(slots, at, vals + [v])
  {
  }

  lemma WriteNothing(slots: seq<Option<int>>, at: nat)
    requires at <= |slots|
    ensures Written(slots, at, []) == slots
  {
  }

  // ---------- strings in memory ----------

  /** The bytes at `a` are `data`. */
  ghost predicate BytesAt(mem: map<int, byte>, a: int, data: seq<byte>) {
    forall i :: 0 <= i < |data| ==> ByteIs(mem, a + i, data[i])
  }

  predicate ByteIs(mem: map<int, byte>, a: int, b: byte) { a in mem && mem[a] == b }

  lemma BytesSplit(mem: map<int, byte>, a: int, x: seq<byte>, y: seq<byte>)
    ensures BytesAt(mem, a, x + y) <==> BytesAt(mem, a, x) && BytesAt(mem, a + |x|, y)
  {
    if BytesAt(mem, a, x + y) {
      forall i | 0 <= i < |x| ensures ByteIs(mem, a + i, x[i]) { assert (x + y)[i] == x[i]; }
      forall i | 0 <= i < |y| ensures ByteIs(mem, a + |x| + i, y[i]) {
        assert (x + y)[|x| + i] == y[i];
        assert ByteIs(mem, a + (|x| + i), (x + y)[|x| + i]);
      }
    }
    if BytesAt(mem, a, x) && BytesAt(mem, a + |x|, y) {
      forall i | 0 <= i < |x + y| ensures ByteIs(mem, a + i, (x + y)[i]) {
        if i >= |x| { assert ByteIs(mem, a + |x| + (i - |x|), y[i - |x|]); }
      }
    }
  }

  /** Where each of the strings begins, the first one being at `p`. */
  function Pointers(p: int, strs: seq<CString>): (r: seq<int>)
    ensures |r| == |strs|
    decreases strs
  {
    if strs == [] then [] else [p] + Pointers(p + |strs[0]| + 1, strs[1..])
  }

  lemma {:induction false} PointerAt(p: int, strs: seq<CString>, i: nat)
    requires i < |strs|
    ensures Pointers(p, strs)[i] == p + |Flat(strs[..i])|
    decreases strs
  {
    if i > 0 {
      PointerAt(p + |strs[0]| + 1, strs[1..], i - 1);
      assert strs[..i][1..] == strs[1..][..i - 1];
    }
  }

  /** A pointer array leads to exact copies of the strings. */
  lemma PointsToString(mem: map<int, byte>, p: int, strs: seq<CString>, i: nat)
    requires i < |strs| && BytesAt(mem, p, Flat(strs))
    ensures BytesAt(mem, Pointers(p, strs)[i], strs[i] + [0])
  {
    PointerAt(p, strs, i);
    assert strs == strs[..i] + strs[i..];
    FlatConcat(strs[..i], strs[i..]);
    BytesSplit(mem, p, Flat(strs[..i]), Flat(strs[i..]));
    BytesSplit(mem, p + |Flat(strs[..i])|, strs[i] + [0], Flat(strs[i..][1..]));
  }

  // ---------- building the tables ----------

  class UserMemory {
    var mem: map<int, byte>

    constructor (mem: map<int, byte>)
      ensures this.mem == mem
    {
      this.mem := mem;
    }

    /** Skip a string: `while (get_user(p++)) ;` */
    method Skip(p0: int, ghost s: CString) returns (p: int)
      requires BytesAt(mem, p0, s + [0])
      ensures p == p0 + |s| + 1
    {
      p := p0;
      BytesSplit(mem, p0, s, [0]);
      assert forall i :: 0 <= i < |s| ==> ByteIs(mem, p0 + i, s[i]);
      assert ByteIs(mem, p0 + |s| + 0, [0][0]);
      hide BytesAt;
      var c := 1;
      ghost var i := 0;
      while c != 0
        invariant i <= |s| + 1 && p == p0 + i && (c == 0 <==> i == |s| + 1)
        decreases |s| + 1 - i
      {
        assert i < |s| ==> ByteIs(mem, p0 + i, s[i]);
        c := mem[p];
        p, i := p + 1, i + 1;
      }
    }

    /** A run of `put_user` calls on consecutive words. */
    method PutWords(vals: seq<int>, a: int, ghost base: int, ghost slots: seq<Option<int>>, ghost at: nat)
      returns (ghost slots': seq<Option<int>>)
      requires Table(mem, base, slots) && a == base + 4 * at && at + |vals| <= |slots|
      requires forall i :: 0 <= i < |vals| ==> 0 <= vals[i] < WORDS
      modifies this
      ensures slots' == Written(slots, at, vals) && Table(mem, base, slots')
      ensures Above(old(mem), mem, base + 4 * |slots|)
    {
      hide Table, Above, PutWord, Written;
      slots' := slots;
      WriteNothing(slots, at);
      AboveSelf(mem, base + 4 * |slots|);
      var i := 0;
      assert vals[..0] == [];
      while i < |vals|
        invariant 0 <= i <= |vals| && slots' == Written(slots, at, vals[..i]) && Table(mem, base, slots')
        invariant Above(old(mem), mem, base + 4 * |slots|)
      {
        PutInTable(mem, base, slots', at + i, vals[i]);
        WriteOneMore(slots, at, vals[..i], vals[i]);
        AbovePut(old(mem), mem, base + 4 * |slots|, a + 4 * i, vals[i]);
        assert vals[..i + 1] == vals[..i] + [vals[i]];
        mem := PutWord(mem, a + 4 * i, vals[i]);
        slots' := slots'[at + i := Some(vals[i])];
        i := i + 1;
      }
      assert vals[..|vals|] == vals;
    }

    /** Fill one pointer array from the strings at `p0` and end it with NULL
        (fs/binfmt_elf.c:153-158, 160-165; fs/binfmt_aout.c:236-240, 242-246). */
    method PutPointers(count: nat, a: int, p0: int, ghost strs: seq<CString>,
                       ghost base: int, ghost slots: seq<Option<int>>, ghost at: nat)
      returns (p: int, ghost slots': seq<Option<int>>)
      requires |strs| == count && Table(mem, base, slots) && a == base + 4 * at && at + count < |slots|
      requires BytesAt(mem, p0, Flat(strs)) && 0 <= base + 4 * |slots| <= p0 && p0 + |Flat(strs)| < WORDS
      modifies this
      ensures p == p0 + |Flat(strs)|
      ensures slots' == Written(slots, at, Pointers(p0, strs) + [0]) && Table(mem, base, slots')
      ensures Above(old(mem), mem, base + 4 * |slots|)
    {
      hide Table, Above, PutWord, Written, BytesAt, Flat, Pointers;
      ghost var top := base + 4 * |slots|;
      p, slots' := p0, slots;
      WriteNothing(slots, at);
      AboveSelf(mem, top);
      PointersFirst(p0, strs);
      var argv, i := a, 0;
      while i < count
        invariant 0 <= i <= count && argv == a + 4 * i && p == p0 + |Flat(strs[..i])|
        invariant slots' == Written(slots, at, Pointers(p0, strs)[..i]) && Table(mem, base, slots')
        invariant Above(old(mem), mem, top)
      {
        PointerNext(p0, strs, i);
        PutInTable(mem, base, slots', at + i, p);
        WriteOneMore(slots, at, Pointers(p0, strs)[..i], p);
        AbovePut(old(mem), mem, top, argv, p);
        mem := PutWord(mem, argv, p);
        slots' := slots'[at + i := Some(p)];
        AboveString(old(mem), mem, top, p0, strs, i);
        argv := argv + 4;
        p := Skip(p, strs[i]);
        i := i + 1;
      }
      PointersAll(p0, strs);
      PutInTable(mem, base, slots', at + count, 0);
      WriteOneMore(slots, at, Pointers(p0, strs), 0);
      AbovePut(old(mem), mem, top, argv, 0);
      mem := PutWord(mem, argv, 0);
      slots' := slots'[at + count := Some(0)];
    }

    /** The words around the pointer arrays: unless `ibcs` the addresses of the arrays, the auxiliary vector and
        the argument count (fs/binfmt_elf.c:125-151). */
    method PutHeader(argc: nat, envp: int, argv: int, dlinfo: int, aux: seq<int>, ibcs: bool, sp0: int,
                     ghost slots: seq<Option<int>>, ghost d: nat)
      returns (sp: int, ghost slots1: seq<Option<int>>, ghost slots3: seq<Option<int>>)
      requires var base := sp0 - (if ibcs then 4 else 12);
               && Table(mem, base, slots) && dlinfo == base + 4 * d && d + |aux| == |slots| && d >= 3
      requires 0 <= argc < WORDS && 0 <= argv < WORDS && 0 <= envp < WORDS
      requires forall i :: 0 <= i < |aux| ==> 0 <= aux[i] < WORDS
      modifies this
      ensures sp == sp0 - (if ibcs then 4 else 12)
      ensures slots1 == if ibcs then slots else Written(Written(slots, 2, [envp]), 1, [argv])
      ensures slots3 == Written(Written(slots1, d, aux), 0, [argc]) && Table(mem, sp, slots3)
      ensures Above(old(mem), mem, sp + 4 * |slots|)
    {
      hide Table, Above, PutWord, Written;
      ghost var base := sp0 - (if ibcs then 4 else 12);
      ghost var top := base + 4 * |slots|;
      ghost var mem0 := mem;
      sp, slots1 := sp0, slots;
      if !ibcs {
        sp := sp - 4;
        slots1 := PutWords([envp], sp, base, slots, 2);
        sp := sp - 4;
        ghost var mem1 := mem;
        slots1 := PutWords([argv], sp, base, slots1, 1);
        AboveTwo(mem0, mem1, mem, top);
      } else {
        AboveSelf(mem, top);
      }
      ghost var mem2 := mem;
      ghost var slots2 := PutWords(aux, dlinfo, base, slots1, d);
      AboveTwo(mem0, mem2, mem, top);
      ghost var mem3 := mem;
      sp := sp - 4;
      slots3 := PutWords([argc], sp, base, slots2, 0);
      AboveTwo(mem0, mem3, mem, top);
    }

    /** `create_elf_tables` and `create_aout_tables` (i386).  Room is set aside by the format alone; that the
        auxiliary vector then fills it is what makes the image contiguous. */
    method CreateTables(p0: int, argc: nat, envc: nat, f: Format, ghost args: seq<CString>, ghost envs: seq<CString>)
      returns (sp: int, p: int)
      requires |args| == argc && |envs| == envc && FormatOk(f)
      requires BytesAt(mem, p0, Flat(args) + Flat(envs)) && p0 + |Flat(args)| + |Flat(envs)| < WORDS
      requires 4 * (argc + envc + Reserved(f) + 5) + Alignment(f) <= p0
      modifies this
      ensures 0 <= sp && sp + 4 * |Image(sp, p0, args, envs, Aux(f), Ibcs(f))| == Align(p0, Alignment(f)) <= p0
      ensures Table(mem, sp, Somes(Image(sp, p0, args, envs, Aux(f), Ibcs(f))))
      ensures Above(old(mem), mem, p0)
      ensures p == p0 + |Flat(args)| + |Flat(envs)|
    {
      hide Table, Above, PutWord, Written, BytesAt, Flat, Pointers, Somes, Image, Align, Aux;
      var aux, ibcs := Aux(f), Ibcs(f);
      AuxFits(f);
      AlignFacts(p0, Alignment(f));
      BytesSplit(mem, p0, Flat(args), Flat(envs));
      sp := Align(p0, Alignment(f)) - 4 * Reserved(f);
      var dlinfo := sp;
      sp := sp - 4 * (envc + 1);
      var envp := sp;
      sp := sp - 4 * (argc + 1);
      var argv := sp;
      ghost var h, base := if ibcs then 1 else 3, argv - (if ibcs then 4 else 12);
      ghost var slots: seq<Option<int>> := seq(h + argc + 1 + envc + 1 + |aux|, i => None);
      ghost var top := base + 4 * |slots|;
      EmptyTable(mem, base, slots);
      ghost var mem0 := mem;
      ghost var slots1, slots3;
      sp, slots1, slots3 := PutHeader(argc, envp, argv, dlinfo, aux, ibcs, sp, slots, h + argc + 1 + envc + 1);
      ghost var mem4 := mem;
      AboveBytes(mem0, mem, top, p0, Flat(args));
      ghost var slots4, slots5;
      p, slots4 := PutPointers(argc, argv, p0, args, base, slots3, h);
      AboveTwo(mem0, mem4, mem, top);
      ghost var mem5 := mem;
      AboveBytes(mem0, mem, top, p, Flat(envs));
      p, slots5 := PutPointers(envc, envp, p, envs, base, slots4, h + argc + 1);
      AboveTwo(mem0, mem5, mem, top);
      AboveLess(mem0, mem, top, p0);
      ImageDone(sp, p0, args, envs, aux, ibcs, slots, slots1, slots5);
      ImageLength(sp, p0, args, envs, aux, ibcs);
    }
  }

  function Align(p: int, align: int): int
    requires align > 0
  {
    p - p % align
  }

  lemma AlignFacts(p: int, align: int)
    requires align == 4 || align == 16
    ensures p - align < Align(p, align) <= p && Align(p, align) % align == 0
  {
    if align == 4 { assert Align(p, align) == p / 4 * 4; } else { assert Align(p, align) == p / 16 * 16; }
  }

  lemma ImageLength(sp: int, p: int, args: seq<CString>, envs: seq<CString>, aux: seq<int>, ibcs: bool)
    ensures |Image(sp, p, args, envs, aux, ibcs)| == (if ibcs then 1 else 3) + |args| + 1 + |envs| + 1 + |aux|
  {
  }

  /** What the new stack pointer points at: the argument count, unless `ibcs` the addresses of the two
      arrays, the arrays, each ended by NULL, and the auxiliary vector. */
  function Image(sp: int, p: int, args: seq<CString>, envs: seq<CString>, aux: seq<int>, ibcs: bool): seq<int> {
    var argv := sp + (if ibcs then 4 else 12);
    [|args|] + (if ibcs then [] else [argv, argv + 4 * (|args| + 1)])
    + (Pointers(p, args) + [0]) + (Pointers(p + |Flat(args)|, envs) + [0]) + aux
  }

  // ---------- helpers ----------

  /** Nothing at or above `top` has changed. */
  ghost predicate Above(mem: map<int, byte>, mem': map<int, byte>, top: int) {
    forall x :: x >= top && x in mem ==> x in mem' && mem'[x] == mem[x]
  }

  lemma AboveSelf(mem: map<int, byte>, top: int)
    ensures Above(mem, mem, top)
  {
  }

  lemma AbovePut(mem0: map<int, byte>, mem: map<int, byte>, top: int, a: int, v: int)
    requires Above(mem0, mem, top) && a + 4 <= top && 0 <= v < WORDS
    ensures Above(mem0, PutWord(mem, a, v), top)
  {
    PutWordIs(mem, a, v);
  }

  lemma AboveBytes(mem: map<int, byte>, mem': map<int, byte>, top: int, a: int, data: seq<byte>)
    requires Above(mem, mem', top) && BytesAt(mem, a, data) && top <= a
    ensures BytesAt(mem', a, data)
  {
    forall i | 0 <= i < |data| ensures ByteIs(mem', a + i, data[i]) { assert ByteIs(mem, a + i, data[i]); }
  }

  /** String number `i` is still there after writes below `top`. */
  lemma AboveString(mem: map<int, byte>, mem': map<int, byte>, top: int, p: int, strs: seq<CString>, i: nat)
    requires Above(mem, mem', top) && BytesAt(mem, p, Flat(strs)) && top <= p && i < |strs|
    ensures BytesAt(mem', p + |Flat(strs[..i])|, strs[i] + [0])
  {
    AboveBytes(mem, mem', top, p, Flat(strs));
    PointsToString(mem', p, strs, i);
    PointerAt(p, strs, i);
  }

  lemma PointersFirst(p: int, strs: seq<CString>)
    ensures Flat(strs[..0]) == [] && Pointers(p, strs)[..0] == []
  {
  }

  lemma PointersAll(p: int, strs: seq<CString>)
    ensures strs[..|strs|] == strs && Pointers(p, strs)[..|strs|] == Pointers(p, strs)
  {
  }

  lemma PointerNext(p: int, strs: seq<CString>, i: nat)
    requires i < |strs|
    ensures Pointers(p, strs)[..i + 1] == Pointers(p, strs)[..i] + [p + |Flat(strs[..i])|]
    ensures |Flat(strs[..i + 1])| == |Flat(strs[..i])| + |strs[i]| + 1 <= |Flat(strs)|
  {
    PointerAt(p, strs, i);
    assert strs[..i + 1] == strs[..i] + [strs[i]];
    FlatConcat(strs[..i], [strs[i]]);
    assert Flat([strs[i]]) == strs[i] + [0] + [];
    assert strs == strs[..i + 1] + strs[i + 1..];
    FlatConcat(strs[..i + 1], strs[i + 1..]);
  }

  lemma EmptyTable(mem: map<int, byte>, base: int, slots: seq<Option<int>>)
    requires forall i :: 0 <= i < |slots| ==> slots[i] == None
    ensures Table(mem, base, slots)
  {
  }

  lemma AboveTwo(a: map<int, byte>, b: map<int, byte>, c: map<int, byte>, top: int)
    requires Above(a, b, top) && Above(b, c, top)
    ensures Above(a, c, top)
  {
  }

  lemma AboveLess(a: map<int, byte>, b: map<int, byte>, low: int, top: int)
    requires Above(a, b, low) && low <= top
    ensures Above(a, b, top)
  {
  }

  lemma WrittenAt(slots: seq<Option<int>>, at: nat, vals: seq<int>, i: nat)
    requires at + |vals| <= |slots| && i < |slots|
    ensures Written(slots, at, vals)[i] == if at <= i < at + |vals| then Some(vals[i - at]) else slots[i]
  {
  }

  /** The writes together fill every word of the image. */
  lemma ImageDone(sp: int, p: int, args: seq<CString>, envs: seq<CString>, aux: seq<int>, ibcs: bool,
                  slots: seq<Option<int>>, slots1: seq<Option<int>>, slots5: seq<Option<int>>)
    requires var h := if ibcs then 1 else 3;
             var e := h + |args| + 1;
             var d := e + |envs| + 1;
             var argv := sp + 4 * h;
             && |slots| == d + |aux|
             && slots1 == (if ibcs then slots
                           else Written(Written(slots, 2, [argv + 4 * (|args| + 1)]), 1, [argv]))
             && slots5 == Written(Written(Written(Written(slots1, d, aux), 0, [|args|]),
                                          h, Pointers(p, args) + [0]),
                                  e, Pointers(p + |Flat(args)|, envs) + [0])
    ensures slots5 == Somes(Image(sp, p, args, envs, aux, ibcs))
  {
    hide Flat, Pointers, Written;
    var image := Image(sp, p, args, envs, aux, ibcs);
    var h := if ibcs then 1 else 3;
    var e := h + |args| + 1;
    var d := e + |envs| + 1;
    var argv := sp + 4 * h;
    var pa, pe := Pointers(p, args) + [0], Pointers(p + |Flat(args)|, envs) + [0];
    var s2 := Written(slots1, d, aux);
    var s3 := Written(s2, 0, [|args|]);
    var s4 := Written(s3, h, pa);
    forall i | 0 <= i < |slots| ensures slots5[i] == Some(image[i]) {
      WrittenAt(s4, e, pe, i);
      WrittenAt(s3, h, pa, i);
      WrittenAt(s2, 0, [|args|], i);
      WrittenAt(slots1, d, aux, i);
      if !ibcs {
        var s0 := Written(slots, 2, [argv + 4 * (|args| + 1)]);
        WrittenAt(s0, 1, [argv], i);
        WrittenAt(slots, 2, [argv + 4 * (|args| + 1)], i);
      }
    }
  }
}
