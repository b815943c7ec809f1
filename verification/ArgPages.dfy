/** The argument area of `execve` (fs/exec.c:221-276, 568-582): strings pushed downward into pages
    that are allocated on demand, a chunk at a time. */
module ArgPages {
  import opened Base

  const PAGE_SIZE: nat := 4096
  const MAX_ARG_PAGES: nat := 32
  const AREA: nat := PAGE_SIZE * MAX_ARG_PAGES

  /** A C string without its terminator. */
  type CString = s: seq<byte> | forall i :: 0 <= i < |s| ==> s[i] != 0

  /** The strings one after the other, each with its terminator. */
  function Flat(argv: seq<CString>): seq<byte> {
    if argv == [] then [] else argv[0] + [0] + Flat(argv[1..])
  }

  lemma {:induction false} FlatConcat(a: seq<CString>, b: seq<CString>)
    ensures Flat(a + b) == Flat(a) + Flat(b)
  {
    if a == [] {
      assert a + b == b;
    } else {
      assert (a + b)[1..] == a[1..] + b;
      FlatConcat(a[1..], b);
    }
  }

  lemma StoredTwice(mem: seq<byte>, at: nat, front: seq<byte>, back: seq<byte>)
    requires at + |front| + |back| <= |mem|
    ensures Stored(Stored(mem, at + |front|, back), at, front) == Stored(mem, at, front + back)
  {
  }

  lemma StoredNothing(mem: seq<byte>, at: nat, data: seq<byte>)
    requires at <= |mem|
    ensures Stored(mem, at, data[|data|..]) == mem && data[0..] == data
  {
  }

  lemma StoredOne(mem: seq<byte>, at: nat, data: seq<byte>, i: nat)
    requires at < |mem| && i < |data|
    ensures mem[at := data[i]] == Stored(mem, at, data[i..i + 1])
  {
  }

  /** Storing the bytes from `i` on, given that those from `j` on are stored already. */
  lemma PushMore(mem: seq<byte>, at: nat, data: seq<byte>, i: nat, j: nat)
    requires i <= j <= |data| && at + |data| - i <= |mem|
    ensures Stored(Stored(mem, at + (j - i), data[j..]), at, data[i..j]) == Stored(mem, at, data[i..])
  {
    StoredTwice(mem, at, data[i..j], data[j..]);
    assert data[i..] == data[i..j] + data[j..];
  }

  lemma StoredRange(mem: seq<byte>, at: nat, data: seq<byte>)
    requires at + |data| <= |mem|
    ensures Stored(mem, at, data)[at..at + |data|] == data
  {
  }

  /** The pages of a `linux_binprm`, laid end to end.  A page that has not been allocated holds
      zeros, as `get_free_page` would return it. */
  class Area {
    var mem: seq<byte>
    var present: seq<bool>

    ghost predicate Valid()
      reads this
    {
      |mem| == AREA && |present| == MAX_ARG_PAGES
    }

    constructor ()
      ensures Valid() && mem == seq(AREA, i => 0) && present == seq(MAX_ARG_PAGES, i => false)
    {
      mem := seq(AREA, i => 0);
      present := seq(MAX_ARG_PAGES, i => false);
    }

    /** fs/exec.c:253-256 */
    method GetPage(pag: nat, avail0: nat) returns (ok: bool, avail: nat)
      requires Valid() && pag < MAX_ARG_PAGES
      modifies this`present
      ensures Valid() && avail + Count(present) == avail0 + Count(old(present))
      ensures !ok ==> avail == 0 && Count(present) < MAX_ARG_PAGES
    {
      ok, avail := true, avail0;
      if !present[pag] {
        CountOne(present, pag);
        if avail == 0 {
          ok := false;
        } else {
          present, avail := present[pag := true], avail - 1;
        }
      }
    }

    /** Push the bytes of `data`, last first (fs/exec.c:247-271).  `offset` is the place in page `pag`
        that was written last; 0 makes the next byte look up its page.  At most `avail` pages can be
        had. */
    method CopyString(data: seq<byte>, p0: nat, offset0: nat, pag0: nat, avail0: nat)
      returns (ok: bool, p: nat, offset: nat, pag: nat, avail: nat)
      requires Valid() && |data| <= p0 <= AREA
      requires offset0 > 0 ==> At(p0, pag0, offset0)
      modifies this
      ensures Valid()
      ensures ok ==> p == p0 - |data| && mem == Stored(old(mem), p, data)
      ensures ok && offset > 0 ==> At(p, pag, offset)
      ensures avail + Count(present) == avail0 + Count(old(present))
      ensures !ok ==> avail == 0 && Count(present) < MAX_ARG_PAGES
    {
      hide Stored, Count, At;
      ok, p, offset, pag, avail := true, p0, offset0, pag0, avail0;
      var len := |data|;
      StoredNothing(mem, p, data);
      while len > 0
        invariant Valid() && 0 <= len <= |data| && p == p0 - (|data| - len)
        invariant mem == Stored(old(mem), p, data[len..])
        invariant offset > 0 ==> At(p, pag, offset)
        invariant avail + Count(present) == avail0 + Count(old(present))
        decreases len
      {
        ghost var len1, mem1 := len, mem;
        p, len := p - 1, len - 1;
        if offset == 0 {
          offset, pag := p % PAGE_SIZE, p / PAGE_SIZE;
          PageBound(p);
          ok, avail := GetPage(pag, avail);
          if !ok {
            return;
          }
        } else {
          offset := offset - 1;
          StepBack(p + 1, pag, offset + 1, 1);
        }
        if len == 0 || offset == 0 {
          mem := mem[pag * PAGE_SIZE + offset := data[len]];
          StoredOne(mem1, p, data, len);
        } else {
          var bytesToCopy := if len > offset then offset else len;
          StepBack(p, pag, offset, bytesToCopy);
          p, offset, len := p - bytesToCopy, offset - bytesToCopy, len - bytesToCopy;
          mem := Stored(mem, pag * PAGE_SIZE + offset, data[len..len + bytesToCopy + 1]);
        }
        PushMore(old(mem), p, data, len, len1);
      }
    }

    /** `copy_strings` (fs/exec.c:221-276): push the strings, last first, and return the new top, or 0
        if they do not fit or a page cannot be had. */
    method CopyStrings(argv: seq<CString>, p0: nat, avail0: nat) returns (p: nat, avail: nat)
      requires Valid() && p0 <= AREA
      modifies this
      ensures Valid() && avail + Count(present) == avail0 + Count(old(present))
      ensures p > 0 ==> p == p0 - |Flat(argv)| && mem == Stored(old(mem), p, Flat(argv))
      ensures avail0 + Count(old(present)) >= MAX_ARG_PAGES ==> (p > 0 <==> |Flat(argv)| < p0)
    {
      hide Stored, Count, At, Flat;
      p, avail := p0, avail0;
      if p == 0 {
        return;
      }
      var offset, pag, argc := 0, 0, |argv|;
      FlatNothing(mem, p, argv);
      while argc > 0
        invariant Valid() && 0 <= argc <= |argv| && avail + Count(present) == avail0 + Count(old(present))
        invariant p == p0 - |Flat(argv[argc..])| && mem == Stored(old(mem), p, Flat(argv[argc..]))
        invariant offset > 0 ==> At(p, pag, offset)
        decreases argc
      {
        argc := argc - 1;
        var data := argv[argc] + [0];
        FlatNext(old(mem), p0, argv, argc);
        if p < |data| {
          FlatShorter(argv, argc);
          p := 0;
          return;
        }
        var ok: bool;
        ok, p, offset, pag, avail := CopyString(data, p, offset, pag, avail);
        if !ok {
          p := 0;
          return;
        }
      }
    }

    /** `remove_arg_zero` (fs/exec.c:568-582): step over the first string, of length `n`. */
    method RemoveArgZero(p0: nat, argc0: nat, ghost n: nat) returns (p: nat, argc: nat)
      requires Valid()
      requires argc0 > 0 ==> p0 + n < AREA && mem[p0 + n] == 0 && forall i :: p0 <= i < p0 + n ==> mem[i] != 0
      ensures argc0 > 0 ==> p == p0 + n + 1 && argc == argc0 - 1
      ensures argc0 == 0 ==> p == p0 && argc == 0
    {
      p, argc := p0, argc0;
      if argc > 0 {
        PageBound(p0);
        var offset: nat, page: nat := p0 % PAGE_SIZE, p0 / PAGE_SIZE;
        var stop := false;
        while !stop
          invariant p0 <= p <= p0 + n + 1 && (stop <==> p == p0 + n + 1)
          invariant !stop ==> At(p, page, offset)
          decreases p0 + n + 1 - p
        {
          var c := Fetch(page, offset);
          p, offset := p + 1, offset + 1;
          if c == 0 {
            stop := true;
          } else if offset == PAGE_SIZE {
            PageBound(p);
            offset, page := 0, p / PAGE_SIZE;
          }
        }
        argc := argc - 1;
      }
    }

    /** One byte of a page */
    function Fetch(page: nat, offset: nat): byte
      requires page * PAGE_SIZE + offset < |mem|
      reads this
    {
      mem[page * PAGE_SIZE + offset]
    }
  }

  lemma FlatNothing(mem: seq<byte>, p: nat, argv: seq<CString>)
    requires p <= |mem|
    ensures argv[|argv|..] == [] && argv[0..] == argv && Flat([]) == []
    ensures Stored(mem, p, Flat(argv[|argv|..])) == mem
  {
  }

  /** One string more. */
  lemma FlatNext(mem: seq<byte>, p0: nat, argv: seq<CString>, i: nat)
    requires i < |argv| && p0 <= |mem|
    ensures Flat(argv[i..]) == argv[i] + [0] + Flat(argv[i + 1..])
    ensures |Flat(argv[i..])| <= p0 ==>
              var rest, q := Flat(argv[i + 1..]), p0 - |Flat(argv[i..])|;
              Stored(Stored(mem, p0 - |rest|, rest), q, argv[i] + [0]) == Stored(mem, q, Flat(argv[i..]))
  {
    assert argv[i..][1..] == argv[i + 1..];
    if |Flat(argv[i..])| <= p0 {
      StoredTwice(mem, p0 - |Flat(argv[i..])|, argv[i] + [0], Flat(argv[i + 1..]));
    }
  }

  /** A tail of the strings is no longer than all of them. */
  lemma {:induction false} FlatShorter(argv: seq<CString>, i: nat)
    requires i <= |argv|
    ensures |Flat(argv[i..])| <= |Flat(argv)|
  {
    assert argv == argv[..i] + argv[i..];
    FlatConcat(argv[..i], argv[i..]);
  }

  /** Address `p` is at `offset` in page `pag`. */
  predicate At(p: nat, pag: nat, offset: nat) {
    offset < PAGE_SIZE && p == pag * PAGE_SIZE + offset
  }

  lemma PageBound(p: nat)
    requires p < AREA
    ensures At(p, p / PAGE_SIZE, p % PAGE_SIZE) && p / PAGE_SIZE < MAX_ARG_PAGES
    ensures (p / PAGE_SIZE) * PAGE_SIZE + p % PAGE_SIZE == p
  {
  }

  lemma StepBack(p: nat, pag: nat, offset: nat, k: nat)
    requires At(p, pag, offset) && k <= offset
    ensures k <= p && At(p - k, pag, offset - k) && pag * PAGE_SIZE + (offset - k) == p - k
  {
  }

  /** Number of allocated pages. */
  function Count(present: seq<bool>): nat {
    if present == [] then 0 else (if present[0] then 1 else 0) + Count(present[1..])
  }

  lemma {:induction false} CountOne(present: seq<bool>, i: nat)
    requires i < |present| && !present[i]
    ensures Count(present[i := true]) == Count(present) + 1 <= |present|
  {
    if i > 0 {
      assert present[i := true][1..] == present[1..][i - 1 := true];
      CountOne(present[1..], i - 1);
    } else {
      assert present[0 := true][1..] == present[1..];
      CountBound(present[1..]);
    }
  }

  lemma {:induction false} CountBound(present: seq<bool>)
    ensures Count(present) <= |present|
  {
    if present != [] { CountBound(present[1..]); }
  }
}
