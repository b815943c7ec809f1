/** The pipe buffer of fs/pipe.c: a ring of PIPE_BUF bytes given by START and LEN
    (include/linux/pipe_fs_i.h:16-33), filled and emptied in chunks that stop at the end of the
    buffer. */
module Pipe {
  import opened Base

  const PIPE_BUF: nat := 4096

  /** The `len` bytes of the ring that begin at `start`. */
  function Ring(buf: seq<byte>, start: nat, len: nat): (r: seq<byte>)
    requires |buf| == PIPE_BUF && start < PIPE_BUF && len <= PIPE_BUF
    ensures |r| == len
  {
    if start + len <= PIPE_BUF then buf[start..start + len] else buf[start..] + buf[..start + len - PIPE_BUF]
  }

  function Wrap(x: nat): (r: nat)
    requires x < 2 * PIPE_BUF
    ensures r < PIPE_BUF
  {
    if x < PIPE_BUF then x else x - PIPE_BUF
  }

  /** PIPE_END */
  function End(start: nat, len: nat): nat
    requires start < PIPE_BUF && len <= PIPE_BUF
  {
    Wrap(start + len)
  }

  function Min(a: nat, b: nat): nat { if a < b then a else b }

  /** Size of the next chunk a reader takes: not past the end of the buffer. */
  function ReadChars(start: nat, len: nat, count: nat): nat
    requires start < PIPE_BUF
  {
    Min(Min(PIPE_BUF - start, count), len)
  }

  /** Size of the next chunk a writer puts. */
  function WriteChars(start: nat, len: nat, count: nat): nat
    requires start < PIPE_BUF && len <= PIPE_BUF
  {
    Min(Min(PIPE_BUF - End(start, len), count), PIPE_BUF - len)
  }

  // ---------- the ring across wrap-around ----------

  lemma RingAt(buf: seq<byte>, start: nat, len: nat, i: nat)
    requires |buf| == PIPE_BUF && start < PIPE_BUF && len <= PIPE_BUF && i < len
    ensures Ring(buf, start, len)[i] == buf[Wrap(start + i)]
  {
  }

  /** The masked addition of the source is the wrap-around of the model. */
  lemma WrapIsMask(x: nat)
    requires x < 2 * PIPE_BUF
    ensures Wrap(x) == x % PIPE_BUF
  {
  }

  /** Taking a chunk off the front. */
  lemma TakeChunk(buf: seq<byte>, start: nat, len: nat, chars: nat)
    requires |buf| == PIPE_BUF && start < PIPE_BUF && len <= PIPE_BUF
    requires chars <= len && start + chars <= PIPE_BUF
    ensures Ring(buf, start, len) == buf[start..start + chars] + Ring(buf, Wrap(start + chars), len - chars)
  {
    hide Ring;
    RingLength(buf, start, len);
    RingLength(buf, Wrap(start + chars), len - chars);
    var whole, rest := Ring(buf, start, len), Ring(buf, Wrap(start + chars), len - chars);
    var front := buf[start..start + chars];
    assert |front + rest| == len;
    forall i | 0 <= i < len
      ensures whole[i] == (front + rest)[i]
    {
      RingAt(buf, start, len, i);
      if i >= chars { RingAt(buf, Wrap(start + chars), len - chars, i - chars); }
    }
  }

  /** Bytes stored behind the contents do not disturb them, and extend them. */
  lemma PutChunk(buf: seq<byte>, start: nat, len: nat, data: seq<byte>)
    requires |buf| == PIPE_BUF && start < PIPE_BUF && len + |data| <= PIPE_BUF
    requires End(start, len) + |data| <= PIPE_BUF
    ensures var buf' := Stored(buf, End(start, len), data);
            Ring(buf', start, len + |data|) == Ring(buf, start, len) + data
  {
    hide Ring;
    var end := End(start, len);
    var buf' := Stored(buf, end, data);
    RingLength(buf, start, len);
    RingLength(buf', start, len + |data|);
    var after, before := Ring(buf', start, len + |data|), Ring(buf, start, len);
    forall i | 0 <= i < len + |data|
      ensures after[i] == (before + data)[i]
    {
      RingAt(buf', start, len + |data|, i);
      if i < len { RingAt(buf, start, len, i); }
    }
  }

  // ---------- the loops that run under PIPE_LOCK ----------

  class PipeInode {
    var buf: array<byte>
    var start: nat
    var len: nat

    ghost predicate Valid()
      reads this
    {
      buf.Length == PIPE_BUF && start < PIPE_BUF && len <= PIPE_BUF
    }

    ghost function Contents(): seq<byte>
      requires Valid()
      reads this, buf
    {
      Ring(buf[..], start, len)
    }

    constructor ()
      ensures Valid() && Contents() == [] && fresh(buf)
    {
      buf, start, len := new byte[PIPE_BUF](i => 0), 0, 0;
    }

    /** fs/pipe.c:53-67: take up to `wanted` bytes, in at most two chunks. */
    method ReadLoop(wanted: nat) returns (out: seq<byte>)
      requires Valid()
      modifies this`start, this`len
      ensures Valid()
      ensures |out| == Min(wanted, |old(Contents())|)
      ensures out + Contents() == old(Contents())
    {
      hide Ring;
      RingLength(buf[..], start, len);
      out := [];
      var count := wanted;
      ghost var was := Ring(buf[..], start, len);
      while count > 0 && len > 0
        invariant Valid() && out + Ring(buf[..], start, len) == was
        invariant |out| + count == wanted
        decreases count
      {
        var chars := ReadChars(start, len, count);
        var chunk := buf[..][start..start + chars];
        TakeChunk(buf[..], start, len, chars);
        Assoc(out, chunk, Ring(buf[..], Wrap(start + chars), len - chars));
        start := Wrap(start + chars);
        len := len - chars;
        count := count - chars;
        out := out + chunk;
      }
      RingLength(buf[..], start, len);
    }

    /** fs/pipe.c:106-118: put as much of `data` as there is room for. */
    method WriteLoop(data: seq<byte>) returns (written: nat)
      requires Valid()
      modifies this`len, buf
      ensures Valid()
      ensures written == Min(|data|, PIPE_BUF - |old(Contents())|)
      ensures Contents() == old(Contents()) + data[..written]
    {
      hide Ring, Stored;
      RingLength(buf[..], start, len);
      ghost var was := Ring(buf[..], start, len);
      written := 0;
      OneMoreChunk(was, data, 0, 0);
      while written < |data| && len < PIPE_BUF
        invariant Valid() && written <= |data|
        invariant |was| + written == len
        invariant Ring(buf[..], start, len) == was + data[..written]
        decreases |data| - written
      {
        var chars := WriteChars(start, len, |data| - written);
        var chunk := data[written..written + chars];
        PutChunk(buf[..], start, len, chunk);
        OneMoreChunk(was, data, written, chars);
        CopyIn(End(start, len), chunk);
        len := len + chars;
        written := written + chars;
      }
    }

    /** memcpy_fromfs into the pipe page */
    method CopyIn(at: nat, chunk: seq<byte>)
      requires at + |chunk| <= buf.Length
      modifies buf
      ensures buf[..] == Stored(old(buf[..]), at, chunk)
    {
      forall i | 0 <= i < |chunk| {
        buf[at + i] := chunk[i];
      }
    }
  }

  lemma OneMoreChunk(was: seq<byte>, data: seq<byte>, written: nat, chars: nat)
    requires written + chars <= |data|
    ensures (was + data[..written]) + data[written..written + chars] == was + data[..written + chars]
    ensures was + data[..0] == was
  {
  }

  lemma RingLength(buf: seq<byte>, start: nat, len: nat)
    requires |buf| == PIPE_BUF && start < PIPE_BUF && len <= PIPE_BUF
    ensures |Ring(buf, start, len)| == len
  {
  }

  lemma Assoc(a: seq<byte>, b: seq<byte>, c: seq<byte>)
    ensures (a + b) + c == a + (b + c)
  {
  }
}
