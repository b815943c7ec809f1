/** What several modules share. */
module Base {

  type byte = x: int | 0 <= x < 256

  datatype Option<T> = None | Some(value: T)

  /** `mem` with `data` stored at `at`. */
  function Stored(mem: seq<byte>, at: nat, data: seq<byte>): (r: seq<byte>)
    requires at + |data| <= |mem|
    ensures |r| == |mem|
  {
    mem[..at] + data + mem[at + |data|..]
  }
}
