/** Types shared by the models: failure-compatible results, bytes, Go's fixed-width integers,
    and the keys the node works with. */
module Basics {

  datatype Option<+T> = None | Some(value: T)

  datatype Result<+T, +E> = Ok(value: T) | Err(error: E) {
    predicate IsFailure() { Err? }

    function PropagateFailure<U>(): Result<U, E>
      requires Err?
    {
      Err(error)
    }

    function Extract(): T
      requires Ok?
    {
      value
    }
  }

  type byte = b: int | 0 <= b < 0x100
  type Bytes = seq<byte>

  const TWO_32 := 0x1_0000_0000
  const TWO_63 := 0x8000_0000_0000_0000
  const TWO_64 := 0x1_0000_0000_0000_0000
  const MAX_INT := TWO_63 - 1

  type int32 = x: int | -0x8000_0000 <= x < 0x8000_0000
  type uint64 = x: int | 0 <= x < TWO_64

  /** The value of a 64-bit pattern read as Go's `int` (two's complement). */
  function AsInt64(x: int): (r: int)
    ensures -TWO_63 <= r < TWO_63
    ensures (r - x) % TWO_64 == 0
  {
    var m := x % TWO_64;
    if m < TWO_63 then m else m - TWO_64
  }

  /** The sum of two non-negative Go ints: past the largest int it turns negative. */
  function AddInts(a: nat, b: nat): (r: int)
    requires a <= MAX_INT && b <= MAX_INT
    ensures if a + b <= MAX_INT then r == a + b else r < 0
  {
    AsInt64(a + b)
  }

  /** Go's conversion to `int32`: the low 32 bits, read as two's complement. */
  function AsInt32(x: int): (r: int32)
    ensures (r - x) % TWO_32 == 0
  {
    var m := x % TWO_32;
    if m < 0x8000_0000 then m else m - TWO_32
  }

  /** Go's conversion `uint64(x)` of an `int32`: sign extension to 64 bits. */
  function SignExtend(x: int32): (r: uint64)
    ensures AsInt32(r) == x
  {
    if x >= 0 then x else x + TWO_64
  }

  type Cid = Bytes

  /** A wanted block: its content id and the auth string that releases it (auth/types.go). */
  datatype Want = Want(cid: Cid, auth: string)

  /** Peer ids are numbered; 0 stands for the empty id, which the source uses as "no peer". */
  type Peer = nat
  const NO_PEER: Peer := 0
}
