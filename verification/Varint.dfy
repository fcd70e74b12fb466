/** Base-128 varints: the inlined reading loops of the generated `Unmarshal` functions and
    `encodeVarintMessage` / `sovMessage` (message/pb/message.pb.go). */
module Varint {
  import opened Basics

  /** The errors of the generated code. `OutOfBounds` stands for both ErrInvalidLengthMessage and
      io.ErrUnexpectedEOF: data that ends early, or a length that is negative, overflows or passes
      the end of the data. */
  datatype WireError =
    | IntOverflow
    | OutOfBounds
    | EndGroup
    | IllegalTag
    | WrongWireType
    | IllegalWireType
    | BadCid

  /** The value of a varint before truncation to the width of its target, and its length. */
  datatype Read = Read(value: nat, len: nat)

  /** Reads a varint at the start of `d`. `shift` counts the bits already read. */
  function ReadVarint(d: Bytes, shift: nat := 0): (r: Result<Read, WireError>)
    ensures r.Ok? ==> 1 <= r.value.len <= |d|
  {
    if shift >= 64 then Err(IntOverflow)
    else if d == [] then Err(OutOfBounds)
    else if d[0] < 0x80 then Ok(Read(d[0], 1))
    else
      var rest :- ReadVarint(d[1..], shift + 7);
      Ok(Read(d[0] - 0x80 + 0x80 * rest.value, 1 + rest.len))
  }

  function VarintBytes(v: nat): (b: Bytes)
    ensures |b| >= 1
  {
    if v < 0x80 then [v] else [v % 0x80 + 0x80] + VarintBytes(v / 0x80)
  }

  /** The values that fit in the last `n` bytes of a ten-byte, 64-bit varint. */
  function Capacity(n: nat): nat {
    if n == 0 then 0 else if n == 1 then 2 else 0x80 * Capacity(n - 1)
  }

  lemma CapacityIs64Bits()
    ensures Capacity(10) == TWO_64
  {
    assert Capacity(4) == 0x80 * 0x80 * 0x80 * 2;
    assert Capacity(7) == 0x80 * 0x80 * 0x80 * Capacity(4);
  }

  /** Whatever follows it, an encoded 64-bit value is read back, and nothing more is consumed. */
  lemma {:induction false} VarintRoundTripFrom(v: nat, rest: Bytes, n: nat)
    requires 1 <= n <= 10 && v < Capacity(n)
    ensures ReadVarint(VarintBytes(v) + rest, 70 - 7 * n) == Ok(Read(v, |VarintBytes(v)|))
  {
    var d := VarintBytes(v) + rest;
    if v >= 0x80 {
      assert d[1..] == VarintBytes(v / 0x80) + rest;
      VarintRoundTripFrom(v / 0x80, rest, n - 1);
    }
  }

  lemma VarintRoundTrip(v: uint64, rest: Bytes)
    ensures ReadVarint(VarintBytes(v) + rest) == Ok(Read(v, |VarintBytes(v)|))
  {
    CapacityIs64Bits();
    VarintRoundTripFrom(v, rest, 10);
  }

  /** Reading a varint does not look past its last byte. */
  lemma {:induction false} VarintExtend(d: Bytes, e: Bytes, shift: nat := 0)
    requires ReadVarint(d, shift).Ok?
    ensures ReadVarint(d + e, shift) == ReadVarint(d, shift)
    decreases |d|
  {
    assert (d + e)[0] == d[0];
    if d[0] >= 0x80 {
      assert (d + e)[1..] == d[1..] + e;
      VarintExtend(d[1..], e, shift + 7);
    }
  }

  /** `bits.Len64`: the number of bits needed to represent `x`. */
  function BitLength(x: nat): (n: nat) {
    if x == 0 then 0 else 1 + BitLength(x / 2)
  }

  /** `sovMessage`: `(bits.Len64(x | 1) + 6) / 7`. */
  function SizeOfVarint(x: nat): (n: nat) {
    (BitLength(if x % 2 == 0 then x + 1 else x) + 6) / 7
  }

  /** Up to 31 bits take at most five bytes. */
  lemma SmallVarint(x: nat)
    ensures x < 0x80 ==> |VarintBytes(x)| == 1
    ensures x < 0x8000_0000 ==> |VarintBytes(x)| <= 5
  {
    var x1 := x / 0x80;
    var x2 := x1 / 0x80;
    var x3 := x2 / 0x80;
    var x4 := x3 / 0x80;
    assert x < 0x8000_0000 ==> x4 < 0x80;
    assert x4 < 0x80 ==> |VarintBytes(x4)| == 1;
    assert |VarintBytes(x3)| <= 1 + |VarintBytes(x4)|;
    assert |VarintBytes(x2)| <= 1 + |VarintBytes(x3)|;
    assert |VarintBytes(x1)| <= 1 + |VarintBytes(x2)|;
  }

  lemma BitLengthLowBit(x: nat)
    requires x > 0 && x % 2 == 0
    ensures BitLength(x + 1) == BitLength(x)
  {
    assert (x + 1) / 2 == x / 2;
  }

  lemma BitLengthOctal(x: nat)
    requires x >= 8
    ensures BitLength(x) == 3 + BitLength(x / 8)
  {
    assert x / 2 / 2 == x / 4 && x / 4 / 2 == x / 8;
    assert BitLength(x / 2) == 1 + BitLength(x / 4);
  }

  lemma BitLengthByte(x: nat)
    requires 1 <= x < 0x80
    ensures 1 <= BitLength(x) <= 7
  {
    if x >= 0x40 {
      BitLengthOctal(x);
      BitLengthOctal(x / 8);
      assert x / 8 / 8 == 1;
    } else if x >= 8 {
      BitLengthOctal(x);
      BitLengthDigit(x / 8);
    } else {
      BitLengthDigit(x);
    }
  }

  lemma BitLengthDigit(x: nat)
    requires x < 8
    ensures BitLength(x) <= 3
  {
    assert x / 2 / 2 == x / 4 && x / 4 < 2;
    assert BitLength(x / 2) <= 1 + BitLength(x / 4);
  }

  lemma BitLengthSeven(x: nat)
    requires x >= 0x80
    ensures BitLength(x) == 7 + BitLength(x / 0x80)
  {
    BitLengthOctal(x);
    BitLengthOctal(x / 8);
    assert x / 8 / 8 / 2 == x / 0x80;
  }

  /** The closed formula for the size of a varint is the number of bytes that are written. */
  lemma {:induction false} SizeOfVarintExact(x: nat)
    ensures SizeOfVarint(x) == |VarintBytes(x)|
  {
    var y := if x % 2 == 0 then x + 1 else x;
    if x < 0x80 {
      BitLengthByte(y);
    } else {
      BitLengthSeven(y);
      var q := x / 0x80;
      assert y / 0x80 == q;
      if q % 2 == 0 { BitLengthLowBit(q); }
      SizeOfVarintExact(q);
    }
  }

  /** `encodeVarintMessage`: writes `v` at `offset` and returns the offset after it. */
  method EncodeVarint(buf: array<byte>, offset: nat, v: uint64) returns (next: nat)
    requires offset + |VarintBytes(v)| <= buf.Length
    modifies buf
    ensures next == offset + |VarintBytes(v)|
    ensures buf[..next] == old(buf[..offset]) + VarintBytes(v)
  {
    next := offset;
    var x := v;
    while x >= 0x80
      invariant offset <= next && next + |VarintBytes(x)| == offset + |VarintBytes(v)|
      invariant buf[..next] + VarintBytes(x) == old(buf[..offset]) + VarintBytes(v)
    {
      ghost var written, b := buf[..next], [x % 0x80 + 0x80];
      buf[next] := x % 0x80 + 0x80;
      next := next + 1;
      assert buf[..next] == written + b;
      assert written + (b + VarintBytes(x / 0x80)) == written + b + VarintBytes(x / 0x80);
      x := x / 0x80;
    }
    ghost var written := buf[..next];
    buf[next] := x;
    next := next + 1;
    assert buf[..next] == written + [x];
  }

  predicate WordSize(modulus: nat) {
    modulus == TWO_32 || modulus == TWO_64
  }

  lemma AddModulo(a: nat, b: nat, modulus: nat)
    requires WordSize(modulus)
    ensures (a % modulus + b) % modulus == (a + b) % modulus
  {
    if modulus == TWO_64 {
      assert (a % TWO_64 + b) % TWO_64 == (a + b) % TWO_64;
    }
  }

  /** A varint as stored in a variable whose type holds `modulus` bit patterns. */
  function Truncated(r: Result<Read, WireError>, modulus: nat): Result<Read, WireError>
    requires WordSize(modulus)
  {
    match r
    case Ok(v) => Ok(v.(value := v.value % modulus))
    case Err(e) => Err(e)
  }

  /** The reading loop: `x |= T(b & 0x7F) << shift` in a type `T` of `modulus` bit patterns. The
      bits that are or-ed in are all new, so the or is a sum; bits beyond the type are dropped. */
  method DecodeVarint(d: Bytes, start: nat, modulus: nat) returns (r: Result<Read, WireError>)
    requires start <= |d| && WordSize(modulus)
    ensures r == Truncated(ReadVarint(d[start..]), modulus)
  {
    var i, shift, unit, x := start, 0, 1, 0;
    ghost var exact: nat := 0;
    while shift < 64 && i < |d|
      invariant start <= i <= |d| && unit >= 1
      invariant x == exact % modulus
      invariant Pending(d, start, i, shift, exact, unit)
      decreases |d| - i
    {
      var b := d[i];
      var low := b % 0x80;
      PendingStep(d, start, i, shift, exact, unit, low);
      AddModulo(exact, low * unit, modulus);
      x := (x + low * unit) % modulus;
      exact := exact + low * unit;
      i := i + 1;
      if b < 0x80 {
        return Ok(Read(x, i - start));
      }
      shift, unit := shift + 7, unit * 0x80;
    }
    r := Err(if shift >= 64 then IntOverflow else OutOfBounds);
  }

  /** The value made of `exact`, which has been read, and `high`, whose digits come next. */
  function Assembled(exact: nat, unit: nat, high: nat): nat {
    exact + unit * high
  }

  lemma AssembledStep(exact: nat, unit: nat, low: nat, high: nat)
    ensures Assembled(exact, unit, low + 0x80 * high) == Assembled(exact + low * unit, unit * 0x80, high)
    ensures Assembled(exact, unit, low) == exact + low * unit
  {
  }

  /** What has been read so far, `exact`, and what is still to be read make up the whole varint. */
  ghost predicate Pending(d: Bytes, start: nat, i: nat, shift: nat, exact: nat, unit: nat)
    requires start <= i <= |d|
  {
    match ReadVarint(d[i..], shift)
    case Ok(t) => ReadVarint(d[start..]) == Ok(Read(Assembled(exact, unit, t.value), i - start + t.len))
    case Err(e) => ReadVarint(d[start..]) == Err(e)
  }

  lemma PendingStep(d: Bytes, start: nat, i: nat, shift: nat, exact: nat, unit: nat, low: nat)
    requires start <= i < |d| && shift < 64 && Pending(d, start, i, shift, exact, unit)
    requires low == d[i] % 0x80
    ensures d[i] < 0x80 ==> ReadVarint(d[start..]) == Ok(Read(exact + low * unit, i + 1 - start))
    ensures d[i] >= 0x80 ==> Pending(d, start, i + 1, shift + 7, exact + low * unit, unit * 0x80)
  {
    assert d[i..][1..] == d[i + 1..];
    var rest := ReadVarint(d[i + 1..], shift + 7);
    AssembledStep(exact, unit, low, if rest.Ok? then rest.value.value else 0);
    assert d[i] == low || d[i] == low + 0x80;
  }
}
