/** Length-delimited records: one generated `Unmarshal` loop, shared by the five message types,
    and `skipMessage` (message/pb/message.pb.go). The generated functions repeat the same loop
    with a different field table; here the table is a parameter. */
module Wire {
  import opened Basics
  import opened Varint

  // ---------------------------------------------------------------------------------------
  // Specification: reading
  // ---------------------------------------------------------------------------------------

  /** The two shapes of known fields: wire type 0 and wire type 2. */
  datatype Kind = VarintKind | BytesKind

  /** The field numbers that occur; a tag with such a number is one byte. */
  type FieldNum = n: int | 1 <= n <= 15 witness 1

  type Schema = map<FieldNum, Kind>

  datatype Field =
    | VarintField(num: FieldNum, value: uint64)
    | BytesField(num: FieldNum, bytes: Bytes)
    | Unknown

  datatype Item = Item(field: Field, len: nat)

  function Within(n: nat, limit: nat): (r: Result<nat, WireError>) {
    if n <= limit then Ok(n) else Err(OutOfBounds)
  }

  /** The length of the field at the start of `d`, whatever its number. */
  function Skip(d: Bytes): (r: Result<nat, WireError>)
    requires d != []
    ensures r.Ok? ==> 1 <= r.value <= |d|
    decreases |d|, |d| + 1
  {
    var tag :- ReadVarint(d);
    var wireType := tag.value % 8;
    if wireType == 0 then
      var v :- ReadVarint(d[tag.len..]);
      Ok(tag.len + v.len)
    else if wireType == 1 then
      Within(tag.len + 8, |d|)
    else if wireType == 2 then
      var v :- ReadVarint(d[tag.len..]);
      var length := AsInt64(v.value);
      if length < 0 then Err(OutOfBounds) else Within(tag.len + v.len + length, |d|)
    else if wireType == 3 then
      SkipGroup(d, tag.len)
    else if wireType == 4 then
      Ok(tag.len)
    else if wireType == 5 then
      Within(tag.len + 4, |d|)
    else
      Err(IllegalWireType)
  }

  /** The position after the end-group tag that closes the group whose body is at `i`. */
  function SkipGroup(d: Bytes, i: nat): (r: Result<nat, WireError>)
    requires 1 <= i <= |d|
    ensures r.Ok? ==> i < r.value <= |d|
    decreases |d|, |d| - i
  {
    var inner :- ReadVarint(d[i..]);
    if inner.value % 8 == 4 then
      Ok(i + inner.len)
    else
      var n :- Skip(d[i..]);
      SkipGroup(d, i + n)
  }

  /** The field at the start of `d`. A known number must come with the wire type of its kind. */
  function NextField(schema: Schema, d: Bytes): (r: Result<Item, WireError>)
    requires d != []
    ensures r.Ok? ==> 1 <= r.value.len <= |d|
  {
    var tag :- ReadVarint(d);
    var wire := tag.value % TWO_64;
    var num := AsInt32(wire / 8);
    if wire % 8 == 4 then Err(EndGroup)
    else if num <= 0 then Err(IllegalTag)
    else if num !in schema then
      var n :- Skip(d);
      Ok(Item(Unknown, n))
    else if wire % 8 != (if schema[num].VarintKind? then 0 else 2) then Err(WrongWireType)
    else
      var v :- ReadVarint(d[tag.len..]);
      var i := tag.len + v.len;
      if schema[num].VarintKind? then
        Ok(Item(VarintField(num, v.value % TWO_64), i))
      else
        var length := AsInt64(v.value);
        if length < 0 || i + length > |d| then Err(OutOfBounds)
        else Ok(Item(BytesField(num, d[i..i + length]), i + length))
  }

  type Apply<!M> = (M, Field) -> Result<M, WireError>

  /** Folds the fields of `d` into `m`; unknown fields are passed over. */
  function Parse<M>(schema: Schema, apply: Apply<M>, d: Bytes, m: M): (r: Result<M, WireError>)
    decreases |d|
  {
    if d == [] then Ok(m)
    else
      var item :- NextField(schema, d);
      var next :- if item.field.Unknown? then Ok(m) else apply(m, item.field);
      Parse(schema, apply, d[item.len..], next)
  }

  // ---------------------------------------------------------------------------------------
  // Specification: writing
  // ---------------------------------------------------------------------------------------

  /** A field of the table, with the kind that the table gives it. */
  predicate Typed(schema: Schema, f: Field) {
    match f
    case VarintField(num, _) => num in schema && schema[num].VarintKind?
    case BytesField(num, _) => num in schema && schema[num].BytesKind?
    case Unknown => false
  }

  predicate AllTyped(schema: Schema, fs: seq<Field>) {
    forall f :: f in fs ==> Typed(schema, f)
  }

  /** A field that the generated `MarshalTo` functions can write: its length is a Go int. */
  predicate Writable(schema: Schema, f: Field) {
    Typed(schema, f) && (f.BytesField? ==> |f.bytes| <= MAX_INT)
  }

  function FieldBytes(f: Field): (b: Bytes) {
    match f
    case VarintField(num, v) => [8 * num] + VarintBytes(v)
    case BytesField(num, b) => [8 * num + 2] + VarintBytes(|b|) + b
    case Unknown => []
  }

  function FieldsBytes(fs: seq<Field>): (b: Bytes) {
    if fs == [] then [] else FieldBytes(fs[0]) + FieldsBytes(fs[1..])
  }

  function ApplyAll<M>(apply: Apply<M>, fs: seq<Field>, m: M): (r: Result<M, WireError>) {
    if fs == [] then Ok(m)
    else
      var next :- apply(m, fs[0]);
      ApplyAll(apply, fs[1..], next)
  }

  // ---------------------------------------------------------------------------------------
  // Reading does not look past the end of a field
  // ---------------------------------------------------------------------------------------

  lemma {:induction false} SkipExtend(d: Bytes, e: Bytes)
    requires d != [] && Skip(d).Ok?
    ensures Skip(d + e) == Skip(d)
    decreases |d|, |d| + 1
  {
    VarintExtend(d, e);
    var tag := ReadVarint(d).value;
    assert (d + e)[tag.len..] == d[tag.len..] + e;
    var wireType := tag.value % 8;
    if wireType == 0 || wireType == 2 {
      VarintExtend(d[tag.len..], e);
    } else if wireType == 3 {
      SkipGroupExtend(d, tag.len, e);
    }
  }

  lemma {:induction false} SkipGroupExtend(d: Bytes, i: nat, e: Bytes)
    requires 1 <= i <= |d| && SkipGroup(d, i).Ok?
    ensures SkipGroup(d + e, i) == SkipGroup(d, i)
    decreases |d|, |d| - i
  {
    assert (d + e)[i..] == d[i..] + e;
    VarintExtend(d[i..], e);
    if ReadVarint(d[i..]).value.value % 8 != 4 {
      SkipExtend(d[i..], e);
      SkipGroupExtend(d, i + Skip(d[i..]).value, e);
    }
  }

  lemma NextFieldExtend(schema: Schema, d: Bytes, e: Bytes)
    requires d != [] && NextField(schema, d).Ok?
    ensures NextField(schema, d + e) == NextField(schema, d)
  {
    VarintExtend(d, e);
    var tag := ReadVarint(d).value;
    assert (d + e)[tag.len..] == d[tag.len..] + e;
    var num := AsInt32(tag.value % TWO_64 / 8);
    if num !in schema {
      SkipExtend(d, e);
    } else {
      VarintExtend(d[tag.len..], e);
      var item := NextField(schema, d).value;
      if schema[num].BytesKind? {
        var i := tag.len + ReadVarint(d[tag.len..]).value.len;
        assert (d + e)[i..item.len] == d[i..item.len];
      }
    }
  }

  /** Parsing the concatenation of two encodings merges the second into the first, so messages
      may be split, joined and extended with fields that this version does not know. */
  lemma {:induction false} ParseConcat<M>(schema: Schema, apply: Apply<M>, d: Bytes, e: Bytes, m: M)
    requires Parse(schema, apply, d, m).Ok?
    ensures Parse(schema, apply, d + e, m) == Parse(schema, apply, e, Parse(schema, apply, d, m).value)
    decreases |d|
  {
    if d == [] {
      assert d + e == e;
    } else {
      NextFieldExtend(schema, d, e);
      var item := NextField(schema, d).value;
      var next := if item.field.Unknown? then m else apply(m, item.field).value;
      assert (d + e)[item.len..] == d[item.len..] + e;
      ParseConcat(schema, apply, d[item.len..], e, next);
    }
  }

  // ---------------------------------------------------------------------------------------
  // What is written is read back
  // ---------------------------------------------------------------------------------------

  lemma TagRoundTrip(num: FieldNum, wireType: nat, rest: Bytes)
    requires wireType < 8
    ensures var tag := 8 * num + wireType;
            ReadVarint([tag] + rest) == Ok(Read(tag, 1)) && AsInt32(tag % TWO_64 / 8) == num
            && tag % TWO_64 % 8 == wireType
  {
  }

  lemma VarintFieldRoundTrip(schema: Schema, num: FieldNum, v: uint64, rest: Bytes)
    requires Writable(schema, VarintField(num, v))
    ensures var b := FieldBytes(VarintField(num, v));
            NextField(schema, b + rest) == Ok(Item(VarintField(num, v), |b|))
  {
    var tail := VarintBytes(v) + rest;
    var d := [8 * num] + tail;
    assert FieldBytes(VarintField(num, v)) + rest == d;
    TagRoundTrip(num, 0, tail);
    assert d[1..] == tail;
    VarintRoundTrip(v, rest);
  }

  lemma BytesFieldRoundTrip(schema: Schema, num: FieldNum, b: Bytes, rest: Bytes)
    requires Writable(schema, BytesField(num, b))
    ensures var c := FieldBytes(BytesField(num, b));
            NextField(schema, c + rest) == Ok(Item(BytesField(num, b), |c|))
  {
    var size := VarintBytes(|b|);
    var tail := size + (b + rest);
    var d := [8 * num + 2] + tail;
    assert FieldBytes(BytesField(num, b)) + rest == d;
    TagRoundTrip(num, 2, tail);
    assert d[1..] == tail;
    VarintRoundTrip(|b|, b + rest);
    assert AsInt64(|b|) == |b|;
    assert d[1 + |size|..1 + |size| + |b|] == b;
  }

  lemma FieldRoundTrip(schema: Schema, f: Field, rest: Bytes)
    requires Writable(schema, f)
    ensures NextField(schema, FieldBytes(f) + rest) == Ok(Item(f, |FieldBytes(f)|))
  {
    match f
    case VarintField(num, v) => VarintFieldRoundTrip(schema, num, v, rest);
    case BytesField(num, b) => BytesFieldRoundTrip(schema, num, b, rest);
  }

  /** Parsing the bytes of a list of fields applies exactly those fields, in order. */
  lemma {:induction false} FieldsRoundTrip<M>(schema: Schema, apply: Apply<M>, fs: seq<Field>, m: M)
    requires forall f :: f in fs ==> Writable(schema, f)
    ensures Parse(schema, apply, FieldsBytes(fs), m) == ApplyAll(apply, fs, m)
    decreases |fs|
  {
    if fs != [] {
      FieldRoundTrip(schema, fs[0], FieldsBytes(fs[1..]));
      var d, n := FieldsBytes(fs), |FieldBytes(fs[0])|;
      assert d[n..] == FieldsBytes(fs[1..]);
      var next := apply(m, fs[0]);
      if next.Ok? {
        FieldsRoundTrip(schema, apply, fs[1..], next.value);
      }
    }
  }

  lemma {:induction false} FieldsBytesConcat(fs: seq<Field>, gs: seq<Field>)
    ensures FieldsBytes(fs + gs) == FieldsBytes(fs) + FieldsBytes(gs)
    decreases |fs|
  {
    if fs == [] {
      assert fs + gs == gs;
    } else {
      assert (fs + gs)[1..] == fs[1..] + gs;
      FieldsBytesConcat(fs[1..], gs);
    }
  }

  lemma {:induction false} ApplyAllConcat<M>(apply: Apply<M>, fs: seq<Field>, gs: seq<Field>, m: M)
    ensures ApplyAll(apply, fs + gs, m) ==
            match ApplyAll(apply, fs, m)
            case Ok(next) => ApplyAll(apply, gs, next)
            case Err(e) => Err(e)
    decreases |fs|
  {
    if fs == [] {
      assert fs + gs == gs;
    } else {
      assert (fs + gs)[1..] == fs[1..] + gs;
      var next := apply(m, fs[0]);
      if next.Ok? {
        ApplyAllConcat(apply, fs[1..], gs, next.value);
      }
    }
  }

  /** A field that is written only when its value differs from the default. */
  function Optional(present: bool, f: Field): seq<Field> {
    if present then [f] else []
  }

  lemma ApplyOptional<M>(apply: Apply<M>, present: bool, f: Field, gs: seq<Field>, m: M, next: M)
    requires if present then apply(m, f) == Ok(next) else m == next
    ensures ApplyAll(apply, Optional(present, f) + gs, m) == ApplyAll(apply, gs, next)
  {
    if present {
      assert ([f] + gs)[1..] == gs;
    } else {
      assert [] + gs == gs;
    }
  }

  lemma JoinTyped(schema: Schema, fs: seq<Field>, gs: seq<Field>)
    requires AllTyped(schema, fs) && AllTyped(schema, gs)
    ensures AllTyped(schema, fs + gs)
  {
  }

  /** One length-delimited field per item. */
  function Repeated(num: FieldNum, items: seq<Bytes>): (fs: seq<Field>)
    ensures |fs| == |items| && forall i :: 0 <= i < |fs| ==> fs[i] == BytesField(num, items[i])
  {
    seq(|items|, i requires 0 <= i < |items| => BytesField(num, items[i]))
  }

  lemma RepeatedTyped(schema: Schema, num: FieldNum, items: seq<Bytes>)
    requires num in schema && schema[num].BytesKind?
    ensures AllTyped(schema, Repeated(num, items))
  {
  }

  /** Applying the items of a repeated field one by one, from item `i` on, walks through `states`
      up to item `n`, which is either refused or the end. */
  lemma {:induction false} ApplyRepeated<M>(apply: Apply<M>, num: FieldNum, items: seq<Bytes>, states: nat -> M,
                                            n: nat, e: WireError, i: nat)
    requires i <= n <= |items|
    requires forall j :: i <= j < n ==> apply(states(j), BytesField(num, items[j])) == Ok(states(j + 1))
    requires n < |items| ==> apply(states(n), BytesField(num, items[n])) == Err(e)
    ensures ApplyAll(apply, Repeated(num, items)[i..], states(i))
            == if n == |items| then Ok(states(n)) else Err(e)
    decreases n - i
  {
    var fs := Repeated(num, items);
    if i < |items| {
      assert fs[i..][0] == BytesField(num, items[i]) && fs[i..][1..] == fs[i + 1..];
      if i < n {
        ApplyRepeated(apply, num, items, states, n, e, i + 1);
      }
    }
  }

  /** The number of items before the first one that is not `good`. */
  function Leading<T>(items: seq<T>, good: T -> bool): (n: nat)
    ensures n <= |items|
    ensures forall i :: 0 <= i < n ==> good(items[i])
    ensures n < |items| ==> !good(items[n])
  {
    if items == [] || !good(items[0]) then 0 else 1 + Leading(items[1..], good)
  }

  lemma {:induction false} FieldNoLonger(fs: seq<Field>, f: Field)
    requires f in fs
    ensures |FieldBytes(f)| <= |FieldsBytes(fs)|
    decreases |fs|
  {
    if f != fs[0] {
      FieldNoLonger(fs[1..], f);
    }
  }

  /** Typed fields whose encodings fit in a slice can be written. */
  lemma FittingWritable(schema: Schema, fs: seq<Field>)
    requires AllTyped(schema, fs) && |FieldsBytes(fs)| <= MAX_INT
    ensures forall f :: f in fs ==> Writable(schema, f)
  {
    forall f | f in fs ensures Writable(schema, f) {
      FieldNoLonger(fs, f);
    }
  }

  // ---------------------------------------------------------------------------------------
  // The generated loops
  // ---------------------------------------------------------------------------------------

  /** Positions in a slice are Go ints, and no slice comes within eight bytes of their limit. */
  predicate IsSlice(d: Bytes) {
    |d| + 8 <= MAX_INT
  }

  /** A position past the end of the data is the caller's to refuse. */
  function Bounded(r: Result<nat, WireError>, limit: nat): Result<nat, WireError> {
    match r
    case Ok(n) => Within(n, limit)
    case Err(e) => Err(e)
  }

  /** The field number and wire type of a tag do not depend on its bits beyond the 64th. */
  lemma TagBits(v: nat)
    ensures v % TWO_64 % 8 == v % 8
    ensures AsInt64(v % TWO_64) == AsInt64(v)
  {
  }

  /** `skipMessage`. Positions are Go ints: a length that carries one past the largest int makes
      it negative. `requires d != []` is what keeps the final panic out of reach; every call
      below meets it. */
  method SkipMessage(d: Bytes) returns (r: Result<nat, WireError>)
    requires d != [] && IsSlice(d)
    ensures Bounded(r, |d|) == Skip(d)
    ensures r.Ok? ==> 1 <= r.value <= MAX_INT
    decreases |d|, 1
  {
    var tag := DecodeVarint(d, 0, TWO_64);
    assert d[0..] == d;
    if tag.Err? { return Err(tag.error); }
    var i := tag.value.len;
    var wireType := tag.value.value % 8;
    TagBits(ReadVarint(d).value.value);
    if wireType == 3 {
      r := SkipToEndGroup(d, i);
    } else if wireType == 0 || wireType == 2 {
      var v := DecodeVarint(d, i, TWO_64);
      if v.Err? { return Err(v.error); }
      i := i + v.value.len;
      if wireType == 0 { return Ok(i); }
      TagBits(ReadVarint(d[tag.value.len..]).value.value);
      var length := AsInt64(v.value.value);
      if length < 0 { return Err(OutOfBounds); }
      var after := AddInts(i, length);
      if after < 0 { return Err(OutOfBounds); }
      r := Ok(after);
    } else if wireType == 1 {
      r := Ok(i + 8);
    } else if wireType == 4 {
      r := Ok(i);
    } else if wireType == 5 {
      r := Ok(i + 4);
    } else {
      r := Err(IllegalWireType);
    }
  }

  /** The loop of `skipMessage` over the fields of a group, from position `start`. */
  method SkipToEndGroup(d: Bytes, start: nat) returns (r: Result<nat, WireError>)
    requires 1 <= start <= |d| && IsSlice(d)
    ensures Bounded(r, |d|) == SkipGroup(d, start)
    ensures r.Ok? ==> 1 <= r.value <= MAX_INT
    decreases |d|, 0
  {
    var i := start;
    while i < |d|
      invariant 1 <= i <= MAX_INT
      invariant SkipGroup(d, start) == if i <= |d| then SkipGroup(d, i) else Err(OutOfBounds)
      decreases MAX_INT - i
    {
      var inner := DecodeVarint(d, i, TWO_64);
      if inner.Err? { return Err(inner.error); }
      TagBits(ReadVarint(d[i..]).value.value);
      if inner.value.value % 8 == 4 { return Ok(i + inner.value.len); }
      var next := SkipMessage(d[i..]);
      if next.Err? { return Err(next.error); }
      var after := AddInts(i, next.value);
      if after < 0 { return Err(OutOfBounds); }
      i := after;
    }
    r := Err(OutOfBounds);
  }

  /** One turn of a generated `Unmarshal` loop, at position `start`. */
  method ReadField(schema: Schema, d: Bytes, start: nat) returns (r: Result<Item, WireError>)
    requires start < |d| && IsSlice(d)
    ensures r == NextField(schema, d[start..])
  {
    var tag := DecodeVarint(d, start, TWO_64);
    if tag.Err? { return Err(tag.error); }
    var num := AsInt32(tag.value.value / 8);
    var wireType := tag.value.value % 8;
    if wireType == 4 { return Err(EndGroup); }
    if num <= 0 { return Err(IllegalTag); }
    if num !in schema {
      var skippy := SkipMessage(d[start..]);
      if skippy.Err? { return Err(skippy.error); }
      var after := AddInts(start, skippy.value);
      if after < 0 || after > |d| { return Err(OutOfBounds); }
      return Ok(Item(Unknown, skippy.value));
    }
    if wireType != (if schema[num].VarintKind? then 0 else 2) { return Err(WrongWireType); }
    assert d[start..][tag.value.len..] == d[start + tag.value.len..];
    r := ReadPayload(d, start, start + tag.value.len, num, schema[num]);
  }

  /** The payload of a known field whose tag is at `start`, from position `at`. */
  method ReadPayload(d: Bytes, start: nat, at: nat, num: FieldNum, kind: Kind) returns (r: Result<Item, WireError>)
    requires start < at <= |d| && IsSlice(d)
    ensures match ReadVarint(d[at..])
            case Err(e) => r == Err(e)
            case Ok(v) =>
              if kind.VarintKind? then
                r == Ok(Item(VarintField(num, v.value % TWO_64), at + v.len - start))
              else
                var i, length := at + v.len, AsInt64(v.value);
                r == if length < 0 || i + length > |d| then Err(OutOfBounds)
                     else Ok(Item(BytesField(num, d[start..][i - start..i - start + length]), i + length - start))
  {
    var v := DecodeVarint(d, at, TWO_64);
    if v.Err? { return Err(v.error); }
    TagBits(ReadVarint(d[at..]).value.value);
    var i := at + v.value.len;
    if kind.VarintKind? {
      return Ok(Item(VarintField(num, v.value.value), i - start));
    }
    var length := AsInt64(v.value.value);
    if length < 0 { return Err(OutOfBounds); }
    var postIndex := AddInts(i, length);
    if postIndex < 0 || postIndex > |d| { return Err(OutOfBounds); }
    assert d[start..][i - start..postIndex - start] == d[i..postIndex];
    return Ok(Item(BytesField(num, d[i..postIndex]), postIndex - start));
  }

  /** A generated `Unmarshal`: total on every byte string, and equal to the recursive parser. */
  method Unmarshal<M>(schema: Schema, apply: Apply<M>, d: Bytes, init: M) returns (r: Result<M, WireError>)
    requires IsSlice(d)
    ensures r == Parse(schema, apply, d, init)
  {
    var i, m := 0, init;
    assert d[0..] == d;
    while i < |d|
      invariant 0 <= i <= |d|
      invariant Parse(schema, apply, d, init) == Parse(schema, apply, d[i..], m)
    {
      var item := ReadField(schema, d, i);
      if item.Err? { return Err(item.error); }
      assert d[i..][item.value.len..] == d[i + item.value.len..];
      if !item.value.field.Unknown? {
        var next := apply(m, item.value.field);
        if next.Err? { return Err(next.error); }
        m := next.value;
      }
      i := i + item.value.len;
    }
    return Ok(m);
  }

  /** Writes a one-byte tag followed by a varint. */
  method PutTag(buf: array<byte>, offset: nat, tag: byte, v: uint64) returns (next: nat)
    requires offset + 1 + |VarintBytes(v)| <= buf.Length
    modifies buf
    ensures next == offset + 1 + |VarintBytes(v)|
    ensures buf[..next] == old(buf[..offset]) + ([tag] + VarintBytes(v))
  {
    buf[offset] := tag;
    ghost var written := buf[..offset + 1];
    assert written == old(buf[..offset]) + [tag];
    next := EncodeVarint(buf, offset + 1, v);
  }

  /** `copy(dAtA[i:], b)`. */
  method CopyInto(buf: array<byte>, offset: nat, b: Bytes)
    requires offset + |b| <= buf.Length
    modifies buf
    ensures buf[..offset + |b|] == old(buf[..offset]) + b
  {
    for k := 0 to |b|
      invariant buf[..offset + k] == old(buf[..offset]) + b[..k]
    {
      buf[offset + k] := b[k];
      assert buf[..offset + k + 1] == buf[..offset + k] + [b[k]];
    }
    assert b[..|b|] == b;
  }

  /** Writes a field at `offset`, as the `MarshalTo` functions do. */
  method PutField(buf: array<byte>, offset: nat, f: Field) returns (next: nat)
    requires !f.Unknown? && (f.BytesField? ==> |f.bytes| <= MAX_INT)
    requires offset + |FieldBytes(f)| <= buf.Length
    modifies buf
    ensures next == offset + |FieldBytes(f)|
    ensures buf[..next] == old(buf[..offset]) + FieldBytes(f)
  {
    if f.VarintField? {
      next := PutTag(buf, offset, 8 * f.num, f.value);
    } else {
      ghost var out, header := buf[..offset], [8 * f.num + 2] + VarintBytes(|f.bytes|);
      assert FieldBytes(f) == header + f.bytes;
      next := PutTag(buf, offset, 8 * f.num + 2, |f.bytes|);
      CopyInto(buf, next, f.bytes);
      next := next + |f.bytes|;
      assert (out + header) + f.bytes == out + (header + f.bytes);
    }
  }
}
