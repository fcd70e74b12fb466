/** `Size` and `MarshalTo` of the five messages (message/pb/message.pb.go): the length prefix of a
    nested message comes from `Size`, its bytes from a nested `MarshalTo` at the running index. */
module Marshal {
  import opened Basics
  import opened Varint
  import opened Wire
  import opened Codec

  // ---------------------------------------------------------------------------------------
  // Sizes
  // ---------------------------------------------------------------------------------------

  /** The size of a length-delimited field of `l` bytes: `1 + l + sovMessage(uint64(l))`. */
  function Delimited(l: nat): nat { 1 + l + SizeOfVarint(l) }

  function EntrySize(e: Entry): nat {
    Delimited(|e.block|)
    + (if e.priority != 0 then 1 + SizeOfVarint(SignExtend(e.priority)) else 0)
    + (if e.cancel then 2 else 0)
    + (if e.wantType != 0 then 1 + SizeOfVarint(SignExtend(e.wantType)) else 0)
    + (if e.sendDontHave then 2 else 0)
    + (if |e.auth| > 0 then Delimited(|e.auth|) else 0)
  }

  function BlockSize(b: Block): nat {
    (if |b.prefix| > 0 then Delimited(|b.prefix|) else 0)
    + (if |b.data| > 0 then Delimited(|b.data|) else 0)
    + (if |b.auth| > 0 then Delimited(|b.auth|) else 0)
  }

  function PresenceSize(p: BlockPresence): nat {
    Delimited(|p.cid|)
    + (if p.kind != 0 then 1 + SizeOfVarint(SignExtend(p.kind)) else 0)
    + (if |p.auth| > 0 then Delimited(|p.auth|) else 0)
  }

  function OptionalBytes(present: bool, f: Field): Bytes {
    if present then FieldBytes(f) else []
  }

  lemma OptionalFirst(present: bool, f: Field, gs: seq<Field>)
    ensures FieldsBytes(Optional(present, f) + gs) == OptionalBytes(present, f) + FieldsBytes(gs)
  {
    if present {
      assert ([f] + gs)[1..] == gs;
    } else {
      assert [] + gs == gs;
    }
  }

  lemma DelimitedSize(num: FieldNum, b: Bytes)
    ensures |FieldBytes(BytesField(num, b))| == Delimited(|b|)
  {
    SizeOfVarintExact(|b|);
  }

  lemma VarintSize(num: FieldNum, v: uint64)
    ensures |FieldBytes(VarintField(num, v))| == 1 + SizeOfVarint(v)
  {
    SizeOfVarintExact(v);
  }

  /** The bytes of an entry, field by field. */
  lemma EntryPieces(e: Entry)
    ensures EntryBytes(e) ==
            FieldBytes(BytesField(1, e.block))
            + (OptionalBytes(e.priority != 0, VarintField(2, SignExtend(e.priority)))
            + (OptionalBytes(e.cancel, VarintField(3, 1))
            + FieldsBytes(LastEntryFields(e))))
  {
    var f3 := Optional(e.cancel, VarintField(3, 1)) + LastEntryFields(e);
    var f2 := Optional(e.priority != 0, VarintField(2, SignExtend(e.priority))) + f3;
    OptionalFirst(true, BytesField(1, e.block), f2);
    OptionalFirst(e.priority != 0, VarintField(2, SignExtend(e.priority)), f3);
    OptionalFirst(e.cancel, VarintField(3, 1), LastEntryFields(e));
  }

  lemma LastEntryPieces(e: Entry)
    ensures FieldsBytes(LastEntryFields(e)) ==
            OptionalBytes(e.wantType != 0, VarintField(4, SignExtend(e.wantType)))
            + (OptionalBytes(e.sendDontHave, VarintField(5, 1))
            + OptionalBytes(e.auth != [], BytesField(6, e.auth)))
  {
    var f6 := Optional(e.auth != [], BytesField(6, e.auth));
    var f5 := Optional(e.sendDontHave, VarintField(5, 1)) + f6;
    OptionalFirst(e.wantType != 0, VarintField(4, SignExtend(e.wantType)), f5);
    OptionalFirst(e.sendDontHave, VarintField(5, 1), f6);
    OptionalFirst(e.auth != [], BytesField(6, e.auth), []);
    assert f6 + [] == f6;
  }

  lemma BlockPieces(b: Block)
    ensures BlockBytes(b) ==
            OptionalBytes(b.prefix != [], BytesField(1, b.prefix))
            + (OptionalBytes(b.data != [], BytesField(2, b.data))
            + OptionalBytes(b.auth != [], BytesField(3, b.auth)))
  {
    var f3 := Optional(b.auth != [], BytesField(3, b.auth));
    var f2 := Optional(b.data != [], BytesField(2, b.data)) + f3;
    OptionalFirst(b.prefix != [], BytesField(1, b.prefix), f2);
    OptionalFirst(b.data != [], BytesField(2, b.data), f3);
    OptionalFirst(b.auth != [], BytesField(3, b.auth), []);
    assert f3 + [] == f3;
  }

  lemma PresencePieces(p: BlockPresence)
    ensures PresenceBytes(p) ==
            FieldBytes(BytesField(1, p.cid))
            + (OptionalBytes(p.kind != 0, VarintField(2, SignExtend(p.kind)))
            + OptionalBytes(p.auth != [], BytesField(3, p.auth)))
  {
    var f3 := Optional(p.auth != [], BytesField(3, p.auth));
    var f2 := Optional(p.kind != 0, VarintField(2, SignExtend(p.kind))) + f3;
    OptionalFirst(true, BytesField(1, p.cid), f2);
    OptionalFirst(p.kind != 0, VarintField(2, SignExtend(p.kind)), f3);
    OptionalFirst(p.auth != [], BytesField(3, p.auth), []);
    assert f3 + [] == f3;
  }

  lemma EntrySizeExact(e: Entry)
    ensures EntrySize(e) == |EntryBytes(e)|
  {
    EntryPieces(e);
    LastEntryPieces(e);
    DelimitedSize(1, e.block);
    VarintSize(2, SignExtend(e.priority));
    VarintSize(3, 1);
    VarintSize(4, SignExtend(e.wantType));
    VarintSize(5, 1);
    DelimitedSize(6, e.auth);
    assert SizeOfVarint(1) == 1;
  }

  lemma BlockSizeExact(b: Block)
    ensures BlockSize(b) == |BlockBytes(b)|
  {
    BlockPieces(b);
    DelimitedSize(1, b.prefix);
    DelimitedSize(2, b.data);
    DelimitedSize(3, b.auth);
  }

  lemma PresenceSizeExact(p: BlockPresence)
    ensures PresenceSize(p) == |PresenceBytes(p)|
  {
    PresencePieces(p);
    DelimitedSize(1, p.cid);
    VarintSize(2, SignExtend(p.kind));
    DelimitedSize(3, p.auth);
  }

  method SizeOfEntry(e: Entry) returns (n: nat)
    ensures n == |EntryBytes(e)|
  {
    n := EntrySize(e);
    EntrySizeExact(e);
  }

  method SizeOfBlock(b: Block) returns (n: nat)
    ensures n == |BlockBytes(b)|
  {
    n := BlockSize(b);
    BlockSizeExact(b);
  }

  method SizeOfPresence(p: BlockPresence) returns (n: nat)
    ensures n == |PresenceBytes(p)|
  {
    n := PresenceSize(p);
    PresenceSizeExact(p);
  }

  /** `Size` of a wantlist: a sum over its entries. */
  method WantlistSize(w: Wantlist) returns (n: nat)
    ensures n == |WantlistBytes(w)|
  {
    n := 0;
    ghost var fs := Repeated(1, Encoded(w.entries, EntryBytes));
    for i := 0 to |w.entries|
      invariant n == |FieldsBytes(fs[..i])|
    {
      var l := EntrySize(w.entries[i]);
      n := n + Delimited(l);
      EntrySizeExact(w.entries[i]);
      NextItem(fs, i, 1, EntryBytes(w.entries[i]));
    }
    if w.full {
      n := n + 2;
    }
    assert fs[..|fs|] == fs;
    FieldsBytesConcat(fs, Optional(w.full, VarintField(2, 1)));
    assert FieldsBytes([VarintField(2, 1)]) == [0x10, 1];
  }

  lemma NextItem(fs: seq<Field>, i: nat, num: FieldNum, b: Bytes)
    requires i < |fs| && fs[i] == BytesField(num, b)
    ensures FieldsBytes(fs[..i + 1]) == FieldsBytes(fs[..i]) + FieldBytes(fs[i])
    ensures |FieldsBytes(fs[..i + 1])| == |FieldsBytes(fs[..i])| + Delimited(|b|)
  {
    assert fs[..i + 1] == fs[..i] + [fs[i]];
    FieldsBytesConcat(fs[..i], [fs[i]]);
    SingleBytes(fs[i]);
    DelimitedSize(num, b);
  }

  /** `Size` of a message. */
  method MessageSize(m: Message) returns (n: nat)
    ensures n == |MessageBytes(m)|
  {
    var l := WantlistSize(m.wantlist);
    var blocks := BlocksSize(m.blocks);
    var payload := PayloadSize(m.payload);
    var presences := PresencesSize(m.presences);
    n := Delimited(l) + blocks + payload + presences;
    if m.pendingBytes != 0 {
      n := n + 1 + SizeOfVarint(SignExtend(m.pendingBytes));
    }
    MessagePieces(m);
    DelimitedSize(1, WantlistBytes(m.wantlist));
    VarintSize(5, SignExtend(m.pendingBytes));
  }

  method BlocksSize(bs: seq<Bytes>) returns (n: nat)
    ensures n == |FieldsBytes(Repeated(2, bs))|
  {
    n := 0;
    ghost var fs := Repeated(2, bs);
    for i := 0 to |bs|
      invariant n == |FieldsBytes(fs[..i])|
    {
      n := n + Delimited(|bs[i]|);
      NextItem(fs, i, 2, bs[i]);
    }
    assert fs[..|fs|] == fs;
  }

  method PayloadSize(bs: seq<Block>) returns (n: nat)
    ensures n == |FieldsBytes(Repeated(3, Encoded(bs, BlockBytes)))|
  {
    n := 0;
    ghost var fs := Repeated(3, Encoded(bs, BlockBytes));
    for i := 0 to |bs|
      invariant n == |FieldsBytes(fs[..i])|
    {
      n := n + Delimited(BlockSize(bs[i]));
      BlockSizeExact(bs[i]);
      NextItem(fs, i, 3, BlockBytes(bs[i]));
    }
    assert fs[..|fs|] == fs;
  }

  method PresencesSize(ps: seq<BlockPresence>) returns (n: nat)
    ensures n == |FieldsBytes(Repeated(4, Encoded(ps, PresenceBytes)))|
  {
    n := 0;
    ghost var fs := Repeated(4, Encoded(ps, PresenceBytes));
    for i := 0 to |ps|
      invariant n == |FieldsBytes(fs[..i])|
    {
      n := n + Delimited(PresenceSize(ps[i]));
      PresenceSizeExact(ps[i]);
      NextItem(fs, i, 4, PresenceBytes(ps[i]));
    }
    assert fs[..|fs|] == fs;
  }

  lemma FivePieces(f1: seq<Field>, f2: seq<Field>, f3: seq<Field>, f4: seq<Field>, f5: seq<Field>)
    ensures FieldsBytes(f1 + (f2 + (f3 + (f4 + f5)))) ==
            FieldsBytes(f1) + (FieldsBytes(f2) + (FieldsBytes(f3) + (FieldsBytes(f4) + FieldsBytes(f5))))
  {
    FieldsBytesConcat(f1, f2 + (f3 + (f4 + f5)));
    FieldsBytesConcat(f2, f3 + (f4 + f5));
    FieldsBytesConcat(f3, f4 + f5);
    FieldsBytesConcat(f4, f5);
  }

  lemma OptionalPiece(present: bool, f: Field)
    ensures FieldsBytes(Optional(present, f)) == OptionalBytes(present, f)
  {
    OptionalFirst(present, f, []);
    assert Optional(present, f) + [] == Optional(present, f);
    assert OptionalBytes(present, f) + [] == OptionalBytes(present, f);
  }

  lemma MessagePieces(m: Message)
    ensures MessageBytes(m) ==
            FieldBytes(BytesField(1, WantlistBytes(m.wantlist)))
            + (FieldsBytes(Repeated(2, m.blocks))
            + (FieldsBytes(Repeated(3, Encoded(m.payload, BlockBytes)))
            + (FieldsBytes(Repeated(4, Encoded(m.presences, PresenceBytes)))
            + OptionalBytes(m.pendingBytes != 0, VarintField(5, SignExtend(m.pendingBytes))))))
  {
    var f1, v5 := BytesField(1, WantlistBytes(m.wantlist)), VarintField(5, SignExtend(m.pendingBytes));
    OptionalPiece(true, f1);
    OptionalPiece(m.pendingBytes != 0, v5);
    FivePieces(Optional(true, f1), Repeated(2, m.blocks), Repeated(3, Encoded(m.payload, BlockBytes)),
               Repeated(4, Encoded(m.presences, PresenceBytes)), Optional(m.pendingBytes != 0, v5));
  }

  // ---------------------------------------------------------------------------------------
  // MarshalTo
  // ---------------------------------------------------------------------------------------

  /** After `pre`, the fields `done` of `all` have been written, in a buffer of `cap` bytes that
      also has room for `rest`. */
  ghost predicate Progress(out: Bytes, cap: nat, pre: Bytes, all: seq<Field>, done: seq<Field>, rest: seq<Field>) {
    && all == done + rest
    && |FieldsBytes(all)| <= MAX_INT && |pre| + |FieldsBytes(all)| <= cap
    && out == pre + FieldsBytes(done)
  }

  lemma ProgressStart(cap: nat, pre: Bytes, all: seq<Field>)
    requires |FieldsBytes(all)| <= MAX_INT && |pre| + |FieldsBytes(all)| <= cap
    ensures Progress(pre, cap, pre, all, [], all)
  {
    assert all == [] + all && pre == pre + [];
  }

  lemma ProgressEnd(out: Bytes, cap: nat, pre: Bytes, all: seq<Field>, done: seq<Field>)
    requires Progress(out, cap, pre, all, done, [])
    ensures out == pre + FieldsBytes(all)
  {
    assert done + [] == done;
  }

  lemma SnocBytes(all: seq<Field>, done: seq<Field>, f: Field, rest: seq<Field>)
    requires all == done + ([f] + rest)
    ensures all == (done + [f]) + rest
    ensures FieldsBytes(done + [f]) == FieldsBytes(done) + FieldBytes(f)
    ensures |FieldsBytes(all)| == |FieldsBytes(done)| + |FieldBytes(f)| + |FieldsBytes(rest)|
  {
    Associate(done, [f], rest);
    FieldsBytesConcat(done + [f], rest);
    FieldsBytesConcat(done, [f]);
    SingleBytes(f);
  }

  lemma SingleBytes(f: Field)
    ensures FieldsBytes([f]) == FieldBytes(f)
  {
    assert FieldsBytes([f]) == FieldBytes(f) + FieldsBytes([]);
  }

  /** There is room for the next field, and once it is written the rest remains. */
  lemma ProgressStep(out: Bytes, cap: nat, pre: Bytes, all: seq<Field>, done: seq<Field>, f: Field, rest: seq<Field>)
    requires Progress(out, cap, pre, all, done, [f] + rest)
    ensures |out| + |FieldBytes(f)| <= cap && |FieldBytes(f)| <= MAX_INT
    ensures Progress(out + FieldBytes(f), cap, pre, all, done + [f], rest)
  {
    SnocBytes(all, done, f, rest);
    Associate(pre, FieldsBytes(done), FieldBytes(f));
  }

  lemma Associate<T>(a: seq<T>, b: seq<T>, c: seq<T>)
    ensures (a + b) + c == a + (b + c)
  {
  }

  /** Writes the next field, which may be left out. */
  method Emit(buf: array<byte>, i: nat, present: bool, f: Field,
              ghost pre: Bytes, ghost all: seq<Field>, ghost done: seq<Field>, ghost rest: seq<Field>)
    returns (next: nat, ghost done': seq<Field>)
    requires i <= buf.Length && !f.Unknown?
    requires Progress(buf[..i], buf.Length, pre, all, done, Optional(present, f) + rest)
    modifies buf
    ensures next <= buf.Length && Progress(buf[..next], buf.Length, pre, all, done', rest)
  {
    if present {
      done' := done + [f];
      ProgressStep(buf[..i], buf.Length, pre, all, done, f, rest);
      next := PutField(buf, i, f);
    } else {
      next, done' := i, done;
      assert Optional(present, f) + rest == rest;
    }
  }

  method MarshalEntry(e: Entry, buf: array<byte>, base: nat) returns (i: nat)
    requires |EntryBytes(e)| <= MAX_INT && base + |EntryBytes(e)| <= buf.Length
    modifies buf
    ensures i == base + |EntryBytes(e)|
    ensures buf[..i] == old(buf[..base]) + EntryBytes(e)
  {
    ghost var f3 := Optional(e.cancel, VarintField(3, 1)) + LastEntryFields(e);
    ghost var f2 := Optional(e.priority != 0, VarintField(2, SignExtend(e.priority))) + f3;
    ghost var pre, all, done := buf[..base], EntryFields(e), [];
    ProgressStart(buf.Length, pre, all);
    i, done := Emit(buf, base, true, BytesField(1, e.block), pre, all, done, f2);
    i, done := Emit(buf, i, e.priority != 0, VarintField(2, SignExtend(e.priority)), pre, all, done, f3);
    i, done := Emit(buf, i, e.cancel, VarintField(3, 1), pre, all, done, LastEntryFields(e));
    i, done := MarshalLastFields(e, buf, i, pre, all, done);
    ProgressEnd(buf[..i], buf.Length, pre, all, done);
  }

  method MarshalLastFields(e: Entry, buf: array<byte>, at: nat, ghost pre: Bytes, ghost all: seq<Field>,
                           ghost done: seq<Field>)
    returns (i: nat, ghost done': seq<Field>)
    requires at <= buf.Length && Progress(buf[..at], buf.Length, pre, all, done, LastEntryFields(e))
    modifies buf
    ensures i <= buf.Length && Progress(buf[..i], buf.Length, pre, all, done', [])
  {
    ghost var f6 := Optional(e.auth != [], BytesField(6, e.auth));
    ghost var f5 := Optional(e.sendDontHave, VarintField(5, 1)) + f6;
    i, done' := Emit(buf, at, e.wantType != 0, VarintField(4, SignExtend(e.wantType)), pre, all, done, f5);
    i, done' := Emit(buf, i, e.sendDontHave, VarintField(5, 1), pre, all, done', f6);
    assert f6 == f6 + [];
    i, done' := Emit(buf, i, |e.auth| > 0, BytesField(6, e.auth), pre, all, done', []);
  }

  method MarshalBlock(b: Block, buf: array<byte>, base: nat) returns (i: nat)
    requires |BlockBytes(b)| <= MAX_INT && base + |BlockBytes(b)| <= buf.Length
    modifies buf
    ensures i == base + |BlockBytes(b)|
    ensures buf[..i] == old(buf[..base]) + BlockBytes(b)
  {
    ghost var f3 := Optional(b.auth != [], BytesField(3, b.auth));
    ghost var f2 := Optional(b.data != [], BytesField(2, b.data)) + f3;
    ghost var pre, all, done := buf[..base], BlockFields(b), [];
    ProgressStart(buf.Length, pre, all);
    i, done := Emit(buf, base, |b.prefix| > 0, BytesField(1, b.prefix), pre, all, done, f2);
    i, done := Emit(buf, i, |b.data| > 0, BytesField(2, b.data), pre, all, done, f3);
    assert f3 == f3 + [];
    i, done := Emit(buf, i, |b.auth| > 0, BytesField(3, b.auth), pre, all, done, []);
    ProgressEnd(buf[..i], buf.Length, pre, all, done);
  }

  method MarshalPresence(p: BlockPresence, buf: array<byte>, base: nat) returns (i: nat)
    requires |PresenceBytes(p)| <= MAX_INT && base + |PresenceBytes(p)| <= buf.Length
    modifies buf
    ensures i == base + |PresenceBytes(p)|
    ensures buf[..i] == old(buf[..base]) + PresenceBytes(p)
  {
    ghost var f3 := Optional(p.auth != [], BytesField(3, p.auth));
    ghost var f2 := Optional(p.kind != 0, VarintField(2, SignExtend(p.kind))) + f3;
    ghost var pre, all, done := buf[..base], PresenceFields(p), [];
    ProgressStart(buf.Length, pre, all);
    i, done := Emit(buf, base, true, BytesField(1, p.cid), pre, all, done, f2);
    i, done := Emit(buf, i, p.kind != 0, VarintField(2, SignExtend(p.kind)), pre, all, done, f3);
    assert f3 == f3 + [];
    i, done := Emit(buf, i, |p.auth| > 0, BytesField(3, p.auth), pre, all, done, []);
    ProgressEnd(buf[..i], buf.Length, pre, all, done);
  }

  lemma NextRepeated(num: FieldNum, items: seq<Bytes>, k: nat, rest: seq<Field>)
    requires k < |items|
    ensures Repeated(num, items)[k..] + rest == [BytesField(num, items[k])] + (Repeated(num, items)[k + 1..] + rest)
  {
  }

  lemma NoneRepeated(num: FieldNum, items: seq<Bytes>, rest: seq<Field>)
    ensures Repeated(num, items)[0..] + rest == Repeated(num, items) + rest
    ensures Repeated(num, items)[|items|..] + rest == rest
  {
  }

  /** Writes the header of a nested message: its tag and its size. */
  method EmitHeader(buf: array<byte>, at: nat, num: FieldNum, size: nat, ghost body: Bytes,
                    ghost pre: Bytes, ghost all: seq<Field>, ghost done: seq<Field>, ghost rest: seq<Field>)
    returns (i: nat)
    requires at <= buf.Length && size == |body|
    requires Progress(buf[..at], buf.Length, pre, all, done, [BytesField(num, body)] + rest)
    modifies buf
    ensures |body| <= MAX_INT && i + |body| <= buf.Length
    ensures Progress(buf[..i] + body, buf.Length, pre, all, done + [BytesField(num, body)], rest)
  {
    ghost var out, header := buf[..at], [8 * num + 2] + VarintBytes(|body|);
    ProgressStep(out, buf.Length, pre, all, done, BytesField(num, body), rest);
    assert FieldBytes(BytesField(num, body)) == header + body;
    i := PutTag(buf, at, 8 * num + 2, size);
    assert buf[..i] == out + header;
    Associate(out, header, body);
  }

  method EmitEntry(e: Entry, buf: array<byte>, at: nat,
                   ghost pre: Bytes, ghost all: seq<Field>, ghost done: seq<Field>, ghost rest: seq<Field>)
    returns (i: nat, ghost done': seq<Field>)
    requires at <= buf.Length
    requires Progress(buf[..at], buf.Length, pre, all, done, [BytesField(1, EntryBytes(e))] + rest)
    modifies buf
    ensures i <= buf.Length && Progress(buf[..i], buf.Length, pre, all, done', rest)
  {
    ghost var body := EntryBytes(e);
    done' := done + [BytesField(1, body)];
    var size := SizeOfEntry(e);
    i := EmitHeader(buf, at, 1, size, body, pre, all, done, rest);
    i := MarshalEntry(e, buf, i);
  }

  method MarshalEntries(es: seq<Entry>, buf: array<byte>, at: nat,
                         ghost pre: Bytes, ghost all: seq<Field>, ghost done: seq<Field>, ghost rest: seq<Field>)
    returns (i: nat, ghost done': seq<Field>)
    requires at <= buf.Length
    requires Progress(buf[..at], buf.Length, pre, all, done, Repeated(1, Encoded(es, EntryBytes)) + rest)
    modifies buf
    ensures i <= buf.Length && Progress(buf[..i], buf.Length, pre, all, done', rest)
  {
    i, done' := at, done;
    ghost var items := Encoded(es, EntryBytes);
    NoneRepeated(1, items, rest);
    for k := 0 to |es|
      invariant i <= buf.Length && Progress(buf[..i], buf.Length, pre, all, done', Repeated(1, items)[k..] + rest)
    {
      NextRepeated(1, items, k, rest);
      i, done' := EmitEntry(es[k], buf, i, pre, all, done', Repeated(1, items)[k + 1..] + rest);
    }
  }

  method MarshalWantlist(w: Wantlist, buf: array<byte>, base: nat) returns (i: nat)
    requires |WantlistBytes(w)| <= MAX_INT && base + |WantlistBytes(w)| <= buf.Length
    modifies buf
    ensures i == base + |WantlistBytes(w)|
    ensures buf[..i] == old(buf[..base]) + WantlistBytes(w)
  {
    ghost var pre, all, done, last := buf[..base], WantlistFields(w), [], Optional(w.full, VarintField(2, 1));
    ProgressStart(buf.Length, pre, all);
    i, done := MarshalEntries(w.entries, buf, base, pre, all, done, last);
    assert last == last + [];
    i, done := Emit(buf, i, w.full, VarintField(2, 1), pre, all, done, []);
    ProgressEnd(buf[..i], buf.Length, pre, all, done);
  }

  method MarshalBlocks(bs: seq<Bytes>, buf: array<byte>, at: nat,
                         ghost pre: Bytes, ghost all: seq<Field>, ghost done: seq<Field>, ghost rest: seq<Field>)
    returns (i: nat, ghost done': seq<Field>)
    requires at <= buf.Length
    requires Progress(buf[..at], buf.Length, pre, all, done, Repeated(2, bs) + rest)
    modifies buf
    ensures i <= buf.Length && Progress(buf[..i], buf.Length, pre, all, done', rest)
  {
    i, done' := at, done;
    ghost var items := bs;
    NoneRepeated(2, items, rest);
    for k := 0 to |bs|
      invariant i <= buf.Length && Progress(buf[..i], buf.Length, pre, all, done', Repeated(2, items)[k..] + rest)
    {
      NextRepeated(2, items, k, rest);
      i, done' := Emit(buf, i, true, BytesField(2, bs[k]), pre, all, done', Repeated(2, items)[k + 1..] + rest);
    }
  }

  method EmitBlock(b: Block, buf: array<byte>, at: nat,
                   ghost pre: Bytes, ghost all: seq<Field>, ghost done: seq<Field>, ghost rest: seq<Field>)
    returns (i: nat, ghost done': seq<Field>)
    requires at <= buf.Length
    requires Progress(buf[..at], buf.Length, pre, all, done, [BytesField(3, BlockBytes(b))] + rest)
    modifies buf
    ensures i <= buf.Length && Progress(buf[..i], buf.Length, pre, all, done', rest)
  {
    ghost var body := BlockBytes(b);
    done' := done + [BytesField(3, body)];
    var size := SizeOfBlock(b);
    i := EmitHeader(buf, at, 3, size, body, pre, all, done, rest);
    i := MarshalBlock(b, buf, i);
  }

  method MarshalPayload(bs: seq<Block>, buf: array<byte>, at: nat,
                         ghost pre: Bytes, ghost all: seq<Field>, ghost done: seq<Field>, ghost rest: seq<Field>)
    returns (i: nat, ghost done': seq<Field>)
    requires at <= buf.Length
    requires Progress(buf[..at], buf.Length, pre, all, done, Repeated(3, Encoded(bs, BlockBytes)) + rest)
    modifies buf
    ensures i <= buf.Length && Progress(buf[..i], buf.Length, pre, all, done', rest)
  {
    i, done' := at, done;
    ghost var items := Encoded(bs, BlockBytes);
    NoneRepeated(3, items, rest);
    for k := 0 to |bs|
      invariant i <= buf.Length && Progress(buf[..i], buf.Length, pre, all, done', Repeated(3, items)[k..] + rest)
    {
      NextRepeated(3, items, k, rest);
      i, done' := EmitBlock(bs[k], buf, i, pre, all, done', Repeated(3, items)[k + 1..] + rest);
    }
  }

  method EmitPresence(p: BlockPresence, buf: array<byte>, at: nat,
                   ghost pre: Bytes, ghost all: seq<Field>, ghost done: seq<Field>, ghost rest: seq<Field>)
    returns (i: nat, ghost done': seq<Field>)
    requires at <= buf.Length
    requires Progress(buf[..at], buf.Length, pre, all, done, [BytesField(4, PresenceBytes(p))] + rest)
    modifies buf
    ensures i <= buf.Length && Progress(buf[..i], buf.Length, pre, all, done', rest)
  {
    ghost var body := PresenceBytes(p);
    done' := done + [BytesField(4, body)];
    var size := SizeOfPresence(p);
    i := EmitHeader(buf, at, 4, size, body, pre, all, done, rest);
    i := MarshalPresence(p, buf, i);
  }

  method MarshalPresences(ps: seq<BlockPresence>, buf: array<byte>, at: nat,
                         ghost pre: Bytes, ghost all: seq<Field>, ghost done: seq<Field>, ghost rest: seq<Field>)
    returns (i: nat, ghost done': seq<Field>)
    requires at <= buf.Length
    requires Progress(buf[..at], buf.Length, pre, all, done, Repeated(4, Encoded(ps, PresenceBytes)) + rest)
    modifies buf
    ensures i <= buf.Length && Progress(buf[..i], buf.Length, pre, all, done', rest)
  {
    i, done' := at, done;
    ghost var items := Encoded(ps, PresenceBytes);
    NoneRepeated(4, items, rest);
    for k := 0 to |ps|
      invariant i <= buf.Length && Progress(buf[..i], buf.Length, pre, all, done', Repeated(4, items)[k..] + rest)
    {
      NextRepeated(4, items, k, rest);
      i, done' := EmitPresence(ps[k], buf, i, pre, all, done', Repeated(4, items)[k + 1..] + rest);
    }
  }

  method EmitWantlist(w: Wantlist, buf: array<byte>, at: nat,
                   ghost pre: Bytes, ghost all: seq<Field>, ghost done: seq<Field>, ghost rest: seq<Field>)
    returns (i: nat, ghost done': seq<Field>)
    requires at <= buf.Length
    requires Progress(buf[..at], buf.Length, pre, all, done, [BytesField(1, WantlistBytes(w))] + rest)
    modifies buf
    ensures i <= buf.Length && Progress(buf[..i], buf.Length, pre, all, done', rest)
  {
    ghost var body := WantlistBytes(w);
    done' := done + [BytesField(1, body)];
    var size := WantlistSize(w);
    i := EmitHeader(buf, at, 1, size, body, pre, all, done, rest);
    i := MarshalWantlist(w, buf, i);
  }

  method MarshalMessage(m: Message, buf: array<byte>, base: nat) returns (i: nat)
    requires |MessageBytes(m)| <= MAX_INT && base + |MessageBytes(m)| <= buf.Length
    modifies buf
    ensures i == base + |MessageBytes(m)|
    ensures buf[..i] == old(buf[..base]) + MessageBytes(m)
  {
    ghost var f5 := Optional(m.pendingBytes != 0, VarintField(5, SignExtend(m.pendingBytes)));
    ghost var f3 := Repeated(3, Encoded(m.payload, BlockBytes)) +
      (Repeated(4, Encoded(m.presences, PresenceBytes)) + f5);
    ghost var f2 := Repeated(2, m.blocks) + f3;
    ghost var pre, all, done := buf[..base], MessageFields(m), [];
    ProgressStart(buf.Length, pre, all);
    i, done := EmitWantlist(m.wantlist, buf, base, pre, all, done, f2);
    i, done := MarshalBlocks(m.blocks, buf, i, pre, all, done, f3);
    i, done := MarshalRest(m, buf, i, pre, all, done);
    ProgressEnd(buf[..i], buf.Length, pre, all, done);
  }

  /** The payload, the presences and the number of pending bytes. */
  method MarshalRest(m: Message, buf: array<byte>, at: nat, ghost pre: Bytes, ghost all: seq<Field>,
                     ghost done: seq<Field>)
    returns (i: nat, ghost done': seq<Field>)
    requires at <= buf.Length
    requires Progress(buf[..at], buf.Length, pre, all, done,
                      Repeated(3, Encoded(m.payload, BlockBytes)) + (Repeated(4, Encoded(m.presences, PresenceBytes))
                      + Optional(m.pendingBytes != 0, VarintField(5, SignExtend(m.pendingBytes)))))
    modifies buf
    ensures i <= buf.Length && Progress(buf[..i], buf.Length, pre, all, done', [])
  {
    ghost var f5 := Optional(m.pendingBytes != 0, VarintField(5, SignExtend(m.pendingBytes)));
    i, done' := MarshalPayload(m.payload, buf, at, pre, all, done,
                               Repeated(4, Encoded(m.presences, PresenceBytes)) + f5);
    i, done' := MarshalPresences(m.presences, buf, i, pre, all, done', f5);
    assert f5 == f5 + [];
    i, done' := Emit(buf, i, m.pendingBytes != 0, VarintField(5, SignExtend(m.pendingBytes)), pre, all, done', []);
  }

  /** `Marshal`: a buffer of `Size()` bytes is filled exactly. */
  method Marshal(m: Message) returns (d: Bytes)
    requires |MessageBytes(m)| <= MAX_INT
    ensures d == MessageBytes(m)
  {
    var size := MessageSize(m);
    var buf := new byte[size](_ => 0);
    var n := MarshalMessage(m, buf, 0);
    d := buf[..n];
  }

  /** `Unmarshal` into a fresh message. */
  method UnmarshalMessage(cast: Castable, d: Bytes) returns (r: Result<Message, WireError>)
    requires IsSlice(d)
    ensures r == ParseMessage(cast, d)
  {
    r := Unmarshal(MESSAGE, ApplyMessage(cast), d, NO_MESSAGE);
  }

  /** Sending a message over the wire gives it back exactly when its CIDs can be cast. */
  method SendAndReceive(cast: Castable, m: Message) returns (r: Result<Message, WireError>)
    requires |MessageBytes(m)| + 8 <= MAX_INT
    ensures r == if AllCastable(cast, m) then Ok(m) else Err(BadCid)
  {
    var d := Marshal(m);
    MessageRoundTrip(cast, m);
    r := UnmarshalMessage(cast, d);
  }
}
