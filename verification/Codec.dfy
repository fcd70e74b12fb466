/** The five protobuf messages of the protocol and their codec (message/pb/message.pb.go). */
module Codec {
  import opened Basics
  import opened Varint
  import opened Wire

  datatype Entry = Entry(
    block: Cid,
    priority: int32,
    cancel: bool,
    wantType: int32,
    sendDontHave: bool,
    auth: Bytes)

  datatype Wantlist = Wantlist(entries: seq<Entry>, full: bool)

  datatype Block = Block(prefix: Bytes, data: Bytes, auth: Bytes)

  datatype BlockPresence = BlockPresence(cid: Cid, kind: int32, auth: Bytes)

  datatype Message = Message(
    wantlist: Wantlist,
    blocks: seq<Bytes>,
    payload: seq<Block>,
    presences: seq<BlockPresence>,
    pendingBytes: int32)

  const NO_ENTRY := Entry([], 0, false, 0, false, [])
  const NO_WANTLIST := Wantlist([], false)
  const NO_BLOCK := Block([], [], [])
  const NO_PRESENCE := BlockPresence([], 0, [])
  const NO_MESSAGE := Message(NO_WANTLIST, [], [], [], 0)

  const ENTRY: Schema := map[1 := BytesKind, 2 := VarintKind, 3 := VarintKind, 4 := VarintKind, 5 := VarintKind,
                             6 := BytesKind]
  const WANTLIST: Schema := map[1 := BytesKind, 2 := VarintKind]
  const BLOCK: Schema := map[1 := BytesKind, 2 := BytesKind, 3 := BytesKind]
  const PRESENCE: Schema := map[1 := BytesKind, 2 := VarintKind, 3 := BytesKind]
  const MESSAGE: Schema := map[1 := BytesKind, 2 := BytesKind, 3 := BytesKind, 4 := BytesKind, 5 := VarintKind]

  // ---------------------------------------------------------------------------------------
  // Reading
  // ---------------------------------------------------------------------------------------

  /** Whether `cid.Cast` accepts a byte string. */
  type Castable = Bytes -> bool

  function ApplyEntry(cast: Castable): Apply<Entry> {
    (e: Entry, f: Field) =>
      match f
      case BytesField(num, b) =>
        if num == 6 then Ok(e.(auth := b))
        else if cast(b) then Ok(e.(block := b))
        else Err(BadCid)
      case VarintField(num, v) =>
        Ok(if num == 2 then e.(priority := AsInt32(v))
           else if num == 3 then e.(cancel := v != 0)
           else if num == 4 then e.(wantType := AsInt32(v))
           else e.(sendDontHave := v != 0))
      case Unknown => Ok(e)
  }

  function ApplyBlock(): Apply<Block> {
    (b: Block, f: Field) =>
      match f
      case BytesField(num, x) =>
        Ok(if num == 1 then b.(prefix := x) else if num == 2 then b.(data := x) else b.(auth := x))
      case _ => Ok(b)
  }

  function ApplyPresence(cast: Castable): Apply<BlockPresence> {
    (p: BlockPresence, f: Field) =>
      match f
      case BytesField(num, x) =>
        if num == 3 then Ok(p.(auth := x))
        else if cast(x) then Ok(p.(cid := x))
        else Err(BadCid)
      case VarintField(_, v) => Ok(p.(kind := AsInt32(v)))
      case Unknown => Ok(p)
  }

  function ParseEntry(cast: Castable, d: Bytes): Result<Entry, WireError> {
    Parse(ENTRY, ApplyEntry(cast), d, NO_ENTRY)
  }

  function ParseBlock(d: Bytes): Result<Block, WireError> {
    Parse(BLOCK, ApplyBlock(), d, NO_BLOCK)
  }

  function ParsePresence(cast: Castable, d: Bytes): Result<BlockPresence, WireError> {
    Parse(PRESENCE, ApplyPresence(cast), d, NO_PRESENCE)
  }

  function AddEntry(cast: Castable, w: Wantlist, d: Bytes): Result<Wantlist, WireError> {
    var e :- ParseEntry(cast, d);
    Ok(w.(entries := w.entries + [e]))
  }

  function ApplyWantlist(cast: Castable): Apply<Wantlist> {
    (w: Wantlist, f: Field) =>
      match f
      case BytesField(_, b) => AddEntry(cast, w, b)
      case VarintField(_, v) => Ok(w.(full := v != 0))
      case Unknown => Ok(w)
  }

  /** A repeated wantlist field is merged into the one already read. */
  function MergeWantlist(cast: Castable, m: Message, d: Bytes): Result<Message, WireError> {
    var w :- Parse(WANTLIST, ApplyWantlist(cast), d, m.wantlist);
    Ok(m.(wantlist := w))
  }

  function AddPayload(m: Message, d: Bytes): Result<Message, WireError> {
    var b :- ParseBlock(d);
    Ok(m.(payload := m.payload + [b]))
  }

  function AddPresence(cast: Castable, m: Message, d: Bytes): Result<Message, WireError> {
    var p :- ParsePresence(cast, d);
    Ok(m.(presences := m.presences + [p]))
  }

  function ApplyMessage(cast: Castable): Apply<Message> {
    (m: Message, f: Field) =>
      match f
      case BytesField(num, b) =>
        if num == 1 then MergeWantlist(cast, m, b)
        else if num == 2 then Ok(m.(blocks := m.blocks + [b]))
        else if num == 3 then AddPayload(m, b)
        else AddPresence(cast, m, b)
      case VarintField(_, v) => Ok(m.(pendingBytes := AsInt32(v)))
      case Unknown => Ok(m)
  }

  function ParseMessage(cast: Castable, d: Bytes): Result<Message, WireError> {
    Parse(MESSAGE, ApplyMessage(cast), d, NO_MESSAGE)
  }

  // ---------------------------------------------------------------------------------------
  // Writing
  // ---------------------------------------------------------------------------------------

  function EntryFields(e: Entry): (fs: seq<Field>)
    ensures AllTyped(ENTRY, fs)
  {
    [BytesField(1, e.block)]
    + (Optional(e.priority != 0, VarintField(2, SignExtend(e.priority)))
    + (Optional(e.cancel, VarintField(3, 1))
    + LastEntryFields(e)))
  }

  function LastEntryFields(e: Entry): (fs: seq<Field>)
    ensures AllTyped(ENTRY, fs)
  {
    Optional(e.wantType != 0, VarintField(4, SignExtend(e.wantType)))
    + (Optional(e.sendDontHave, VarintField(5, 1))
    + Optional(e.auth != [], BytesField(6, e.auth)))
  }

  function BlockFields(b: Block): (fs: seq<Field>)
    ensures AllTyped(BLOCK, fs)
  {
    Optional(b.prefix != [], BytesField(1, b.prefix))
    + (Optional(b.data != [], BytesField(2, b.data))
    + Optional(b.auth != [], BytesField(3, b.auth)))
  }

  function PresenceFields(p: BlockPresence): (fs: seq<Field>)
    ensures AllTyped(PRESENCE, fs)
  {
    [BytesField(1, p.cid)]
    + (Optional(p.kind != 0, VarintField(2, SignExtend(p.kind)))
    + Optional(p.auth != [], BytesField(3, p.auth)))
  }

  function EntryBytes(e: Entry): Bytes { FieldsBytes(EntryFields(e)) }

  function BlockBytes(b: Block): Bytes { FieldsBytes(BlockFields(b)) }

  function PresenceBytes(p: BlockPresence): Bytes { FieldsBytes(PresenceFields(p)) }

  function Encoded<T>(items: seq<T>, encode: T -> Bytes): (r: seq<Bytes>)
    ensures |r| == |items| && forall i :: 0 <= i < |r| ==> r[i] == encode(items[i])
  {
    seq(|items|, i requires 0 <= i < |items| => encode(items[i]))
  }

  function WantlistFields(w: Wantlist): (fs: seq<Field>)
    ensures AllTyped(WANTLIST, fs)
  {
    Repeated(1, Encoded(w.entries, EntryBytes)) + Optional(w.full, VarintField(2, 1))
  }

  function WantlistBytes(w: Wantlist): Bytes { FieldsBytes(WantlistFields(w)) }

  function MessageFields(m: Message): (fs: seq<Field>)
  {
    [BytesField(1, WantlistBytes(m.wantlist))]
    + (Repeated(2, m.blocks)
    + (Repeated(3, Encoded(m.payload, BlockBytes))
    + (Repeated(4, Encoded(m.presences, PresenceBytes))
    + Optional(m.pendingBytes != 0, VarintField(5, SignExtend(m.pendingBytes))))))
  }

  function MessageBytes(m: Message): Bytes { FieldsBytes(MessageFields(m)) }

  /** Every CID of the message is one that `cid.Cast` accepts. */
  predicate EntriesCastable(cast: Castable, es: seq<Entry>) {
    forall i :: 0 <= i < |es| ==> cast(es[i].block)
  }

  predicate PresencesCastable(cast: Castable, ps: seq<BlockPresence>) {
    forall i :: 0 <= i < |ps| ==> cast(ps[i].cid)
  }

  predicate AllCastable(cast: Castable, m: Message) {
    EntriesCastable(cast, m.wantlist.entries) && PresencesCastable(cast, m.presences)
  }

  // ---------------------------------------------------------------------------------------
  // Round trip
  // ---------------------------------------------------------------------------------------

  lemma MessageTyped(m: Message)
    ensures AllTyped(MESSAGE, MessageFields(m))
  {
    var f5 := Optional(m.pendingBytes != 0, VarintField(5, SignExtend(m.pendingBytes)));
    var f4 := Repeated(4, Encoded(m.presences, PresenceBytes));
    var f3 := Repeated(3, Encoded(m.payload, BlockBytes));
    var f2 := Repeated(2, m.blocks);
    RepeatedTyped(MESSAGE, 2, m.blocks);
    RepeatedTyped(MESSAGE, 3, Encoded(m.payload, BlockBytes));
    RepeatedTyped(MESSAGE, 4, Encoded(m.presences, PresenceBytes));
    JoinTyped(MESSAGE, f4, f5);
    JoinTyped(MESSAGE, f3, f4 + f5);
    JoinTyped(MESSAGE, f2, f3 + (f4 + f5));
    JoinTyped(MESSAGE, [BytesField(1, WantlistBytes(m.wantlist))], f2 + (f3 + (f4 + f5)));
  }

  lemma EntryRoundTrip(cast: Castable, e: Entry)
    requires |EntryBytes(e)| <= MAX_INT
    ensures ParseEntry(cast, EntryBytes(e)) == if cast(e.block) then Ok(e) else Err(BadCid)
  {
    var fs, apply := EntryFields(e), ApplyEntry(cast);
    FittingWritable(ENTRY, fs);
    FieldsRoundTrip(ENTRY, apply, fs, NO_ENTRY);
    EntryFieldsApplied(cast, e);
  }

  lemma EntryFieldsApplied(cast: Castable, e: Entry)
    ensures ApplyAll(ApplyEntry(cast), EntryFields(e), NO_ENTRY) == if cast(e.block) then Ok(e) else Err(BadCid)
  {
    var apply := ApplyEntry(cast);
    var f4 := LastEntryFields(e);
    var f3 := Optional(e.cancel, VarintField(3, 1)) + f4;
    var f2 := Optional(e.priority != 0, VarintField(2, SignExtend(e.priority))) + f3;
    assert EntryFields(e)[1..] == f2;
    if cast(e.block) {
      var e1 := NO_ENTRY.(block := e.block);
      var e2 := e1.(priority := e.priority);
      var e3 := e2.(cancel := e.cancel);
      ApplyOptional(apply, e.priority != 0, VarintField(2, SignExtend(e.priority)), f3, e1, e2);
      ApplyOptional(apply, e.cancel, VarintField(3, 1), f4, e2, e3);
      LastEntryFieldsApplied(cast, e, e3);
    }
  }

  lemma LastEntryFieldsApplied(cast: Castable, e: Entry, e3: Entry)
    requires e3 == e.(wantType := 0, sendDontHave := false, auth := [])
    ensures ApplyAll(ApplyEntry(cast), LastEntryFields(e), e3) == Ok(e)
  {
    var apply := ApplyEntry(cast);
    var f6 := Optional(e.auth != [], BytesField(6, e.auth));
    var f5 := Optional(e.sendDontHave, VarintField(5, 1)) + f6;
    var e4 := e3.(wantType := e.wantType);
    var e5 := e4.(sendDontHave := e.sendDontHave);
    ApplyOptional(apply, e.wantType != 0, VarintField(4, SignExtend(e.wantType)), f5, e3, e4);
    ApplyOptional(apply, e.sendDontHave, VarintField(5, 1), f6, e4, e5);
    assert f6 + [] == f6;
    ApplyOptional(apply, e.auth != [], BytesField(6, e.auth), [], e5, e);
  }

  lemma BlockRoundTrip(b: Block)
    requires |BlockBytes(b)| <= MAX_INT
    ensures ParseBlock(BlockBytes(b)) == Ok(b)
  {
    var fs, apply := BlockFields(b), ApplyBlock();
    FittingWritable(BLOCK, fs);
    FieldsRoundTrip(BLOCK, apply, fs, NO_BLOCK);
    var last := Optional(b.auth != [], BytesField(3, b.auth));
    var f2 := Optional(b.data != [], BytesField(2, b.data)) + last;
    var b1 := NO_BLOCK.(prefix := b.prefix);
    var b2 := b1.(data := b.data);
    ApplyOptional(apply, b.prefix != [], BytesField(1, b.prefix), f2, NO_BLOCK, b1);
    ApplyOptional(apply, b.data != [], BytesField(2, b.data), last, b1, b2);
    assert last + [] == last;
    ApplyOptional(apply, b.auth != [], BytesField(3, b.auth), [], b2, b);
  }

  lemma PresenceRoundTrip(cast: Castable, p: BlockPresence)
    requires |PresenceBytes(p)| <= MAX_INT
    ensures ParsePresence(cast, PresenceBytes(p)) == if cast(p.cid) then Ok(p) else Err(BadCid)
  {
    var fs, apply := PresenceFields(p), ApplyPresence(cast);
    FittingWritable(PRESENCE, fs);
    FieldsRoundTrip(PRESENCE, apply, fs, NO_PRESENCE);
    var last := Optional(p.auth != [], BytesField(3, p.auth));
    var f2 := Optional(p.kind != 0, VarintField(2, SignExtend(p.kind))) + last;
    assert fs[1..] == f2;
    if cast(p.cid) {
      var p1 := NO_PRESENCE.(cid := p.cid);
      var p2 := p1.(kind := p.kind);
      ApplyOptional(apply, p.kind != 0, VarintField(2, SignExtend(p.kind)), last, p1, p2);
      assert last + [] == last;
      ApplyOptional(apply, p.auth != [], BytesField(3, p.auth), [], p2, p);
    }
  }

  /** The items of a repeated field are no longer than the message that holds them. */
  lemma ItemsFit(fs: seq<Field>, num: FieldNum, items: seq<Bytes>)
    requires |FieldsBytes(fs)| <= MAX_INT
    requires forall f :: f in Repeated(num, items) ==> f in fs
    ensures forall b :: b in items ==> |b| <= MAX_INT
  {
    forall b | b in items ensures |b| <= MAX_INT {
      var i :| 0 <= i < |items| && items[i] == b;
      assert Repeated(num, items)[i] == BytesField(num, b);
      FieldNoLonger(fs, BytesField(num, b));
    }
  }

  /** Reading entry `j` after the entries before it. */
  lemma EntryStep(cast: Castable, w: Wantlist, es: seq<Entry>, j: nat, item: Bytes)
    requires j < |es| && ParseEntry(cast, item) == if cast(es[j].block) then Ok(es[j]) else Err(BadCid)
    ensures ApplyWantlist(cast)(w.(entries := w.entries + es[..j]), BytesField(1, item))
            == if cast(es[j].block) then Ok(w.(entries := w.entries + es[..j + 1])) else Err(BadCid)
  {
    assert w.entries + es[..j] + [es[j]] == w.entries + es[..j + 1];
  }

  lemma EntriesApplied(cast: Castable, es: seq<Entry>, items: seq<Bytes>, w: Wantlist)
    requires |items| == |es|
    requires forall j :: 0 <= j < |es| ==>
      ParseEntry(cast, items[j]) == if cast(es[j].block) then Ok(es[j]) else Err(BadCid)
    ensures ApplyAll(ApplyWantlist(cast), Repeated(1, items), w)
            == if EntriesCastable(cast, es) then Ok(w.(entries := w.entries + es)) else Err(BadCid)
  {
    var n := Leading(es, (e: Entry) => cast(e.block));
    var states := (i: nat) => w.(entries := w.entries + es[..if i <= |es| then i else |es|]);
    forall j | 0 <= j < n ensures ApplyWantlist(cast)(states(j), BytesField(1, items[j])) == Ok(states(j + 1)) {
      EntryStep(cast, w, es, j, items[j]);
    }
    if n < |es| {
      EntryStep(cast, w, es, n, items[n]);
    }
    ApplyRepeated(ApplyWantlist(cast), 1, items, states, n, BadCid, 0);
    assert Repeated(1, items)[0..] == Repeated(1, items);
    assert w.entries + es[..0] == w.entries && es[..|es|] == es;
  }

  lemma EntriesRoundTrip(cast: Castable, es: seq<Entry>, w: Wantlist)
    requires forall b :: b in Encoded(es, EntryBytes) ==> |b| <= MAX_INT
    ensures ApplyAll(ApplyWantlist(cast), Repeated(1, Encoded(es, EntryBytes)), w)
            == if EntriesCastable(cast, es) then Ok(w.(entries := w.entries + es)) else Err(BadCid)
  {
    var items := Encoded(es, EntryBytes);
    forall j | 0 <= j < |items|
      ensures ParseEntry(cast, items[j]) == if cast(es[j].block) then Ok(es[j]) else Err(BadCid)
    {
      assert items[j] in items;
      EntryRoundTrip(cast, es[j]);
    }
    EntriesApplied(cast, es, items, w);
  }

  lemma WantlistRoundTrip(cast: Castable, w: Wantlist)
    requires |WantlistBytes(w)| <= MAX_INT
    ensures Parse(WANTLIST, ApplyWantlist(cast), WantlistBytes(w), NO_WANTLIST)
            == if EntriesCastable(cast, w.entries) then Ok(w) else Err(BadCid)
  {
    var fs, apply := WantlistFields(w), ApplyWantlist(cast);
    FittingWritable(WANTLIST, fs);
    FieldsRoundTrip(WANTLIST, apply, fs, NO_WANTLIST);
    var es, last := Repeated(1, Encoded(w.entries, EntryBytes)), Optional(w.full, VarintField(2, 1));
    ItemsFit(fs, 1, Encoded(w.entries, EntryBytes));
    EntriesRoundTrip(cast, w.entries, NO_WANTLIST);
    assert NO_WANTLIST.entries + w.entries == w.entries;
    ApplyAllConcat(apply, es, last, NO_WANTLIST);
    assert last + [] == last;
    ApplyOptional(apply, w.full, VarintField(2, 1), [], NO_WANTLIST.(entries := w.entries), w);
  }

  lemma BlocksApplied(cast: Castable, bs: seq<Bytes>, m: Message)
    ensures ApplyAll(ApplyMessage(cast), Repeated(2, bs), m) == Ok(m.(blocks := m.blocks + bs))
  {
    var states := (i: nat) => m.(blocks := m.blocks + bs[..if i <= |bs| then i else |bs|]);
    forall j | 0 <= j < |bs| ensures ApplyMessage(cast)(states(j), BytesField(2, bs[j])) == Ok(states(j + 1)) {
      assert m.blocks + bs[..j] + [bs[j]] == m.blocks + bs[..j + 1];
    }
    ApplyRepeated(ApplyMessage(cast), 2, bs, states, |bs|, BadCid, 0);
    assert Repeated(2, bs)[0..] == Repeated(2, bs);
    assert m.blocks + bs[..0] == m.blocks && bs[..|bs|] == bs;
  }

  lemma PayloadStep(cast: Castable, m: Message, bs: seq<Block>, j: nat, item: Bytes)
    requires j < |bs| && ParseBlock(item) == Ok(bs[j])
    ensures ApplyMessage(cast)(m.(payload := m.payload + bs[..j]), BytesField(3, item))
            == Ok(m.(payload := m.payload + bs[..j + 1]))
  {
    assert m.payload + bs[..j] + [bs[j]] == m.payload + bs[..j + 1];
  }

  lemma PayloadApplied(cast: Castable, bs: seq<Block>, items: seq<Bytes>, m: Message)
    requires |items| == |bs|
    requires forall j :: 0 <= j < |bs| ==> ParseBlock(items[j]) == Ok(bs[j])
    ensures ApplyAll(ApplyMessage(cast), Repeated(3, items), m) == Ok(m.(payload := m.payload + bs))
  {
    var states := (i: nat) => m.(payload := m.payload + bs[..if i <= |bs| then i else |bs|]);
    forall j | 0 <= j < |bs| ensures ApplyMessage(cast)(states(j), BytesField(3, items[j])) == Ok(states(j + 1)) {
      PayloadStep(cast, m, bs, j, items[j]);
    }
    ApplyRepeated(ApplyMessage(cast), 3, items, states, |bs|, BadCid, 0);
    assert Repeated(3, items)[0..] == Repeated(3, items);
    assert m.payload + bs[..0] == m.payload && bs[..|bs|] == bs;
  }

  lemma PayloadRoundTrip(cast: Castable, bs: seq<Block>, m: Message)
    requires forall b :: b in Encoded(bs, BlockBytes) ==> |b| <= MAX_INT
    ensures ApplyAll(ApplyMessage(cast), Repeated(3, Encoded(bs, BlockBytes)), m)
            == Ok(m.(payload := m.payload + bs))
  {
    var items := Encoded(bs, BlockBytes);
    forall j | 0 <= j < |items| ensures ParseBlock(items[j]) == Ok(bs[j]) {
      assert items[j] in items;
      BlockRoundTrip(bs[j]);
    }
    PayloadApplied(cast, bs, items, m);
  }

  lemma PresenceStep(cast: Castable, m: Message, ps: seq<BlockPresence>, j: nat, item: Bytes)
    requires j < |ps| && ParsePresence(cast, item) == if cast(ps[j].cid) then Ok(ps[j]) else Err(BadCid)
    ensures ApplyMessage(cast)(m.(presences := m.presences + ps[..j]), BytesField(4, item))
            == if cast(ps[j].cid) then Ok(m.(presences := m.presences + ps[..j + 1])) else Err(BadCid)
  {
    assert m.presences + ps[..j] + [ps[j]] == m.presences + ps[..j + 1];
  }

  lemma PresencesApplied(cast: Castable, ps: seq<BlockPresence>, items: seq<Bytes>, m: Message)
    requires |items| == |ps|
    requires forall j :: 0 <= j < |ps| ==>
      ParsePresence(cast, items[j]) == if cast(ps[j].cid) then Ok(ps[j]) else Err(BadCid)
    ensures ApplyAll(ApplyMessage(cast), Repeated(4, items), m)
            == if PresencesCastable(cast, ps) then Ok(m.(presences := m.presences + ps)) else Err(BadCid)
  {
    var n := Leading(ps, (p: BlockPresence) => cast(p.cid));
    var states := (i: nat) => m.(presences := m.presences + ps[..if i <= |ps| then i else |ps|]);
    forall j | 0 <= j < n ensures ApplyMessage(cast)(states(j), BytesField(4, items[j])) == Ok(states(j + 1)) {
      PresenceStep(cast, m, ps, j, items[j]);
    }
    if n < |ps| {
      PresenceStep(cast, m, ps, n, items[n]);
    }
    ApplyRepeated(ApplyMessage(cast), 4, items, states, n, BadCid, 0);
    assert Repeated(4, items)[0..] == Repeated(4, items);
    assert m.presences + ps[..0] == m.presences && ps[..|ps|] == ps;
  }

  lemma PresencesRoundTrip(cast: Castable, ps: seq<BlockPresence>, m: Message)
    requires forall b :: b in Encoded(ps, PresenceBytes) ==> |b| <= MAX_INT
    ensures ApplyAll(ApplyMessage(cast), Repeated(4, Encoded(ps, PresenceBytes)), m)
            == if PresencesCastable(cast, ps) then Ok(m.(presences := m.presences + ps)) else Err(BadCid)
  {
    var items := Encoded(ps, PresenceBytes);
    forall j | 0 <= j < |items|
      ensures ParsePresence(cast, items[j]) == if cast(ps[j].cid) then Ok(ps[j]) else Err(BadCid)
    {
      assert items[j] in items;
      PresenceRoundTrip(cast, ps[j]);
    }
    PresencesApplied(cast, ps, items, m);
  }

  /** A marshalled message is unmarshalled to itself exactly when every CID in it can be cast;
      otherwise unmarshalling fails. */
  lemma MessageRoundTrip(cast: Castable, m: Message)
    requires |MessageBytes(m)| <= MAX_INT
    ensures ParseMessage(cast, MessageBytes(m)) == if AllCastable(cast, m) then Ok(m) else Err(BadCid)
  {
    var fs, apply := MessageFields(m), ApplyMessage(cast);
    MessageTyped(m);
    FittingWritable(MESSAGE, fs);
    FieldsRoundTrip(MESSAGE, apply, fs, NO_MESSAGE);
    var first := BytesField(1, WantlistBytes(m.wantlist));
    assert fs[0] == first && first in fs && fs[1..] == TailFields(m);
    WantlistRoundTrip(cast, m.wantlist);
    if EntriesCastable(cast, m.wantlist.entries) {
      TailApplied(cast, m);
    }
  }

  /** The fields after the wantlist. */
  function TailFields(m: Message): (fs: seq<Field>)
    ensures MessageFields(m) == [BytesField(1, WantlistBytes(m.wantlist))] + fs
  {
    Repeated(2, m.blocks)
    + (Repeated(3, Encoded(m.payload, BlockBytes))
    + (Repeated(4, Encoded(m.presences, PresenceBytes))
    + Optional(m.pendingBytes != 0, VarintField(5, SignExtend(m.pendingBytes)))))
  }

  lemma TailApplied(cast: Castable, m: Message)
    requires |MessageBytes(m)| <= MAX_INT
    ensures ApplyAll(ApplyMessage(cast), TailFields(m), NO_MESSAGE.(wantlist := m.wantlist))
            == if PresencesCastable(cast, m.presences) then Ok(m) else Err(BadCid)
  {
    var apply := ApplyMessage(cast);
    MessageParts(m);
    var last := Optional(m.pendingBytes != 0, VarintField(5, SignExtend(m.pendingBytes)));
    var ps := Repeated(4, Encoded(m.presences, PresenceBytes));
    var bs := Repeated(3, Encoded(m.payload, BlockBytes));
    var rs := Repeated(2, m.blocks);
    var m1 := NO_MESSAGE.(wantlist := m.wantlist);
    var m2 := m1.(blocks := m.blocks);
    var m3 := m2.(payload := m.payload);
    var m4 := m3.(presences := m.presences);
    BlocksApplied(cast, m.blocks, m1);
    assert m1.blocks + m.blocks == m.blocks;
    ApplyAllConcat(apply, rs, bs + (ps + last), m1);
    PayloadRoundTrip(cast, m.payload, m2);
    assert m2.payload + m.payload == m.payload;
    ApplyAllConcat(apply, bs, ps + last, m2);
    PresencesRoundTrip(cast, m.presences, m3);
    assert m3.presences + m.presences == m.presences;
    ApplyAllConcat(apply, ps, last, m3);
    assert last + [] == last;
    ApplyOptional(apply, m.pendingBytes != 0, VarintField(5, SignExtend(m.pendingBytes)), [], m4, m);
  }

  /** The parts of a message are no longer than the message. */
  lemma MessageParts(m: Message)
    requires |MessageBytes(m)| <= MAX_INT
    ensures |WantlistBytes(m.wantlist)| <= MAX_INT
    ensures forall b :: b in Encoded(m.payload, BlockBytes) ==> |b| <= MAX_INT
    ensures forall b :: b in Encoded(m.presences, PresenceBytes) ==> |b| <= MAX_INT
  {
    var fs := MessageFields(m);
    FieldNoLonger(fs, BytesField(1, WantlistBytes(m.wantlist)));
    ItemsFit(fs, 3, Encoded(m.payload, BlockBytes));
    ItemsFit(fs, 4, Encoded(m.presences, PresenceBytes));
  }
}
