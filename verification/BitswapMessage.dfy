/** The in-memory message and its protobuf form (message/message.go). */
module BitswapMessage {
  import opened Basics
  import Codec
  import Hex
  import Marshal
  import Varint

  /** Want types; the wire allows any int32. */
  const BLOCK: int32 := 0
  const HAVE: int32 := 1

  /** A wantlist entry of a message. */
  datatype Entry = Entry(want: Want, priority: int32, wantType: int32, cancel: bool, sendDontHave: bool)

  type Entries = map<Want, Entry>

  function ToPB(e: Entry): Codec.Entry {
    Codec.Entry(e.want.cid, e.priority, e.cancel, e.wantType, e.sendDontHave, Hex.Decode(e.want.auth))
  }

  function EntrySize(e: Entry): (n: nat)
    ensures n >= 2
  {
    Marshal.EntrySize(ToPB(e))
  }

  /** Adding an entry for a key that is present merges the two: cancel and send-dont-have are
      sticky, want-block beats want-have, and the priority changes only for the same want type. */
  function Merge(old_: Entry, e: Entry): Entry {
    Entry(old_.want,
          if old_.wantType == e.wantType then e.priority else old_.priority,
          if e.wantType == BLOCK && old_.wantType == HAVE then BLOCK else old_.wantType,
          old_.cancel || e.cancel,
          old_.sendDontHave || e.sendDontHave)
  }

  function WithEntry(es: Entries, e: Entry): (r: Entries) {
    es[e.want := if e.want in es then Merge(es[e.want], e) else e]
  }

  /** What `addEntry` returns: the bytes the entry adds to the message. */
  function AddedSize(es: Entries, e: Entry): nat {
    if e.want in es then 0 else EntrySize(e)
  }

  /** The content of a message. */
  datatype Content = Content(
    full: bool,
    entries: Entries,
    blocks: map<Want, Bytes>,
    presences: map<Want, int32>,
    pendingBytes: int32)

  function Empty(full: bool): Content { Content(full, map[], map[], map[], 0) }

  function WithBlock(m: Content, w: Want, data: Bytes): Content {
    m.(blocks := m.blocks[w := data], presences := m.presences - {w})
  }

  /** A presence for a key that already has its block is dropped. */
  function WithPresence(m: Content, w: Want, kind: int32): Content {
    if w in m.blocks then m else m.(presences := m.presences[w := kind])
  }

  /** What every message built with the operations below satisfies. */
  predicate Valid(m: Content) {
    && (forall w :: w in m.entries ==> m.entries[w].want == w)
    && m.blocks.Keys !! m.presences.Keys
  }

  // ---------------------------------------------------------------------------------------
  // Protobuf form
  // ---------------------------------------------------------------------------------------

  /** The parts of go-cid that decoding relies on: `Cast`, `Prefix().Bytes()`, `PrefixFromBytes`
      followed by `Sum`, and the CID of a block without one. */
  datatype CidLib = CidLib(
    castable: Bytes -> bool,
    prefix: Cid -> Bytes,
    sum: (Bytes, Bytes) -> Option<Cid>,
    v0: Bytes -> Cid)

  datatype ReadError = MissingCid | BadPrefix

  function KeyOf(cid: Cid, auth: Bytes): Want { Want(cid, Hex.Encode(auth)) }

  function EntryOf(e: Codec.Entry): Entry {
    Entry(KeyOf(e.block, e.auth), e.priority, e.wantType, e.cancel, e.sendDontHave)
  }

  function ReadEntries(es: seq<Codec.Entry>, m: Content): (r: Result<Content, ReadError>) {
    if es == [] then Ok(m)
    else if es[0].block == [] then Err(MissingCid)
    else ReadEntries(es[1..], m.(entries := WithEntry(m.entries, EntryOf(es[0]))))
  }

  /** The deprecated block list: CIDv0, no auth. */
  function ReadBlocks(lib: CidLib, bs: seq<Bytes>, m: Content): (r: Content) {
    if bs == [] then m else ReadBlocks(lib, bs[1..], WithBlock(m, Want(lib.v0(bs[0]), ""), bs[0]))
  }

  function ReadPayload(lib: CidLib, bs: seq<Codec.Block>, m: Content): (r: Result<Content, ReadError>) {
    if bs == [] then Ok(m)
    else
      match lib.sum(bs[0].prefix, bs[0].data)
      case None => Err(BadPrefix)
      case Some(c) => ReadPayload(lib, bs[1..], WithBlock(m, KeyOf(c, bs[0].auth), bs[0].data))
  }

  function ReadPresences(ps: seq<Codec.BlockPresence>, m: Content): (r: Result<Content, ReadError>) {
    if ps == [] then Ok(m)
    else if ps[0].cid == [] then Err(MissingCid)
    else ReadPresences(ps[1..], WithPresence(m, KeyOf(ps[0].cid, ps[0].auth), ps[0].kind))
  }

  /** `newMessageFromProto`. */
  function FromProto(lib: CidLib, pb: Codec.Message): (r: Result<Content, ReadError>) {
    var m1 :- ReadEntries(pb.wantlist.entries, Empty(pb.wantlist.full));
    var m2 := ReadBlocks(lib, pb.blocks, m1);
    var m3 :- ReadPayload(lib, pb.payload, m2);
    var m4 :- ReadPresences(pb.presences, m3);
    Ok(m4.(pendingBytes := pb.pendingBytes))
  }

  /** `ks` lists the keys of `m`, each once: an order in which Go may range over the map. */
  predicate Lists<K, V>(ks: seq<K>, m: map<K, V>) {
    && (forall k :: k in m ==> k in ks)
    && (forall k :: k in ks ==> k in m)
    && (forall i, j :: 0 <= i < j < |ks| ==> ks[i] != ks[j])
  }

  function EntriesPB(ks: seq<Want>, es: Entries): (r: seq<Codec.Entry>)
    requires forall k :: k in ks ==> k in es
    ensures |r| == |ks|
  {
    seq(|ks|, i requires 0 <= i < |ks| => ToPB(es[ks[i]]))
  }

  function PayloadPB(lib: CidLib, ks: seq<Want>, bs: map<Want, Bytes>): (r: seq<Codec.Block>)
    requires forall k :: k in ks ==> k in bs
    ensures |r| == |ks|
  {
    seq(|ks|, i requires 0 <= i < |ks| => Codec.Block(lib.prefix(ks[i].cid), bs[ks[i]], Hex.Decode(ks[i].auth)))
  }

  function PresencesPB(ks: seq<Want>, ps: map<Want, int32>): (r: seq<Codec.BlockPresence>)
    requires forall k :: k in ks ==> k in ps
    ensures |r| == |ks|
  {
    seq(|ks|, i requires 0 <= i < |ks| => Codec.BlockPresence(ks[i].cid, ps[ks[i]], Hex.Decode(ks[i].auth)))
  }

  /** The orders in which `ToProtoV1` ranges over the three maps. */
  datatype Orders = Orders(entries: seq<Want>, blocks: seq<Want>, presences: seq<Want>)

  predicate ListsAll(o: Orders, m: Content) {
    Lists(o.entries, m.entries) && Lists(o.blocks, m.blocks) && Lists(o.presences, m.presences)
  }

  /** `ToProtoV1`. */
  function ToProto(lib: CidLib, m: Content, o: Orders): Codec.Message
    requires ListsAll(o, m)
  {
    Codec.Message(
      Codec.Wantlist(EntriesPB(o.entries, m.entries), m.full),
      [],
      PayloadPB(lib, o.blocks, m.blocks),
      PresencesPB(o.presences, m.presences),
      m.pendingBytes)
  }

  // ---------------------------------------------------------------------------------------
  // Round trip
  // ---------------------------------------------------------------------------------------

  /** A key whose CID is defined and whose auth is lower-case hex of even length. */
  predicate Sendable(w: Want) { w.cid != [] && Hex.Canonical(w.auth) }

  predicate Faithful(lib: CidLib, m: Content) {
    && (forall w :: w in m.entries ==> Sendable(w))
    && (forall w :: w in m.presences ==> Sendable(w))
    && (forall w :: w in m.blocks ==>
          Hex.Canonical(w.auth) && lib.sum(lib.prefix(w.cid), m.blocks[w]) == Some(w.cid))
  }

  function Restrict<K, V>(m: map<K, V>, ks: seq<K>): map<K, V>
    requires forall k :: k in ks ==> k in m
  {
    map k | k in ks :: m[k]
  }

  lemma KeyOfDecoded(w: Want)
    ensures KeyOf(w.cid, Hex.Decode(w.auth)) == w <==> Hex.Canonical(w.auth)
  {
    Hex.EncodeDecode(w.auth);
  }

  lemma RestrictStep<K, V>(acc: map<K, V>, m: map<K, V>, ks: seq<K>)
    requires ks != [] && forall k :: k in ks ==> k in m
    ensures acc[ks[0] := m[ks[0]]] + Restrict(m, ks[1..]) == acc + Restrict(m, ks)
  {
    assert forall k :: k in ks <==> k == ks[0] || k in ks[1..];
  }

  lemma RestrictAll<K, V>(m: map<K, V>, ks: seq<K>)
    requires Lists(ks, m)
    ensures map[] + Restrict(m, ks) == m
  {
  }

  lemma EntryBack(e: Entry)
    requires Hex.Canonical(e.want.auth)
    ensures EntryOf(ToPB(e)) == e
  {
    KeyOfDecoded(e.want);
  }

  /** Entry `i` of the list is read when the entries before it have been. */
  lemma {:induction false} EntriesReadBack(ks: seq<Want>, es: Entries, m: Content)
    requires forall k :: k in ks ==> k in es && es[k].want == k && Sendable(k) && k !in m.entries
    requires forall i, j :: 0 <= i < j < |ks| ==> ks[i] != ks[j]
    ensures ReadEntries(EntriesPB(ks, es), m) == Ok(m.(entries := m.entries + Restrict(es, ks)))
    decreases |ks|
  {
    if ks == [] {
      assert m.entries + Restrict(es, ks) == m.entries;
    } else {
      var k, rest := ks[0], ks[1..];
      EntryBack(es[k]);
      var pbs := EntriesPB(ks, es);
      assert pbs[0] == ToPB(es[k]) && pbs[1..] == EntriesPB(rest, es);
      RestrictStep(m.entries, es, ks);
      EntriesReadBack(rest, es, m.(entries := m.entries[k := es[k]]));
    }
  }

  lemma {:induction false} PayloadReadBack(lib: CidLib, ks: seq<Want>, bs: map<Want, Bytes>, m: Content)
    requires forall k :: k in ks ==>
             k in bs && Hex.Canonical(k.auth) && lib.sum(lib.prefix(k.cid), bs[k]) == Some(k.cid)
    requires m.presences == map[]
    ensures ReadPayload(lib, PayloadPB(lib, ks, bs), m) == Ok(m.(blocks := m.blocks + Restrict(bs, ks)))
    decreases |ks|
  {
    if ks == [] {
      assert m.blocks + Restrict(bs, ks) == m.blocks;
    } else {
      var k, rest := ks[0], ks[1..];
      KeyOfDecoded(k);
      var next := m.(blocks := m.blocks[k := bs[k]]);
      assert WithBlock(m, k, bs[k]) == next;
      var pbs := PayloadPB(lib, ks, bs);
      assert pbs[0].auth == Hex.Decode(k.auth) && pbs[1..] == PayloadPB(lib, rest, bs);
      RestrictStep(m.blocks, bs, ks);
      PayloadReadBack(lib, rest, bs, next);
    }
  }

  lemma {:induction false} PresencesReadBack(ks: seq<Want>, ps: map<Want, int32>, m: Content)
    requires forall k :: k in ks ==> k in ps && Sendable(k) && k !in m.blocks
    ensures ReadPresences(PresencesPB(ks, ps), m) == Ok(m.(presences := m.presences + Restrict(ps, ks)))
    decreases |ks|
  {
    if ks == [] {
      assert m.presences + Restrict(ps, ks) == m.presences;
    } else {
      var k, rest := ks[0], ks[1..];
      KeyOfDecoded(k);
      var pbs := PresencesPB(ks, ps);
      assert pbs[0].auth == Hex.Decode(k.auth) && pbs[1..] == PresencesPB(rest, ps);
      RestrictStep(m.presences, ps, ks);
      PresencesReadBack(rest, ps, m.(presences := m.presences[k := ps[k]]));
    }
  }

  lemma ReadBackWhenFaithful(lib: CidLib, m: Content, o: Orders)
    requires Valid(m) && ListsAll(o, m) && Faithful(lib, m)
    ensures FromProto(lib, ToProto(lib, m, o)) == Ok(m)
  {
    var m0 := Empty(m.full);
    var m1 := m0.(entries := m.entries);
    var m2 := m1.(blocks := m.blocks);
    RestrictAll(m.entries, o.entries);
    EntriesReadBack(o.entries, m.entries, m0);
    RestrictAll(m.blocks, o.blocks);
    PayloadReadBack(lib, o.blocks, m.blocks, m1);
    RestrictAll(m.presences, o.presences);
    PresencesReadBack(o.presences, m.presences, m2);
  }

  /** A CID computed from a prefix has that prefix. */
  ghost predicate SumKeepsPrefix(lib: CidLib) {
    forall p: Bytes, d: Bytes :: lib.sum(p, d).Some? ==> lib.prefix(lib.sum(p, d).value) == p
  }

  lemma {:induction false} EntriesProvenance(es: seq<Codec.Entry>, m: Content)
    requires ReadEntries(es, m).Ok?
    ensures var r := ReadEntries(es, m).value;
            (forall w :: w in r.entries ==> w in m.entries || Sendable(w)) && r == m.(entries := r.entries)
    decreases |es|
  {
    if es != [] {
      Hex.DecodeEncode(es[0].auth);
      EntriesProvenance(es[1..], m.(entries := WithEntry(m.entries, EntryOf(es[0]))));
    }
  }

  predicate WrittenBy(lib: CidLib, bs: seq<Codec.Block>, w: Want, data: Bytes) {
    Hex.Canonical(w.auth) && exists b :: b in bs && b.data == data && lib.sum(b.prefix, data) == Some(w.cid)
  }

  lemma {:induction false} PayloadProvenance(lib: CidLib, bs: seq<Codec.Block>, m: Content)
    requires ReadPayload(lib, bs, m).Ok?
    ensures var r := ReadPayload(lib, bs, m).value;
            forall w :: w in r.blocks ==>
              (w in m.blocks && r.blocks[w] == m.blocks[w]) || WrittenBy(lib, bs, w, r.blocks[w])
    ensures var r := ReadPayload(lib, bs, m).value; r.entries == m.entries && r.presences.Keys <= m.presences.Keys
    decreases |bs|
  {
    if bs != [] {
      var b, c := bs[0], lib.sum(bs[0].prefix, bs[0].data).value;
      var next := WithBlock(m, KeyOf(c, b.auth), b.data);
      Hex.DecodeEncode(b.auth);
      PayloadProvenance(lib, bs[1..], next);
      var r := ReadPayload(lib, bs, m).value;
      forall w | w in r.blocks && !(w in m.blocks && r.blocks[w] == m.blocks[w])
        ensures WrittenBy(lib, bs, w, r.blocks[w])
      {
        if WrittenBy(lib, bs[1..], w, r.blocks[w]) {
          var b' :| b' in bs[1..] && b'.data == r.blocks[w] && lib.sum(b'.prefix, b'.data) == Some(w.cid);
          assert b' in bs;
        } else {
          assert b in bs && r.blocks[w] == b.data;
        }
      }
    }
  }

  lemma {:induction false} PresencesProvenance(ps: seq<Codec.BlockPresence>, m: Content)
    requires ReadPresences(ps, m).Ok?
    ensures var r := ReadPresences(ps, m).value;
            (forall w :: w in r.presences ==> w in m.presences || Sendable(w)) && r == m.(presences := r.presences)
    decreases |ps|
  {
    if ps != [] {
      Hex.DecodeEncode(ps[0].auth);
      PresencesProvenance(ps[1..], WithPresence(m, KeyOf(ps[0].cid, ps[0].auth), ps[0].kind));
    }
  }

  lemma FaithfulWhenReadBack(lib: CidLib, m: Content, o: Orders)
    requires SumKeepsPrefix(lib) && ListsAll(o, m) && FromProto(lib, ToProto(lib, m, o)) == Ok(m)
    ensures Faithful(lib, m)
  {
    var pb := ToProto(lib, m, o);
    EntriesProvenance(pb.wantlist.entries, Empty(m.full));
    var m1 := ReadEntries(pb.wantlist.entries, Empty(m.full)).value;
    PayloadProvenance(lib, pb.payload, m1);
    var m3 := ReadPayload(lib, pb.payload, m1).value;
    PresencesProvenance(pb.presences, m3);
    forall w | w in m.blocks
      ensures Hex.Canonical(w.auth) && lib.sum(lib.prefix(w.cid), m.blocks[w]) == Some(w.cid)
    {
      assert WrittenBy(lib, pb.payload, w, m.blocks[w]);
      var b :| b in pb.payload && b.data == m.blocks[w] && lib.sum(b.prefix, b.data) == Some(w.cid);
      assert lib.prefix(w.cid) == b.prefix;
    }
  }

  /** In whatever order the maps are written, a message is read back as it was exactly when its
      keys can be written (CIDs defined, auths lower-case hex of even length) and every block
      hashes to the CID it is stored under. */
  lemma ReadBackExactly(lib: CidLib, m: Content, o: Orders)
    requires SumKeepsPrefix(lib) && Valid(m) && ListsAll(o, m)
    ensures FromProto(lib, ToProto(lib, m, o)) == Ok(m) <==> Faithful(lib, m)
  {
    if Faithful(lib, m) {
      ReadBackWhenFaithful(lib, m, o);
    }
    if FromProto(lib, ToProto(lib, m, o)) == Ok(m) {
      FaithfulWhenReadBack(lib, m, o);
    }
  }

  /** The whole way: to protobuf, to bytes, and back. */
  lemma OverTheWire(lib: CidLib, m: Content, o: Orders)
    requires Valid(m) && ListsAll(o, m) && Faithful(lib, m)
    requires forall w :: w in m.entries || w in m.presences ==> lib.castable(w.cid)
    requires |Codec.MessageBytes(ToProto(lib, m, o))| <= MAX_INT
    ensures var r := Codec.ParseMessage(lib.castable, Codec.MessageBytes(ToProto(lib, m, o)));
            r.Ok? && FromProto(lib, r.value) == Ok(m)
  {
    var pb := ToProto(lib, m, o);
    assert Codec.AllCastable(lib.castable, pb) by {
      assert forall i :: 0 <= i < |o.entries| ==> o.entries[i] in o.entries;
      assert forall i :: 0 <= i < |o.presences| ==> o.presences[i] in o.presences;
      assert forall i :: 0 <= i < |o.entries| ==> pb.wantlist.entries[i].block == m.entries[o.entries[i]].want.cid;
    }
    Codec.MessageRoundTrip(lib.castable, pb);
    ReadBackWhenFaithful(lib, m, o);
  }

  // ---------------------------------------------------------------------------------------
  // The message object
  // ---------------------------------------------------------------------------------------

  /** Go ranges over a map in any order. */
  method KeysOf<K(==), V>(m: map<K, V>) returns (ks: seq<K>)
    ensures Lists(ks, m)
  {
    ks := [];
    var todo := m.Keys;
    while todo != {}
      invariant todo <= m.Keys
      invariant forall k :: k in m ==> k in todo || k in ks
      invariant forall k :: k in ks ==> k in m && k !in todo
      invariant forall i, j :: 0 <= i < j < |ks| ==> ks[i] != ks[j]
      decreases todo
    {
      var k :| k in todo;
      ks, todo := ks + [k], todo - {k};
    }
  }

  /** `impl`. The raw data of a block is kept beside it and is what goes on the wire; `Reset`
      leaves old raw data behind. */
  class Message {
    var full: bool
    var wantlist: Entries
    var blocks: map<Want, Bytes>
    var rawData: map<Want, Bytes>
    var blockPresences: map<Want, int32>
    var pendingBytes: int32

    ghost function Value(): Content
      reads this
    {
      Content(full, wantlist, blocks, blockPresences, pendingBytes)
    }

    ghost predicate Consistent()
      reads this
    {
      Valid(Value()) && forall w :: w in blocks ==> w in rawData && rawData[w] == blocks[w]
    }

    constructor (full: bool)
      ensures Consistent() && Value() == Empty(full)
    {
      this.full := full;
      wantlist, blocks, rawData, blockPresences, pendingBytes := map[], map[], map[], map[], 0;
    }

    method Reset(full: bool)
      requires Consistent()
      modifies this
      ensures Consistent() && Value() == Empty(full)
    {
      this.full := full;
      wantlist, blocks, blockPresences, pendingBytes := map[], map[], map[], 0;
    }

    method AddEntry(w: Want, priority: int32, cancel: bool, wantType: int32, sendDontHave: bool) returns (size: nat)
      requires Consistent()
      modifies this`wantlist
      ensures Consistent()
      ensures var e := Entry(w, priority, wantType, cancel, sendDontHave);
              wantlist == WithEntry(old(wantlist), e) && size == AddedSize(old(wantlist), e)
    {
      if w in wantlist {
        var e := wantlist[w];
        if e.wantType == wantType { e := e.(priority := priority); }
        if cancel { e := e.(cancel := true); }
        if sendDontHave { e := e.(sendDontHave := true); }
        if wantType == BLOCK && e.wantType == HAVE { e := e.(wantType := BLOCK); }
        wantlist := wantlist[w := e];
        return 0;
      }
      var e := Entry(w, priority, wantType, cancel, sendDontHave);
      wantlist := wantlist[w := e];
      size := EntrySize(e);
    }

    method Remove(w: Want)
      requires Consistent()
      modifies this`wantlist
      ensures Consistent() && wantlist == old(wantlist) - {w}
    {
      wantlist := wantlist - {w};
    }

    method AddBlock(w: Want, data: Bytes)
      requires Consistent()
      modifies this
      ensures Consistent() && Value() == WithBlock(old(Value()), w, data)
    {
      blockPresences := blockPresences - {w};
      blocks := blocks[w := data];
      rawData := rawData[w := data];
    }

    method AddBlockPresence(w: Want, kind: int32)
      requires Consistent()
      modifies this`blockPresences
      ensures Consistent() && Value() == WithPresence(old(Value()), w, kind)
    {
      if w in blocks { return; }
      blockPresences := blockPresences[w := kind];
    }

    method SetPendingBytes(n: int32)
      requires Consistent()
      modifies this`pendingBytes
      ensures Consistent() && pendingBytes == n
    {
      pendingBytes := n;
    }

    /** The blocks are written from the raw data kept beside them. */
    method ToProtoV1(lib: CidLib) returns (pb: Codec.Message, ghost o: Orders)
      requires Consistent()
      ensures ListsAll(o, Value()) && pb == ToProto(lib, Value(), o)
    {
      var ks := KeysOf(wantlist);
      var entries := [];
      for i := 0 to |ks|
        invariant entries == EntriesPB(ks[..i], wantlist)
      {
        entries := entries + [ToPB(wantlist[ks[i]])];
      }
      var bs := KeysOf(blocks);
      var payload := [];
      for i := 0 to |bs|
        invariant payload == PayloadPB(lib, bs[..i], blocks)
      {
        payload := payload + [Codec.Block(lib.prefix(bs[i].cid), rawData[bs[i]], Hex.Decode(bs[i].auth))];
      }
      var ps := KeysOf(blockPresences);
      var presences := [];
      for i := 0 to |ps|
        invariant presences == PresencesPB(ps[..i], blockPresences)
      {
        presences := presences + [Codec.BlockPresence(ps[i].cid, blockPresences[ps[i]], Hex.Decode(ps[i].auth))];
      }
      o := Orders(ks, bs, ps);
      assert ks[..|ks|] == ks && bs[..|bs|] == bs && ps[..|ps|] == ps;
      pb := Codec.Message(Codec.Wantlist(entries, full), [], payload, presences, pendingBytes);
    }
  }

  /** `newMessageFromProto`. */
  method NewMessageFromProto(lib: CidLib, pb: Codec.Message) returns (m: Message, err: Option<ReadError>)
    ensures fresh(m) && m.Consistent()
    ensures match FromProto(lib, pb)
            case Ok(c) => err == None && m.Value() == c
            case Err(e) => err == Some(e)
  {
    m := new Message(pb.wantlist.full);
    err := ReadEntriesInto(m, pb.wantlist.entries);
    if err.Some? { return; }
    ReadBlocksInto(m, lib, pb.blocks);
    err := ReadPayloadInto(m, lib, pb.payload);
    if err.Some? { return; }
    err := ReadPresencesInto(m, pb.presences);
    if err.Some? { return; }
    m.SetPendingBytes(pb.pendingBytes);
  }

  method ReadEntriesInto(m: Message, es: seq<Codec.Entry>) returns (err: Option<ReadError>)
    requires m.Consistent()
    modifies m
    ensures m.Consistent()
    ensures match ReadEntries(es, old(m.Value()))
            case Ok(c) => err == None && m.Value() == c
            case Err(e) => err == Some(e)
  {
    for i := 0 to |es|
      invariant m.Consistent() && ReadEntries(es[i..], m.Value()) == ReadEntries(es, old(m.Value()))
    {
      assert es[i..][1..] == es[i + 1..];
      var e := es[i];
      if e.block == [] { return Some(MissingCid); }
      var _ := m.AddEntry(KeyOf(e.block, e.auth), e.priority, e.cancel, e.wantType, e.sendDontHave);
    }
    err := None;
  }

  method ReadBlocksInto(m: Message, lib: CidLib, bs: seq<Bytes>)
    requires m.Consistent()
    modifies m
    ensures m.Consistent() && m.Value() == ReadBlocks(lib, bs, old(m.Value()))
  {
    for i := 0 to |bs|
      invariant m.Consistent() && ReadBlocks(lib, bs[i..], m.Value()) == ReadBlocks(lib, bs, old(m.Value()))
    {
      assert bs[i..][1..] == bs[i + 1..];
      m.AddBlock(Want(lib.v0(bs[i]), ""), bs[i]);
    }
  }

  method ReadPayloadInto(m: Message, lib: CidLib, bs: seq<Codec.Block>) returns (err: Option<ReadError>)
    requires m.Consistent()
    modifies m
    ensures m.Consistent()
    ensures match ReadPayload(lib, bs, old(m.Value()))
            case Ok(c) => err == None && m.Value() == c
            case Err(e) => err == Some(e)
  {
    for i := 0 to |bs|
      invariant m.Consistent() && ReadPayload(lib, bs[i..], m.Value()) == ReadPayload(lib, bs, old(m.Value()))
    {
      assert bs[i..][1..] == bs[i + 1..];
      var c := lib.sum(bs[i].prefix, bs[i].data);
      if c.None? { return Some(BadPrefix); }
      m.AddBlock(KeyOf(c.value, bs[i].auth), bs[i].data);
    }
    err := None;
  }

  method ReadPresencesInto(m: Message, ps: seq<Codec.BlockPresence>) returns (err: Option<ReadError>)
    requires m.Consistent()
    modifies m
    ensures m.Consistent()
    ensures match ReadPresences(ps, old(m.Value()))
            case Ok(c) => err == None && m.Value() == c
            case Err(e) => err == Some(e)
  {
    for i := 0 to |ps|
      invariant m.Consistent() && ReadPresences(ps[i..], m.Value()) == ReadPresences(ps, old(m.Value()))
    {
      assert ps[i..][1..] == ps[i + 1..];
      if ps[i].cid == [] { return Some(MissingCid); }
      m.AddBlockPresence(KeyOf(ps[i].cid, ps[i].auth), ps[i].kind);
    }
    err := None;
  }
}
