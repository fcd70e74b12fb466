/** The queue of wants and cancels for one peer (internal/messagequeue/messagequeue.go): what is
    pending, what has been sent, which cancels are queued, and the messages cut from them. */
module MessageQueue {
  import opened Basics
  import opened BitswapMessage
  import Hex
  import Varint
  import opened Wantlists

  const MAX_PRIORITY: int32 := 0x7fff_ffff
  const MAX_MESSAGE_SIZE := 1024 * 1024 * 2

  /** `MaxEntrySize`: an entry with a CIDv0, a 60-byte auth, the largest priority and all flags. */
  const MAX_ENTRY_SIZE := 110

  /** Entries are no larger than MaxEntrySize if their CID has at most the 34 bytes of a CIDv0, their
      auth at most 60 bytes, and their priority has not wrapped around. */
  lemma MaxEntrySize(e: Entry)
    requires |e.want.cid| <= 34 && |Hex.Decode(e.want.auth)| <= 60 && 0 <= e.priority
    requires e.wantType == BLOCK || e.wantType == HAVE
    ensures EntrySize(e) <= MAX_ENTRY_SIZE
  {
    Varint.SizeOfVarintExact(|e.want.cid|);
    Varint.SmallVarint(|e.want.cid|);
    Varint.SizeOfVarintExact(e.priority);
    Varint.SmallVarint(e.priority);
    Varint.SizeOfVarintExact(e.wantType);
    Varint.SmallVarint(e.wantType);
    Varint.SizeOfVarintExact(|Hex.Decode(e.want.auth)|);
    Varint.SmallVarint(|Hex.Decode(e.want.auth)|);
  }

  datatype Recall = Recall(pending: Wantlist, sent: Wantlist, sentAt: map<Want, int>)

  datatype Queue = Queue(bcst: Recall, peer: Recall, cancels: set<Want>, priority: int32)

  const NO_RECALL := Recall(map[], map[], map[])
  const NEW := Queue(NO_RECALL, NO_RECALL, {}, MAX_PRIORITY)

  function SentKeys(q: Queue): set<Want> { q.bcst.sent.Keys + q.peer.sent.Keys }

  function PendingKeys(q: Queue): set<Want> { q.bcst.pending.Keys + q.peer.pending.Keys }

  /** `pendingWorkCount`. */
  function Work(q: Queue): nat { |q.bcst.pending| + |q.peer.pending| + |q.cancels| }

  /** A queued cancel is for a key that is neither pending nor recorded as sent, and send times
      are kept for sent keys only. */
  predicate Tidy(q: Queue) {
    && q.cancels !! PendingKeys(q)
    && q.cancels !! SentKeys(q)
    && q.bcst.sentAt.Keys <= q.bcst.sent.Keys
    && q.peer.sentAt.Keys <= q.peer.sent.Keys
    && KnownTypes(q.peer.pending) && KnownTypes(q.peer.sent)
  }

  predicate KnownTypes(wl: Wantlist) {
    forall w :: w in wl ==> wl[w].wantType == BLOCK || wl[w].wantType == HAVE
  }

  // ---------------------------------------------------------------------------------------
  // The calls
  // ---------------------------------------------------------------------------------------

  datatype Target = Broadcast | Peer

  /** `int32` decrement wraps around. */
  function Lower(p: int32): int32 { AsInt32(p - 1) }

  function AddWant(q: Queue, to: Target, w: Want, wantType: int32): Queue {
    var q' := q.(cancels := q.cancels - {w}, priority := Lower(q.priority));
    match to
    case Broadcast => q'.(bcst := q.bcst.(pending := Add(q.bcst.pending, w, q.priority, wantType)))
    case Peer => q'.(peer := q.peer.(pending := Add(q.peer.pending, w, q.priority, wantType)))
  }

  function AddAll(q: Queue, to: Target, ws: seq<Want>, wantType: int32): Queue
    decreases |ws|
  {
    if ws == [] then q else AddAll(AddWant(q, to, ws[0], wantType), to, ws[1..], wantType)
  }

  function AddBroadcastWantHaves(q: Queue, ws: seq<Want>): Queue { AddAll(q, Broadcast, ws, HAVE) }

  function AddWants(q: Queue, blocks: seq<Want>, haves: seq<Want>): Queue {
    AddAll(AddAll(q, Peer, haves, HAVE), Peer, blocks, BLOCK)
  }

  function Forget(r: Recall, ks: set<Want>): Recall {
    Recall(r.pending - ks, r.sent - ks, r.sentAt - ks)
  }

  function Set(ws: seq<Want>): set<Want> { set w | w in ws }

  /** The keys are forgotten; those that were sent get a cancel. */
  function AddCancels(q: Queue, ws: seq<Want>): Queue {
    q.(bcst := Forget(q.bcst, Set(ws)),
       peer := Forget(q.peer, Set(ws)),
       cancels := q.cancels + Set(ws) * SentKeys(q))
  }

  function TransferRebroadcastWants(q: Queue): Queue {
    q.(bcst := q.bcst.(pending := Absorb(q.bcst.pending, q.bcst.sent)),
       peer := q.peer.(pending := Absorb(q.peer.pending, q.peer.sent)))
  }

  /** `SentAt`: the first time is kept, and only for keys that are still sent. */
  function StampSent(r: Recall, ws: set<Want>, now: int): Recall {
    r.(sentAt := map w | w in r.sentAt.Keys + ws * r.sent.Keys :: if w in r.sentAt then r.sentAt[w] else now)
  }

  // ---------------------------------------------------------------------------------------
  // Extraction, in the two sections that hold the lock
  // ---------------------------------------------------------------------------------------

  /** Pending want-haves of the peer, which are dropped if it does not support HAVE. */
  function Unsupported(q: Queue): set<Want> {
    set w | w in q.peer.pending && q.peer.pending[w].wantType == HAVE
  }

  /** Keys recorded as sent that the dropping of want-haves makes the queue forget. */
  function Dropped(q: Queue, supportsHave: bool): set<Want> {
    if supportsHave then {}
    else set w | w in q.peer.sent && w in Unsupported(q) && q.peer.sent[w].wantType != BLOCK
  }

  function DropHaves(q: Queue, supportsHave: bool): Queue {
    if supportsHave then q
    else
      var sent := q.peer.sent - Dropped(q, false);
      var stamps := q.peer.sentAt - (Unsupported(q) - sent.Keys);
      q.(peer := Recall(q.peer.pending - Unsupported(q), sent, stamps))
  }

  /** The orders in which the cancels and the two pending lists are visited. */
  datatype Visit = Visit(cancels: seq<Want>, peer: seq<Want>, bcst: seq<Want>)

  predicate Visits(q: Queue, v: Visit) {
    && q.cancels == Set(v.cancels)
    && (forall i, j :: 0 <= i < j < |v.cancels| ==> v.cancels[i] != v.cancels[j])
    && Lists(v.peer, q.peer.pending)
    && Lists(v.bcst, q.bcst.pending)
  }

  function CancelEntries(ws: seq<Want>): (es: seq<Entry>)
    ensures |es| == |ws| && forall i :: 0 <= i < |ws| ==> es[i] == Entry(ws[i], 0, BLOCK, true, false)
  {
    seq(|ws|, i requires 0 <= i < |ws| => Entry(ws[i], 0, BLOCK, true, false))
  }

  function PeerEntries(es: seq<Listed>): (r: seq<Entry>)
    ensures |r| == |es|
    ensures forall i :: 0 <= i < |es| ==>
            r[i] == Entry(es[i].want, es[i].item.priority, es[i].item.wantType, false, true)
  {
    seq(|es|, i requires 0 <= i < |es| => Entry(es[i].want, es[i].item.priority, es[i].item.wantType, false, true))
  }

  /** Broadcast wants go out as want-have, or as want-block to a peer without HAVE support. */
  function BroadcastEntries(es: seq<Listed>, supportsHave: bool): (r: seq<Entry>)
    ensures |r| == |es|
    ensures forall i :: 0 <= i < |es| ==>
      r[i] == Entry(es[i].want, es[i].item.priority, if supportsHave then HAVE else BLOCK, false, false)
  {
    seq(|es|, i requires 0 <= i < |es| =>
      Entry(es[i].want, es[i].item.priority, if supportsHave then HAVE else BLOCK, false, false))
  }

  /** Everything there is to send, in the order in which it is added to the message. */
  function Agenda(q: Queue, v: Visit, supportsHave: bool): (es: seq<Entry>)
    requires Visits(q, v)
    ensures |es| == |v.cancels| + |v.peer| + |v.bcst|
  {
    CancelEntries(v.cancels) + PeerEntries(List(q.peer.pending, v.peer))
    + BroadcastEntries(List(q.bcst.pending, v.bcst), supportsHave)
  }

  /** The size at which a message is full, and the size of an entry in it. */
  datatype Limits = Limits(max: int, size: Entry -> nat)

  const LIMITS := Limits(MAX_MESSAGE_SIZE, EntrySize)

  /** A message in the making: its entries, their number and their size. */
  datatype Load = Load(entries: Entries, count: nat, size: nat)

  /** Adds entries until the size reaches the limit. At least one is added. */
  function Fill(agenda: seq<Entry>, load: Load, limits: Limits): (r: Load)
    decreases |agenda|
  {
    if agenda == [] then load
    else
      var next := Loaded(load, agenda[0], limits);
      if next.size >= limits.max then next else Fill(agenda[1..], next, limits)
  }

  function Loaded(load: Load, e: Entry, limits: Limits): Load {
    Load(WithEntry(load.entries, e), load.count + 1, load.size + if e.want in load.entries then 0 else limits.size(e))
  }

  const NO_LOAD := Load(map[], 0, 0)

  /** What the first section leaves for the second: the message and the entries it was made of. */
  datatype Draft = Draft(entries: Entries, cancels: seq<Want>, peer: seq<Listed>, bcst: seq<Listed>)

  function Min(a: nat, b: nat): nat { if a <= b then a else b }

  function MakeDraft(q: Queue, v: Visit, supportsHave: bool, limits: Limits): (d: Draft)
    requires Visits(q, v)
  {
    var load := Fill(Agenda(q, v, supportsHave), NO_LOAD, limits);
    var nc := Min(load.count, |v.cancels|);
    var np := Min(load.count - nc, |v.peer|);
    var nb := Min(load.count - nc - np, |v.bcst|);
    Draft(load.entries, v.cancels[..nc], List(q.peer.pending, v.peer)[..np], List(q.bcst.pending, v.bcst)[..nb])
  }

  datatype Marked = Marked(list: Recall, entries: Entries)

  /** `MarkSent` for each entry; one that is no longer pending as it was is taken out of the
      message. */
  function MarkAll(r: Recall, es: seq<Listed>, entries: Entries): Marked
    decreases |es|
  {
    if es == [] then Marked(r, entries)
    else
      var e := es[0];
      if Removable(r.pending, e.want, e.item.wantType) then
        var sent := Add(r.sent, e.want, e.item.priority, e.item.wantType);
        MarkAll(r.(pending := r.pending - {e.want}, sent := sent), es[1..], entries)
      else
        MarkAll(r, es[1..], entries - {e.want})
  }

  datatype Extracted = Extracted(queue: Queue, entries: Entries)

  /** The second section. Cancels that were withdrawn meanwhile are taken out of the message. */
  function Commit(q: Queue, d: Draft): Extracted {
    var peer := MarkAll(q.peer, d.peer, d.entries);
    var bcst := MarkAll(q.bcst, d.bcst, peer.entries);
    Extracted(q.(peer := peer.list, bcst := bcst.list, cancels := q.cancels - Set(d.cancels)),
              bcst.entries - (Set(d.cancels) - q.cancels))
  }

  /** Both sections with nothing in between. */
  function Extract(q: Queue, v: Visit, supportsHave: bool, limits: Limits): Extracted
    requires Visits(DropHaves(q, supportsHave), v)
  {
    var q' := DropHaves(q, supportsHave);
    Commit(q', MakeDraft(q', v, supportsHave, limits))
  }

  // ---------------------------------------------------------------------------------------
  // What a message holds
  // ---------------------------------------------------------------------------------------

  function WithAll(es: Entries, agenda: seq<Entry>): Entries
    decreases |agenda|
  {
    if agenda == [] then es else WithAll(WithEntry(es, agenda[0]), agenda[1..])
  }

  /** The message is made of the first entries of the agenda, at least one if there is any. */
  lemma {:induction false} FillTakesPrefix(agenda: seq<Entry>, load: Load, limits: Limits)
    ensures var r := Fill(agenda, load, limits);
            var n := r.count - load.count;
            0 <= n <= |agenda| && (agenda != [] ==> n > 0) && r.entries == WithAll(load.entries, agenda[..n])
    decreases |agenda|
  {
    if agenda != [] {
      var next := Loaded(load, agenda[0], limits);
      if next.size >= limits.max {
        assert agenda[..1][1..] == [];
      } else {
        FillTakesPrefix(agenda[1..], next, limits);
        var n := Fill(agenda, load, limits).count - load.count;
        assert agenda[..n][1..] == agenda[1..][..n - 1];
      }
    }
  }

  predicate TwoTypes(e: Entry) { e.wantType == BLOCK || e.wantType == HAVE }

  /** What is in the message stays in it, and cancels and want-blocks are not lost in merging. */
  lemma {:induction false} WithAllKeeps(es: Entries, agenda: seq<Entry>, w: Want)
    requires w in es && TwoTypes(es[w]) && forall e :: e in agenda ==> TwoTypes(e)
    ensures var r := WithAll(es, agenda);
            w in r && TwoTypes(r[w]) && (es[w].cancel ==> r[w].cancel) &&
            (es[w].wantType == BLOCK ==> r[w].wantType == BLOCK)
    decreases |agenda|
  {
    if agenda != [] {
      assert agenda[0] in agenda && forall e :: e in agenda[1..] ==> e in agenda;
      WithAllKeeps(WithEntry(es, agenda[0]), agenda[1..], w);
    }
  }

  /** So does every entry that is added. */
  lemma {:induction false} WithAllTakes(es: Entries, agenda: seq<Entry>, e: Entry)
    requires (forall w :: w in es ==> TwoTypes(es[w])) && (forall x :: x in agenda ==> TwoTypes(x)) && e in agenda
    ensures var r := WithAll(es, agenda);
            e.want in r && (e.cancel ==> r[e.want].cancel) && (e.wantType == BLOCK ==> r[e.want].wantType == BLOCK)
    decreases |agenda|
  {
    var next := WithEntry(es, agenda[0]);
    assert agenda[0] in agenda && forall x :: x in agenda[1..] ==> x in agenda;
    assert forall w :: w in next ==> TwoTypes(next[w]);
    if e == agenda[0] {
      WithAllKeeps(next, agenda[1..], e.want);
    } else {
      assert agenda == [agenda[0]] + agenda[1..];
      WithAllTakes(next, agenda[1..], e);
    }
  }

  /** And nothing else is in the message. */
  lemma {:induction false} WithAllComes(es: Entries, agenda: seq<Entry>, w: Want)
    requires w in WithAll(es, agenda)
    ensures w in es || exists e :: e in agenda && e.want == w
    ensures WithAll(es, agenda)[w].cancel ==>
            (w in es && es[w].cancel) || exists e :: e in agenda && e.want == w && e.cancel
    decreases |agenda|
  {
    if agenda != [] {
      var e, next := agenda[0], WithEntry(es, agenda[0]);
      assert e in agenda && forall x :: x in agenda[1..] ==> x in agenda;
      WithAllComes(next, agenda[1..], w);
    }
  }

  function Wants(es: seq<Listed>): set<Want> { set e | e in es :: e.want }

  /** The entries as they are pending. */
  predicate AsPending(wl: Wantlist, es: seq<Listed>) {
    Distinct(es) && forall e :: e in es ==> e.want in wl && wl[e.want] == e.item
  }

  lemma FirstDistinct(es: seq<Listed>)
    requires es != [] && Distinct(es)
    ensures Distinct(es[1..]) && es[0].want !in Wants(es[1..]) && Wants(es) == {es[0].want} + Wants(es[1..])
  {
    assert es == [es[0]] + es[1..];
    forall x | x in es[1..] ensures x.want != es[0].want {
      var i :| 0 <= i < |es[1..]| && es[1..][i] == x;
      assert es[i + 1] == x;
    }
  }

  /** What marking entries as sent does to a list that has them all pending. */
  ghost predicate AllMarked(r: Recall, es: seq<Listed>, entries: Entries, m: Marked) {
    && m.entries == entries
    && m.list.pending == r.pending - Wants(es)
    && m.list.sent.Keys == r.sent.Keys + Wants(es)
    && m.list.sentAt == r.sentAt
    && (KnownTypes(r.pending) && KnownTypes(r.sent) ==> KnownTypes(m.list.sent))
  }

  lemma MarkFirst(r: Recall, next: Recall, es: seq<Listed>, entries: Entries, m: Marked)
    requires AsPending(r.pending, es) && es != []
    requires next == r.(pending := r.pending - {es[0].want},
                        sent := Add(r.sent, es[0].want, es[0].item.priority, es[0].item.wantType))
    requires AllMarked(next, es[1..], entries, m)
    ensures AllMarked(r, es, entries, m)
  {
    FirstDistinct(es);
    assert es[0] in es;
    assert r.pending - {es[0].want} - Wants(es[1..]) == r.pending - Wants(es);
  }

  lemma RestPending(wl: Wantlist, es: seq<Listed>)
    requires AsPending(wl, es) && es != []
    ensures AsPending(wl - {es[0].want}, es[1..]) && Removable(wl, es[0].want, es[0].item.wantType)
  {
    FirstDistinct(es);
    assert es[0] in es && forall x :: x in es[1..] ==> x in es && x.want in Wants(es[1..]);
  }

  /** With nothing in between, every entry of the draft is marked as sent. */
  lemma {:induction false} MarkAllPending(r: Recall, es: seq<Listed>, entries: Entries)
    requires AsPending(r.pending, es)
    ensures AllMarked(r, es, entries, MarkAll(r, es, entries))
    decreases |es|
  {
    if es == [] {
      assert Wants(es) == {} && r.pending - {} == r.pending;
    } else {
      var next := r.(pending := r.pending - {es[0].want},
                     sent := Add(r.sent, es[0].want, es[0].item.priority, es[0].item.wantType));
      RestPending(r.pending, es);
      MarkAllPending(next, es[1..], entries);
      MarkFirst(r, next, es, entries, MarkAll(next, es[1..], entries));
    }
  }

  /** The entries from which the message of a draft was made. */
  function Parts(d: Draft, supportsHave: bool): seq<Entry> {
    CancelEntries(d.cancels) + PeerEntries(d.peer) + BroadcastEntries(d.bcst, supportsHave)
  }

  lemma ThreeParts<T>(a: seq<T>, b: seq<T>, c: seq<T>, n: nat)
    requires n <= |a| + |b| + |c|
    ensures var i := Min(n, |a|);
            var j := Min(n - i, |b|);
            n - i - j <= |c| && (a + b + c)[..n] == a[..i] + b[..j] + c[..n - i - j]
  {
  }

  /** The part of the agenda that is in the draft. */
  lemma AgendaPrefix(q: Queue, v: Visit, supportsHave: bool, limits: Limits)
    requires Visits(q, v)
    ensures var agenda, d := Agenda(q, v, supportsHave), MakeDraft(q, v, supportsHave, limits);
            && |d.cancels| + |d.peer| + |d.bcst| == Fill(agenda, NO_LOAD, limits).count
            && (agenda != [] ==> |d.cancels| + |d.peer| + |d.bcst| > 0)
            && d.entries == WithAll(map[], Parts(d, supportsHave))
  {
    var agenda, d := Agenda(q, v, supportsHave), MakeDraft(q, v, supportsHave, limits);
    FillTakesPrefix(agenda, NO_LOAD, limits);
    var n := Fill(agenda, NO_LOAD, limits).count;
    var cs, ps := CancelEntries(v.cancels), PeerEntries(List(q.peer.pending, v.peer));
    var bs := BroadcastEntries(List(q.bcst.pending, v.bcst), supportsHave);
    ThreeParts(cs, ps, bs, n);
    assert CancelEntries(d.cancels) == cs[..|d.cancels|];
    assert PeerEntries(d.peer) == ps[..|d.peer|];
    assert BroadcastEntries(d.bcst, supportsHave) == bs[..|d.bcst|];
  }

  lemma ListAsPending(wl: Wantlist, ks: seq<Want>, n: nat)
    requires Lists(ks, wl) && n <= |ks|
    ensures AsPending(wl, List(wl, ks)[..n])
  {
    var es := List(wl, ks)[..n];
    forall e | e in es ensures e.want in wl && wl[e.want] == e.item {
      var i :| 0 <= i < |es| && es[i] == e;
      assert ks[i] in ks;
    }
  }

  lemma DraftAsPending(q: Queue, v: Visit, supportsHave: bool, limits: Limits)
    requires Visits(q, v)
    ensures var d := MakeDraft(q, v, supportsHave, limits);
            Drafted(q, d)
  {
    var d := MakeDraft(q, v, supportsHave, limits);
    ListAsPending(q.peer.pending, v.peer, |d.peer|);
    ListAsPending(q.bcst.pending, v.bcst, |d.bcst|);
    assert d.cancels == v.cancels[..|d.cancels|];
  }

  lemma PartMembers(d: Draft, supportsHave: bool, e: Entry)
    ensures e in CancelEntries(d.cancels) <==> e.want in d.cancels && e == Entry(e.want, 0, BLOCK, true, false)
    ensures e in PeerEntries(d.peer) <==>
            Listed(e.want, Item(e.priority, e.wantType)) in d.peer && !e.cancel && e.sendDontHave
    ensures e in BroadcastEntries(d.bcst, supportsHave) ==>
            e.want in Wants(d.bcst) && !e.cancel && e.wantType == if supportsHave then HAVE else BLOCK
  {
    if e.want in d.cancels && e == Entry(e.want, 0, BLOCK, true, false) {
      var i :| 0 <= i < |d.cancels| && d.cancels[i] == e.want;
      assert CancelEntries(d.cancels)[i] == e;
    }
    var x := Listed(e.want, Item(e.priority, e.wantType));
    if x in d.peer && !e.cancel && e.sendDontHave {
      var i :| 0 <= i < |d.peer| && d.peer[i] == x;
      assert PeerEntries(d.peer)[i] == e;
    }
    if e in PeerEntries(d.peer) {
      var i :| 0 <= i < |d.peer| && PeerEntries(d.peer)[i] == e;
      assert d.peer[i] == x;
    }
    if e in BroadcastEntries(d.bcst, supportsHave) {
      var i :| 0 <= i < |d.bcst| && BroadcastEntries(d.bcst, supportsHave)[i] == e;
      assert d.bcst[i] in d.bcst;
    }
  }

  /** What keeps cancels and wants apart in a draft. */
  predicate Apart(d: Draft) {
    && (forall e :: e in d.peer ==> e.want !in d.cancels && (e.item.wantType == BLOCK || e.item.wantType == HAVE))
    && (forall e :: e in d.bcst ==> e.want !in d.cancels)
  }

  lemma PartSound(d: Draft, supportsHave: bool, e: Entry)
    requires Apart(d) && e in Parts(d, supportsHave)
    ensures TwoTypes(e) && e.want in Set(d.cancels) + Wants(d.peer) + Wants(d.bcst)
    ensures e.cancel <==> e.want in Set(d.cancels)
  {
    PartMembers(d, supportsHave, e);
  }

  lemma PartsHaveCancel(d: Draft, supportsHave: bool, w: Want)
    requires w in d.cancels
    ensures Entry(w, 0, BLOCK, true, false) in Parts(d, supportsHave)
  {
    PartMembers(d, supportsHave, Entry(w, 0, BLOCK, true, false));
  }

  lemma PartsHavePeer(d: Draft, supportsHave: bool, x: Listed)
    requires x in d.peer
    ensures Entry(x.want, x.item.priority, x.item.wantType, false, true) in Parts(d, supportsHave)
  {
    PartMembers(d, supportsHave, Entry(x.want, x.item.priority, x.item.wantType, false, true));
  }

  lemma PartsHaveBroadcast(d: Draft, supportsHave: bool, x: Listed)
    requires x in d.bcst
    ensures Entry(x.want, x.item.priority, if supportsHave then HAVE else BLOCK, false, false) in Parts(d, supportsHave)
  {
    var i :| 0 <= i < |d.bcst| && d.bcst[i] == x;
    assert BroadcastEntries(d.bcst, supportsHave)[i] in Parts(d, supportsHave);
  }

  /** What the message of a draft says: the cancels, and the wants in at least the type in which
      they are pending. */
  ghost predicate Says(d: Draft, supportsHave: bool) {
    && d.entries.Keys == Set(d.cancels) + Wants(d.peer) + Wants(d.bcst)
    && (forall w :: w in d.entries ==> (d.entries[w].cancel <==> w in Set(d.cancels)))
    && (forall e :: e in d.peer && e.item.wantType == BLOCK ==> d.entries[e.want].wantType == BLOCK)
    && (forall e :: e in d.bcst && !supportsHave ==> d.entries[e.want].wantType == BLOCK)
  }

  lemma PartsTaken(d: Draft, supportsHave: bool)
    requires Apart(d) && d.entries == WithAll(map[], Parts(d, supportsHave))
    ensures forall w :: w in d.cancels ==> w in d.entries && d.entries[w].cancel
    ensures forall x :: x in d.peer ==>
            x.want in d.entries && (x.item.wantType == BLOCK ==> d.entries[x.want].wantType == BLOCK)
    ensures forall x :: x in d.bcst ==> x.want in d.entries && (!supportsHave ==> d.entries[x.want].wantType == BLOCK)
  {
    var all, m := Parts(d, supportsHave), d.entries;
    forall e | e in all ensures TwoTypes(e) {
      PartSound(d, supportsHave, e);
    }
    forall w | w in d.cancels ensures w in m && m[w].cancel {
      PartsHaveCancel(d, supportsHave, w);
      WithAllTakes(map[], all, Entry(w, 0, BLOCK, true, false));
    }
    forall x | x in d.peer ensures x.want in m && (x.item.wantType == BLOCK ==> m[x.want].wantType == BLOCK) {
      PartsHavePeer(d, supportsHave, x);
      WithAllTakes(map[], all, Entry(x.want, x.item.priority, x.item.wantType, false, true));
    }
    forall x | x in d.bcst ensures x.want in m && (!supportsHave ==> m[x.want].wantType == BLOCK) {
      PartsHaveBroadcast(d, supportsHave, x);
      WithAllTakes(map[], all, Entry(x.want, x.item.priority, if supportsHave then HAVE else BLOCK, false, false));
    }
  }

  lemma PartsOnly(d: Draft, supportsHave: bool, w: Want)
    requires Apart(d) && d.entries == WithAll(map[], Parts(d, supportsHave)) && w in d.entries
    ensures w in Set(d.cancels) + Wants(d.peer) + Wants(d.bcst) && (d.entries[w].cancel ==> w in Set(d.cancels))
  {
    var all := Parts(d, supportsHave);
    WithAllComes(map[], all, w);
    var e :| e in all && e.want == w &&
      (d.entries[w].cancel ==> e.cancel || exists x :: x in all && x.want == w && x.cancel);
    PartSound(d, supportsHave, e);
    if d.entries[w].cancel {
      var x :| x in all && x.want == w && x.cancel;
      PartSound(d, supportsHave, x);
    }
  }

  lemma PartsMessage(d: Draft, supportsHave: bool)
    requires Apart(d) && d.entries == WithAll(map[], Parts(d, supportsHave))
    ensures Says(d, supportsHave)
  {
    PartsTaken(d, supportsHave);
    forall w | w in d.entries
      ensures w in Set(d.cancels) + Wants(d.peer) + Wants(d.bcst) && (d.entries[w].cancel ==> w in Set(d.cancels))
    {
      PartsOnly(d, supportsHave, w);
    }
  }

  lemma DraftMessage(q: Queue, v: Visit, supportsHave: bool, limits: Limits)
    requires Tidy(q) && Visits(q, v)
    ensures Says(MakeDraft(q, v, supportsHave, limits), supportsHave)
  {
    AgendaPrefix(q, v, supportsHave, limits);
    DraftAsPending(q, v, supportsHave, limits);
    PartsMessage(MakeDraft(q, v, supportsHave, limits), supportsHave);
  }

  lemma DropHavesTidy(q: Queue, supportsHave: bool)
    requires Tidy(q)
    ensures var q' := DropHaves(q, supportsHave);
            && Tidy(q') && q'.bcst == q.bcst && q'.cancels == q.cancels
            && q'.peer.sent.Keys == q.peer.sent.Keys - Dropped(q, supportsHave)
  {
  }

  /** The effect of the second section on a queue that has not changed since the first. */
  ghost predicate Committed(q: Queue, d: Draft, x: Extracted) {
    && x.entries == d.entries
    && x.queue.cancels == q.cancels - Set(d.cancels)
    && x.queue.peer.pending == q.peer.pending - Wants(d.peer)
    && x.queue.bcst.pending == q.bcst.pending - Wants(d.bcst)
    && SentKeys(x.queue) == SentKeys(q) + Wants(d.peer) + Wants(d.bcst)
    && Tidy(x.queue)
  }

  /** The draft as the first section makes it. */
  ghost predicate Drafted(q: Queue, d: Draft) {
    AsPending(q.peer.pending, d.peer) && AsPending(q.bcst.pending, d.bcst) && Set(d.cancels) <= q.cancels
  }

  lemma CommitEffect(q: Queue, d: Draft)
    requires Tidy(q) && Drafted(q, d)
    ensures Committed(q, d, Commit(q, d))
  {
    MarkAllPending(q.peer, d.peer, d.entries);
    MarkAllPending(q.bcst, d.bcst, d.entries);
    assert d.entries - (Set(d.cancels) - q.cancels) == d.entries;
  }
}
