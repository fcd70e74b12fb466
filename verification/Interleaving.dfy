/** Every interleaving of the sections of the queue that hold its lock: a call, and the two
    sections of an extraction, between which other calls may run. */
module Interleaving {
  import opened Basics
  import opened BitswapMessage
  import opened Wantlists
  import opened MessageQueue
  import opened RemoteView

  /** The queue between locked sections, with the draft of an extraction under way. */
  datatype Locked = Locked(queue: Queue, draft: Option<Draft>, remote: set<Want>)

  datatype Section =
    | Call(step: Step)
    | First(visit: Visit, supportsHave: bool)
    | Second

  predicate CanEnter(s: Locked, section: Section) {
    match section
    case Call(step) => !step.Send?
    case First(visit, supportsHave) => s.draft.None? && Visits(DropHaves(s.queue, supportsHave), visit)
    case Second => s.draft.Some?
  }

  function Enter(s: Locked, section: Section, limits: Limits): Locked
    requires CanEnter(s, section)
  {
    match section
    case Call(step) => s.(queue := Next(World(s.queue, {}, {}), step, limits).queue)
    case First(visit, supportsHave) =>
      var q := DropHaves(s.queue, supportsHave);
      s.(queue := q, draft := Some(MakeDraft(q, visit, supportsHave, limits)))
    case Second =>
      var x := Commit(s.queue, s.draft.value);
      Locked(x.queue, None, Replay(s.remote, x.entries))
  }

  predicate Possible(s: Locked, sections: seq<Section>, limits: Limits)
    decreases |sections|
  {
    sections == [] || (CanEnter(s, sections[0]) && Possible(Enter(s, sections[0], limits), sections[1..], limits))
  }

  function Interleave(s: Locked, sections: seq<Section>, limits: Limits): Locked
    requires Possible(s, sections, limits)
    decreases |sections|
  {
    if sections == [] then s else Interleave(Enter(s, sections[0], limits), sections[1..], limits)
  }

  predicate DraftTypes(d: Draft) {
    forall e :: e in d.peer ==> e.item.wantType == BLOCK || e.item.wantType == HAVE
  }

  predicate TidyLocked(s: Locked) {
    Tidy(s.queue) && (s.draft.Some? ==> DraftTypes(s.draft.value))
  }

  /** Marking entries of any draft as sent moves keys from pending to sent and nowhere else. */
  lemma {:induction false} MarkAllMoves(r: Recall, es: seq<Listed>, entries: Entries)
    ensures var m := MarkAll(r, es, entries).list;
            && m.pending.Keys <= r.pending.Keys && r.sent.Keys <= m.sent.Keys
            && m.pending.Keys + m.sent.Keys == r.pending.Keys + r.sent.Keys
            && m.sentAt == r.sentAt
            && (forall w :: w in m.pending ==> m.pending[w] == r.pending[w])
    ensures KnownTypes(r.sent) && (forall e :: e in es ==> e.item.wantType == BLOCK || e.item.wantType == HAVE) ==>
              KnownTypes(MarkAll(r, es, entries).list.sent)
    decreases |es|
  {
    if es != [] {
      var e := es[0];
      assert e in es && forall x :: x in es[1..] ==> x in es;
      if Removable(r.pending, e.want, e.item.wantType) {
        var sent := Add(r.sent, e.want, e.item.priority, e.item.wantType);
        MarkAllMoves(r.(pending := r.pending - {e.want}, sent := sent), es[1..], entries);
      } else {
        MarkAllMoves(r, es[1..], entries - {e.want});
      }
    }
  }

  lemma CallTidy(q: Queue, step: Step, limits: Limits)
    requires Tidy(q) && !step.Send?
    ensures Tidy(Next(World(q, {}, {}), step, limits).queue)
  {
    match step
    case CallBroadcast(ws) => AddAllEffect(q, Broadcast, ws, HAVE);
    case CallWants(blocks, haves) =>
      WantsEffect(q, blocks, haves);
    case _ =>
  }

  lemma EnterTidy(s: Locked, section: Section, limits: Limits)
    requires TidyLocked(s) && CanEnter(s, section)
    ensures TidyLocked(Enter(s, section, limits))
  {
    match section
    case Call(step) => CallTidy(s.queue, step, limits);
    case First(visit, supportsHave) =>
      DropHavesTidy(s.queue, supportsHave);
      DraftAsPending(DropHaves(s.queue, supportsHave), visit, supportsHave, limits);
    case Second =>
      var q, d := s.queue, s.draft.value;
      MarkAllMoves(q.peer, d.peer, d.entries);
      MarkAllMoves(q.bcst, d.bcst, MarkAll(q.peer, d.peer, d.entries).entries);
  }

  /** However the locked sections interleave, cancels are queued only for keys that are neither
      pending nor sent, and send times only kept for sent keys. */
  lemma {:induction false} TidyInEveryInterleaving(s: Locked, sections: seq<Section>, limits: Limits)
    requires TidyLocked(s) && Possible(s, sections, limits)
    ensures TidyLocked(Interleave(s, sections, limits))
    decreases |sections|
  {
    if sections != [] {
      EnterTidy(s, sections[0], limits);
      TidyInEveryInterleaving(Enter(s, sections[0], limits), sections[1..], limits);
    }
  }

  // ---------------------------------------------------------------------------------------
  // Which sent keys the peer does not know
  // ---------------------------------------------------------------------------------------

  /** The drafted wants that the second section marks as sent, and those it takes out of the
      message, for one of the two lists. */
  function Kept(r: Recall, es: seq<Listed>): set<Want> {
    set e | e in es && Removable(r.pending, e.want, e.item.wantType) :: e.want
  }

  function Lost(r: Recall, es: seq<Listed>): set<Want> {
    set e | e in es && !Removable(r.pending, e.want, e.item.wantType) :: e.want
  }

  /** The keys drafted in both lists that one list keeps and the other takes out of the message
      they share. */
  function Split(q: Queue, d: Draft): set<Want> {
    Kept(q.peer, d.peer) * Lost(q.bcst, d.bcst) + Lost(q.peer, d.peer) * Kept(q.bcst, d.bcst)
  }

  /** A draft as the first section makes it, whatever has happened to the queue since. */
  ghost predicate Shaped(d: Draft) {
    && Distinct(d.peer) && Distinct(d.bcst) && Apart(d)
    && d.entries.Keys == Set(d.cancels) + Wants(d.peer) + Wants(d.bcst)
    && forall w :: w in d.entries ==> (d.entries[w].cancel <==> w in Set(d.cancels))
  }

  lemma DraftShaped(q: Queue, v: Visit, supportsHave: bool, limits: Limits)
    requires Tidy(q) && Visits(q, v)
    ensures Shaped(MakeDraft(q, v, supportsHave, limits))
  {
    DraftAsPending(q, v, supportsHave, limits);
    DraftMessage(q, v, supportsHave, limits);
  }

  /** Removing one key from the pending list does not matter for entries with other keys. */
  lemma OtherKey(r: Recall, r': Recall, es: seq<Listed>, k: Want)
    requires k !in Wants(es) && r'.pending == r.pending - {k}
    ensures Kept(r', es) == Kept(r, es) && Lost(r', es) == Lost(r, es)
  {
    forall e | e in es
      ensures Removable(r'.pending, e.want, e.item.wantType) <==> Removable(r.pending, e.want, e.item.wantType)
    {
      assert e.want in Wants(es);
    }
  }

  lemma FirstKept(r: Recall, es: seq<Listed>)
    requires es != []
    ensures var e := es[0]; var kept := Removable(r.pending, e.want, e.item.wantType);
            && Kept(r, es) == (if kept then {e.want} else {}) + Kept(r, es[1..])
            && Lost(r, es) == (if kept then {} else {e.want}) + Lost(r, es[1..])
  {
    assert es == [es[0]] + es[1..];
  }

  /** What marking the entries of a draft does to any list. */
  lemma {:induction false} MarkAllSplits(r: Recall, es: seq<Listed>, entries: Entries)
    requires Distinct(es)
    ensures var m := MarkAll(r, es, entries);
            m.list.sent.Keys == r.sent.Keys + Kept(r, es) && m.entries == entries - Lost(r, es)
    decreases |es|
  {
    if es == [] {
      assert entries - {} == entries;
    } else {
      var e := es[0];
      FirstDistinct(es);
      FirstKept(r, es);
      if Removable(r.pending, e.want, e.item.wantType) {
        var sent := Add(r.sent, e.want, e.item.priority, e.item.wantType);
        var next := r.(pending := r.pending - {e.want}, sent := sent);
        OtherKey(r, next, es[1..], e.want);
        MarkAllSplits(next, es[1..], entries);
      } else {
        MarkAllSplits(r, es[1..], entries - {e.want});
        assert entries - {e.want} - Lost(r, es[1..]) == entries - Lost(r, es);
      }
    }
  }

  lemma KeptOrLost(r: Recall, es: seq<Listed>)
    ensures Wants(es) == Kept(r, es) + Lost(r, es)
    ensures Distinct(es) ==> Kept(r, es) !! Lost(r, es)
  {
    if Distinct(es) {
      forall x, y | x in es && y in es && x.want == y.want ensures x == y {
        var i :| 0 <= i < |es| && es[i] == x;
        var j :| 0 <= j < |es| && es[j] == y;
      }
    }
  }

  lemma LeftOver(d: Draft, lost: set<Want>, cancels: set<Want>)
    requires Shaped(d) && lost <= Wants(d.peer) + Wants(d.bcst)
    ensures var entries := d.entries - lost - (Set(d.cancels) - cancels);
            && Wanted(entries) == Wants(d.peer) + Wants(d.bcst) - lost
            && Cancelled(entries) == Set(d.cancels) * cancels
  {
    assert Set(d.cancels) !! Wants(d.peer) + Wants(d.bcst);
  }

  lemma CommitSplits(q: Queue, d: Draft)
    requires Shaped(d)
    ensures var x := Commit(q, d);
            && SentKeys(x.queue) == SentKeys(q) + Kept(q.peer, d.peer) + Kept(q.bcst, d.bcst)
            && x.entries == d.entries - (Lost(q.peer, d.peer) + Lost(q.bcst, d.bcst)) - (Set(d.cancels) - q.cancels)
  {
    var lp, lb := Lost(q.peer, d.peer), Lost(q.bcst, d.bcst);
    MarkAllSplits(q.peer, d.peer, d.entries);
    MarkAllSplits(q.bcst, d.bcst, d.entries - lp);
    assert d.entries - lp - lb == d.entries - (lp + lb);
  }

  /** The message that the second section sends. */
  lemma CommitMessage(q: Queue, d: Draft)
    requires Shaped(d)
    ensures var x := Commit(q, d);
            && SentKeys(x.queue) == SentKeys(q) + Kept(q.peer, d.peer) + Kept(q.bcst, d.bcst)
            && Wanted(x.entries) == Wants(d.peer) + Wants(d.bcst) - (Lost(q.peer, d.peer) + Lost(q.bcst, d.bcst))
            && Cancelled(x.entries) == Set(d.cancels) * q.cancels
  {
    CommitSplits(q, d);
    LeftOver(d, Lost(q.peer, d.peer) + Lost(q.bcst, d.bcst), q.cancels);
  }

  /** If the peer knew every sent key before the second section, then the sent keys that it does
      not know afterwards are exactly the split keys that it did not know before. */
  lemma UnknownExactly(q: Queue, d: Draft, remote: set<Want>)
    requires Tidy(q) && Shaped(d) && SentKeys(q) <= remote
    ensures var x := Commit(q, d); SentKeys(x.queue) - Replay(remote, x.entries) == Split(q, d) - remote
  {
    CommitMessage(q, d);
    KeptOrLost(q.peer, d.peer);
    KeptOrLost(q.bcst, d.bcst);
    assert Set(d.cancels) !! Wants(d.peer) + Wants(d.bcst);
    SplitSets(SentKeys(q), remote, Set(d.cancels) * q.cancels, Kept(q.peer, d.peer), Lost(q.peer, d.peer),
              Kept(q.bcst, d.bcst), Lost(q.bcst, d.bcst));
  }

  lemma SplitSets(sent: set<Want>, remote: set<Want>, cancelled: set<Want>,
                  kp: set<Want>, lp: set<Want>, kb: set<Want>, lb: set<Want>)
    requires sent <= remote && cancelled !! sent && cancelled !! kp + lp + kb + lb && kp !! lp && kb !! lb
    ensures (sent + kp + kb) - (remote - cancelled + ((kp + lp) + (kb + lb) - (lp + lb))) ==
            (kp * lb + lp * kb) - remote
  {
  }

  ghost predicate Known(s: Locked) { SentKeys(s.queue) <= s.remote }

  /** The peer knows every sent key, in each state of the run. */
  ghost predicate AlwaysKnown(s: Locked, sections: seq<Section>, limits: Limits)
    requires Possible(s, sections, limits)
    decreases |sections|
  {
    Known(s) && (sections == [] || AlwaysKnown(Enter(s, sections[0], limits), sections[1..], limits))
  }

  /** No second section of the run meets a split key that the peer does not know. */
  predicate NeverSplit(s: Locked, sections: seq<Section>, limits: Limits)
    requires Possible(s, sections, limits)
    decreases |sections|
  {
    sections == [] ||
    ((sections[0] == Second ==> Split(s.queue, s.draft.value) <= s.remote) &&
     NeverSplit(Enter(s, sections[0], limits), sections[1..], limits))
  }

  ghost predicate ShapedLocked(s: Locked) {
    TidyLocked(s) && (s.draft.Some? ==> Shaped(s.draft.value))
  }

  lemma CallKnown(q: Queue, step: Step, limits: Limits)
    requires Tidy(q) && !step.Send?
    ensures SentKeys(Next(World(q, {}, {}), step, limits).queue) <= SentKeys(q)
  {
    match step
    case CallBroadcast(ws) => AddAllEffect(q, Broadcast, ws, HAVE);
    case CallWants(blocks, haves) => WantsEffect(q, blocks, haves);
    case _ =>
  }

  /** A section leaves the peer knowing every sent key unless it is a second section with a split. */
  lemma EnterKnown(s: Locked, section: Section, limits: Limits)
    requires ShapedLocked(s) && CanEnter(s, section) && Known(s)
    ensures ShapedLocked(Enter(s, section, limits))
    ensures Known(Enter(s, section, limits)) <==> (section == Second ==> Split(s.queue, s.draft.value) <= s.remote)
  {
    EnterTidy(s, section, limits);
    match section
    case Call(step) => CallKnown(s.queue, step, limits);
    case First(visit, supportsHave) =>
      DropHavesTidy(s.queue, supportsHave);
      DraftShaped(DropHaves(s.queue, supportsHave), visit, supportsHave, limits);
    case Second =>
      var q, d := s.queue, s.draft.value;
      UnknownExactly(q, d, s.remote);
      SubsetIff(SentKeys(Commit(q, d).queue), Replay(s.remote, Commit(q, d).entries), Split(q, d), s.remote);
  }

  lemma SubsetIff<T>(a: set<T>, b: set<T>, c: set<T>, d: set<T>)
    requires a - b == c - d
    ensures a <= b <==> c <= d
  {
    assert forall x :: x in a && x !in b <==> x in a - b;
    assert forall x :: x in c && x !in d <==> x in c - d;
  }

  /** However the locked sections interleave, the peer knows every key recorded as sent all along if
      and only if no second section meets a split key that the peer does not know. */
  lemma {:induction false} KnownIffNeverSplit(s: Locked, sections: seq<Section>, limits: Limits)
    requires ShapedLocked(s) && Known(s) && Possible(s, sections, limits)
    ensures AlwaysKnown(s, sections, limits) <==> NeverSplit(s, sections, limits)
    decreases |sections|
  {
    if sections != [] {
      var s' := Enter(s, sections[0], limits);
      EnterKnown(s, sections[0], limits);
      if Known(s') {
        KnownIffNeverSplit(s', sections[1..], limits);
      }
    }
  }

  // ---- runs without a split ----

  /** The keys drafted in both lists. */
  function Doubled(d: Draft): set<Want> { Wants(d.peer) * Wants(d.bcst) }

  /** A call that leaves the pending entries of some keys as they are. */
  predicate Spares(step: Step, ks: set<Want>) {
    match step
    case CallBroadcast(ws) => Set(ws) !! ks
    case CallWants(blocks, haves) => Set(blocks) + Set(haves) !! ks
    case CallCancels(ws) => Set(ws) !! ks
    case Rebroadcast => ks == {}
    case _ => true
  }

  /** Calls between the two sections name no key that was drafted in both lists. */
  predicate Quiet(s: Locked, sections: seq<Section>, limits: Limits)
    requires Possible(s, sections, limits)
    decreases |sections|
  {
    sections == [] ||
    ((sections[0].Call? && s.draft.Some? ==> Spares(sections[0].step, Doubled(s.draft.value))) &&
     Quiet(Enter(s, sections[0], limits), sections[1..], limits))
  }

  /** The entries with the given keys can still be marked as sent. */
  predicate StillPending(wl: Wantlist, es: seq<Listed>, ks: set<Want>) {
    forall e :: e in es && e.want in ks ==> Removable(wl, e.want, e.item.wantType)
  }

  predicate DoubledPending(q: Queue, d: Draft) {
    StillPending(q.peer.pending, d.peer, Doubled(d)) && StillPending(q.bcst.pending, d.bcst, Doubled(d))
  }

  lemma {:induction false} AddAllSpares(q: Queue, to: Target, ws: seq<Want>, wantType: int32, k: Want)
    requires k !in ws
    ensures var q' := AddAll(q, to, ws, wantType);
            SameAt(q.peer.pending, q'.peer.pending, k) && SameAt(q.bcst.pending, q'.bcst.pending, k)
    decreases |ws|
  {
    if ws != [] {
      AddAllSpares(AddWant(q, to, ws[0], wantType), to, ws[1..], wantType, k);
    }
  }

  predicate SameAt(a: Wantlist, b: Wantlist, k: Want) {
    (k in a <==> k in b) && (k in a ==> a[k] == b[k])
  }

  lemma SparesKey(q: Queue, step: Step, limits: Limits, ks: set<Want>, k: Want)
    requires !step.Send? && Spares(step, ks) && k in ks
    ensures var q' := Next(World(q, {}, {}), step, limits).queue;
            SameAt(q.peer.pending, q'.peer.pending, k) && SameAt(q.bcst.pending, q'.bcst.pending, k)
  {
    match step
    case CallBroadcast(ws) => AddAllSpares(q, Broadcast, ws, HAVE, k);
    case CallWants(blocks, haves) =>
      AddAllSpares(q, Peer, haves, HAVE, k);
      AddAllSpares(AddAll(q, Peer, haves, HAVE), Peer, blocks, BLOCK, k);
    case _ =>
  }

  lemma DoubledStays(q: Queue, d: Draft, step: Step, limits: Limits)
    requires DoubledPending(q, d) && !step.Send? && Spares(step, Doubled(d))
    ensures DoubledPending(Next(World(q, {}, {}), step, limits).queue, d)
  {
    forall k | k in Doubled(d)
      ensures var q' := Next(World(q, {}, {}), step, limits).queue;
              SameAt(q.peer.pending, q'.peer.pending, k) && SameAt(q.bcst.pending, q'.bcst.pending, k)
    {
      SparesKey(q, step, limits, Doubled(d), k);
    }
  }

  lemma NoSplit(q: Queue, d: Draft)
    requires DoubledPending(q, d)
    ensures Split(q, d) == {}
  {
  }

  lemma DraftDoubled(q: Queue, v: Visit, supportsHave: bool, limits: Limits)
    requires Visits(q, v)
    ensures DoubledPending(q, MakeDraft(q, v, supportsHave, limits))
  {
    DraftAsPending(q, v, supportsHave, limits);
  }

  /** So the peer knows every sent key in any interleaving in which calls between the two sections
      name no key drafted in both lists. */
  lemma {:induction false} QuietKnown(s: Locked, sections: seq<Section>, limits: Limits)
    requires ShapedLocked(s) && Known(s) && (s.draft.Some? ==> DoubledPending(s.queue, s.draft.value))
    requires Possible(s, sections, limits) && Quiet(s, sections, limits)
    ensures AlwaysKnown(s, sections, limits)
    decreases |sections|
  {
    if sections != [] {
      var s' := Enter(s, sections[0], limits);
      match sections[0] {
        case Call(step) =>
          if s.draft.Some? {
            DoubledStays(s.queue, s.draft.value, step, limits);
          }
        case First(visit, supportsHave) =>
          DraftDoubled(DropHaves(s.queue, supportsHave), visit, supportsHave, limits);
        case Second => NoSplit(s.queue, s.draft.value);
      }
      EnterKnown(s, sections[0], limits);
      QuietKnown(s', sections[1..], limits);
    }
  }

  // ---- two ways to split a key ----

  /** If a want that was drafted both as the peer's want-have and as a broadcast has become a
      want-block meanwhile, the second section takes it out of the message and yet records the
      broadcast as sent. */
  lemma UpgradeBetweenSections(q: Queue, d: Draft, remote: set<Want>, w: Want, p: Item, b: Item)
    requires Tidy(q) && Shaped(d) && SentKeys(q) <= remote && w !in remote
    requires Listed(w, p) in d.peer && Listed(w, b) in d.bcst && p.wantType == HAVE
    requires w in q.peer.pending && q.peer.pending[w].wantType == BLOCK && Removable(q.bcst.pending, w, b.wantType)
    ensures var x := Commit(q, d); w in SentKeys(x.queue) && w !in Replay(remote, x.entries)
  {
    assert w in Split(q, d) - remote;
    UnknownExactly(q, d, remote);
  }

  /** If it was cancelled and wanted again by the peer list only, it is the broadcast that takes it
      out of the message, while the peer list records it as sent. */
  lemma CancelBetweenSections(q: Queue, d: Draft, remote: set<Want>, w: Want, p: Item, b: Item)
    requires Tidy(q) && Shaped(d) && SentKeys(q) <= remote && w !in remote
    requires Listed(w, p) in d.peer && Listed(w, b) in d.bcst
    requires Removable(q.peer.pending, w, p.wantType) && w !in q.bcst.pending
    ensures var x := Commit(q, d); w in SentKeys(x.queue) && w !in Replay(remote, x.entries)
  {
    assert w in Split(q, d) - remote;
    UnknownExactly(q, d, remote);
  }

  lemma AddOne(q: Queue, to: Target, w: Want, wantType: int32)
    ensures AddAll(q, to, [w], wantType) == AddWant(q, to, w, wantType)
    ensures AddAll(q, to, [], wantType) == q
  {
    assert AddAll(q, to, [w], wantType) == AddAll(AddWant(q, to, w, wantType), to, [], wantType);
  }

  /** An entry for the key does not fill a message. */
  ghost predicate Fits(w: Want, limits: Limits) { forall e: Entry :: e.want == w ==> limits.size(e) < limits.max }

  /** A key wanted both by broadcast and as the peer's want-have. */
  ghost predicate WantedTwice(q: Queue, w: Want) {
    q.cancels == {} && q.peer.pending.Keys == {w} && q.bcst.pending.Keys == {w} &&
    q.peer.pending[w].wantType == HAVE && q.bcst.pending[w].wantType == HAVE
  }

  lemma WantTwice(w: Want)
    ensures WantedTwice(AddWants(AddBroadcastWantHaves(NEW, [w]), [], [w]), w)
  {
    AddOne(NEW, Broadcast, w, HAVE);
    var q := AddWant(NEW, Broadcast, w, HAVE);
    AddOne(q, Peer, w, HAVE);
    AddOne(AddWant(q, Peer, w, HAVE), Peer, w, BLOCK);
  }

  lemma BothDrafted(q: Queue, v: Visit, w: Want, limits: Limits)
    requires Visits(q, v) && v == Visit([], [w], [w]) && Fits(w, limits)
    ensures var d := MakeDraft(q, v, true, limits);
            d.peer == [Listed(w, q.peer.pending[w])] && d.bcst == [Listed(w, q.bcst.pending[w])] && d.cancels == []
  {
    var agenda := Agenda(q, v, true);
    assert |agenda| == 2 && agenda[0].want == w && agenda[1].want == w;
    var one := Loaded(NO_LOAD, agenda[0], limits);
    var two := Loaded(one, agenda[1], limits);
    assert agenda[1..] == [agenda[1]] && agenda[1..][1..] == [];
    assert Fill(agenda, NO_LOAD, limits) == Fill(agenda[1..], one, limits);
    assert Fill(agenda[1..], one, limits).count == 2;
  }

  /** The key is in the draft of both lists, and the peer does not know it. */
  ghost predicate DraftedTwice(s: Locked, w: Want) {
    && ShapedLocked(s) && Known(s) && w !in s.remote && s.draft.Some? && WantedTwice(s.queue, w)
    && s.draft.value.peer == [Listed(w, s.queue.peer.pending[w])]
    && s.draft.value.bcst == [Listed(w, s.queue.bcst.pending[w])]
  }

  lemma DraftTwice(s: Locked, w: Want, v: Visit, limits: Limits)
    requires ShapedLocked(s) && Known(s) && WantedTwice(s.queue, w) && s.draft.None? && w !in s.remote
    requires v == Visit([], [w], [w]) && Fits(w, limits)
    ensures CanEnter(s, First(v, true)) && DraftedTwice(Enter(s, First(v, true), limits), w)
  {
    assert Visits(s.queue, v);
    BothDrafted(s.queue, v, w, limits);
    EnterKnown(s, First(v, true), limits);
  }

  /** From there, a call that upgrades the want-have splits the key. */
  lemma UpgradeSplits(s: Locked, w: Want, limits: Limits)
    requires DraftedTwice(s, w)
    ensures var s' := Enter(s, Call(CallWants([w], [])), limits);
            s'.draft.Some? && (var s'' := Enter(s', Second, limits); w in SentKeys(s''.queue) && w !in s''.remote)
  {
    AddOne(s.queue, Peer, w, HAVE);
    AddOne(s.queue, Peer, w, BLOCK);
    EnterKnown(s, Call(CallWants([w], [])), limits);
    var s' := Enter(s, Call(CallWants([w], [])), limits);
    UpgradeBetweenSections(s'.queue, s'.draft.value, s'.remote, w, s.queue.peer.pending[w], s.queue.bcst.pending[w]);
  }

  /** So does cancelling it and wanting it again from this peer. */
  lemma CancelSplits(s: Locked, w: Want, limits: Limits)
    requires DraftedTwice(s, w)
    ensures var s1 := Enter(s, Call(CallCancels([w])), limits);
            var s2 := Enter(s1, Call(CallWants([], [w])), limits);
            s2.draft.Some? && (var s3 := Enter(s2, Second, limits); w in SentKeys(s3.queue) && w !in s3.remote)
  {
    var s1 := Enter(s, Call(CallCancels([w])), limits);
    EnterKnown(s, Call(CallCancels([w])), limits);
    AddOne(s1.queue, Peer, w, HAVE);
    AddOne(AddWant(s1.queue, Peer, w, HAVE), Peer, w, BLOCK);
    EnterKnown(s1, Call(CallWants([], [w])), limits);
    var s2 := Enter(s1, Call(CallWants([], [w])), limits);
    CancelBetweenSections(s2.queue, s2.draft.value, s2.remote, w, s.queue.peer.pending[w], s.queue.bcst.pending[w]);
  }

  /** A key is wanted by broadcast and from the peer, drafted, and then upgraded, or cancelled and
      wanted again, before the second section. */
  function SplitRun(w: Want, upgrade: bool): seq<Section> {
    [Call(CallBroadcast([w])), Call(CallWants([], [w])), First(Visit([], [w], [w]), true)] + AfterFirst(w, upgrade)
  }

  function AfterFirst(w: Want, upgrade: bool): seq<Section> {
    if upgrade then [Call(CallWants([w], [])), Second]
    else [Call(CallCancels([w])), Call(CallWants([], [w])), Second]
  }

  ghost predicate EndsUnknown(s: Locked, sections: seq<Section>, w: Want, limits: Limits) {
    Possible(s, sections, limits) &&
    var s' := Interleave(s, sections, limits); w in SentKeys(s'.queue) && w !in s'.remote
  }

  lemma UnknownPrepend(s: Locked, sections: seq<Section>, w: Want, limits: Limits)
    requires sections != [] && CanEnter(s, sections[0])
    requires EndsUnknown(Enter(s, sections[0], limits), sections[1..], w, limits)
    ensures EndsUnknown(s, sections, w, limits)
  {
  }

  lemma UnknownNow(s: Locked, w: Want, limits: Limits)
    requires w in SentKeys(s.queue) && w !in s.remote
    ensures EndsUnknown(s, [], w, limits)
  {
  }

  lemma AfterUpgrade(s: Locked, w: Want, rest: seq<Section>, limits: Limits)
    requires DraftedTwice(s, w) && rest == [Call(CallWants([w], [])), Second]
    ensures EndsUnknown(s, rest, w, limits)
  {
    UpgradeSplits(s, w, limits);
    assert rest[1..] == [Second] && rest[1..][1..] == [];
    var s1 := Enter(s, rest[0], limits);
    UnknownNow(Enter(s1, Second, limits), w, limits);
    UnknownPrepend(s1, rest[1..], w, limits);
    UnknownPrepend(s, rest, w, limits);
  }

  lemma AfterCancel(s: Locked, w: Want, rest: seq<Section>, limits: Limits)
    requires DraftedTwice(s, w) && rest == [Call(CallCancels([w])), Call(CallWants([], [w])), Second]
    ensures EndsUnknown(s, rest, w, limits)
  {
    CancelSplits(s, w, limits);
    assert rest[1..] == [rest[1], Second] && rest[1..][1..] == [Second] && rest[1..][1..][1..] == [];
    var s1 := Enter(s, rest[0], limits);
    var s2 := Enter(s1, rest[1], limits);
    UnknownNow(Enter(s2, Second, limits), w, limits);
    UnknownPrepend(s2, rest[1..][1..], w, limits);
    UnknownPrepend(s1, rest[1..], w, limits);
    UnknownPrepend(s, rest, w, limits);
  }

  lemma WantedLocked(w: Want, limits: Limits)
    ensures var s1 := Enter(Locked(NEW, None, {}), Call(CallBroadcast([w])), limits);
            var s2 := Enter(s1, Call(CallWants([], [w])), limits);
            ShapedLocked(s2) && Known(s2) && WantedTwice(s2.queue, w) && s2.draft.None? && s2.remote == {}
  {
    WantTwice(w);
    var s0 := Locked(NEW, None, {});
    EnterKnown(s0, Call(CallBroadcast([w])), limits);
    EnterKnown(Enter(s0, Call(CallBroadcast([w])), limits), Call(CallWants([], [w])), limits);
  }

  lemma SplitRunParts(w: Want, upgrade: bool)
    ensures var r := SplitRun(w, upgrade);
            && |r| > 3 && r[0] == Call(CallBroadcast([w])) && r[1] == Call(CallWants([], [w]))
            && r[2] == First(Visit([], [w], [w]), true)
            && r[1..][0] == r[1] && r[2..][0] == r[2] && r[1..][1..] == r[2..] && r[2..][1..] == r[3..]
            && r[3..] == AfterFirst(w, upgrade)
  {
  }

  lemma AfterDraft(s: Locked, w: Want, upgrade: bool, limits: Limits)
    requires DraftedTwice(s, w)
    ensures EndsUnknown(s, AfterFirst(w, upgrade), w, limits)
  {
    if upgrade {
      AfterUpgrade(s, w, AfterFirst(w, upgrade), limits);
    } else {
      AfterCancel(s, w, AfterFirst(w, upgrade), limits);
    }
  }

  /** So a key recorded as sent may be unknown to the peer when calls run between the sections. */
  lemma SentButUnknown(w: Want, upgrade: bool, limits: Limits)
    requires Fits(w, limits)
    ensures EndsUnknown(Locked(NEW, None, {}), SplitRun(w, upgrade), w, limits)
  {
    var sections, s0 := SplitRun(w, upgrade), Locked(NEW, None, {});
    SplitRunParts(w, upgrade);
    WantedLocked(w, limits);
    var s1 := Enter(s0, sections[0], limits);
    var s2 := Enter(s1, sections[1], limits);
    DraftTwice(s2, w, Visit([], [w], [w]), limits);
    var s3 := Enter(s2, sections[2], limits);
    AfterDraft(s3, w, upgrade, limits);
    UnknownPrepend(s2, sections[2..], w, limits);
    UnknownPrepend(s1, sections[1..], w, limits);
    UnknownPrepend(s0, sections, w, limits);
  }
}
