/** The queue and the peer's view of it, over whole runs. Extraction is one step here: nothing
    happens between its two locked sections, and every message reaches the peer. */
module RemoteView {
  import opened Basics
  import opened BitswapMessage
  import opened Wantlists
  import opened MessageQueue

  /** What happens to the queue. `Send` is an extraction whose message reaches the peer. */
  datatype Step =
    | CallBroadcast(ws: seq<Want>)
    | CallWants(blocks: seq<Want>, haves: seq<Want>)
    | CallCancels(ws: seq<Want>)
    | Rebroadcast
    | Send(visit: Visit, supportsHave: bool)
    | Stamp(peerWants: set<Want>, bcstWants: set<Want>, now: int)
    | Respond(ks: set<Want>)

  function Cancelled(entries: Entries): set<Want> { set w | w in entries && entries[w].cancel }

  function Wanted(entries: Entries): set<Want> { set w | w in entries && !entries[w].cancel }

  /** The wantlist that the peer gets by replaying our messages (cancels, then wants). */
  function Replay(remote: set<Want>, entries: Entries): set<Want> {
    remote - Cancelled(entries) + Wanted(entries)
  }

  /** Sent keys that the queue forgets because the peer does not support HAVE. */
  function Forgotten(q: Queue, supportsHave: bool): set<Want> {
    Dropped(q, supportsHave) - q.bcst.sent.Keys
  }

  /** The queue, the peer's view, and the orphans: keys the peer still has although the queue
      records them neither as sent nor as to be cancelled. A key becomes an orphan when it is
      wanted again while its cancel is still queued, or when a sent want-have is dropped because
      the peer turns out not to support HAVE; it stops being one when it is sent again. */
  datatype World = World(queue: Queue, remote: set<Want>, orphans: set<Want>)

  const START := World(NEW, {}, {})

  predicate Enabled(q: Queue, step: Step) {
    step.Send? ==> Visits(DropHaves(q, step.supportsHave), step.visit)
  }

  function Next(s: World, step: Step, limits: Limits): World
    requires Enabled(s.queue, step)
  {
    var q := s.queue;
    match step
    case CallBroadcast(ws) =>
      s.(queue := AddBroadcastWantHaves(q, ws), orphans := s.orphans + Set(ws) * q.cancels)
    case CallWants(blocks, haves) =>
      s.(queue := AddWants(q, blocks, haves), orphans := s.orphans + (Set(haves) + Set(blocks)) * q.cancels)
    case CallCancels(ws) =>
      s.(queue := AddCancels(q, ws))
    case Rebroadcast =>
      s.(queue := TransferRebroadcastWants(q))
    case Send(visit, supportsHave) =>
      AfterSend(s, Extract(q, visit, supportsHave, limits), supportsHave)
    case Stamp(peerWants, bcstWants, now) =>
      s.(queue := q.(peer := StampSent(q.peer, peerWants, now), bcst := StampSent(q.bcst, bcstWants, now)))
    case Respond(ks) =>
      s.(queue := q.(peer := q.peer.(sentAt := q.peer.sentAt - ks), bcst := q.bcst.(sentAt := q.bcst.sentAt - ks)))
  }

  function AfterSend(s: World, x: Extracted, supportsHave: bool): World {
    World(x.queue, Replay(s.remote, x.entries), s.orphans + Forgotten(s.queue, supportsHave) - Wanted(x.entries))
  }

  predicate Legal(s: World, steps: seq<Step>, limits: Limits)
    decreases |steps|
  {
    steps == [] || (Enabled(s.queue, steps[0]) && Legal(Next(s, steps[0], limits), steps[1..], limits))
  }

  function Run(s: World, steps: seq<Step>, limits: Limits): World
    requires Legal(s, steps, limits)
    decreases |steps|
  {
    if steps == [] then s else Run(Next(s, steps[0], limits), steps[1..], limits)
  }

  /** The peer has exactly the sent keys, the keys to be cancelled, and the orphans. */
  ghost predicate Accounted(s: World) {
    && Tidy(s.queue)
    && s.remote == SentKeys(s.queue) + s.queue.cancels + s.orphans
    && s.orphans !! SentKeys(s.queue) + s.queue.cancels
  }

  /** Adding wants to a pending list. */
  ghost predicate Added(q: Queue, q': Queue, ws: set<Want>) {
    && Tidy(q') && q'.cancels == q.cancels - ws
    && PendingKeys(q') == PendingKeys(q) + ws
    && q'.bcst.sent == q.bcst.sent && q'.peer.sent == q.peer.sent
  }

  lemma AddWantEffect(q: Queue, to: Target, w: Want, wantType: int32)
    requires Tidy(q) && (wantType == BLOCK || wantType == HAVE)
    ensures Added(q, AddWant(q, to, w, wantType), {w})
  {
  }

  lemma AddedMore(q: Queue, q1: Queue, q2: Queue, a: set<Want>, b: set<Want>)
    requires Added(q, q1, a) && Added(q1, q2, b)
    ensures Added(q, q2, a + b)
  {
  }

  lemma {:induction false} AddAllEffect(q: Queue, to: Target, ws: seq<Want>, wantType: int32)
    requires Tidy(q) && (wantType == BLOCK || wantType == HAVE)
    ensures Added(q, AddAll(q, to, ws, wantType), Set(ws))
    decreases |ws|
  {
    if ws != [] {
      var q1 := AddWant(q, to, ws[0], wantType);
      AddWantEffect(q, to, ws[0], wantType);
      AddAllEffect(q1, to, ws[1..], wantType);
      AddedMore(q, q1, AddAll(q1, to, ws[1..], wantType), {ws[0]}, Set(ws[1..]));
      assert ws == [ws[0]] + ws[1..];
      assert Set(ws) == {ws[0]} + Set(ws[1..]);
    }
  }

  /** A call that asks for keys withdraws their queued cancels, which leaves them orphans. */
  lemma AskedAccounted(s: World, s': World, ws: set<Want>)
    requires Accounted(s) && Tidy(s'.queue) && SentKeys(s'.queue) == SentKeys(s.queue)
    requires s'.queue.cancels == s.queue.cancels - ws && s'.remote == s.remote &&
             s'.orphans == s.orphans + ws * s.queue.cancels
    ensures Accounted(s')
  {
  }

  lemma WantsEffect(q: Queue, blocks: seq<Want>, haves: seq<Want>)
    requires Tidy(q)
    ensures var q' := AddWants(q, blocks, haves);
            && Tidy(q') && q'.cancels == q.cancels - (Set(haves) + Set(blocks)) && SentKeys(q') == SentKeys(q)
            && PendingKeys(q') == PendingKeys(q) + Set(haves) + Set(blocks)
  {
    AddAllEffect(q, Peer, haves, HAVE);
    AddAllEffect(AddAll(q, Peer, haves, HAVE), Peer, blocks, BLOCK);
  }

  lemma CallsAccounted(s: World, step: Step, limits: Limits)
    requires Accounted(s) && !step.Send?
    ensures Accounted(Next(s, step, limits))
  {
    var q := s.queue;
    match step
    case CallBroadcast(ws) =>
      AddAllEffect(q, Broadcast, ws, HAVE);
      AskedAccounted(s, Next(s, step, limits), Set(ws));
    case CallWants(blocks, haves) =>
      WantsEffect(q, blocks, haves);
      AskedAccounted(s, Next(s, step, limits), Set(haves) + Set(blocks));
    case CallCancels(ws) =>
    case Rebroadcast =>
    case Stamp(peerWants, bcstWants, now) =>
    case Respond(ks) =>
  }

  /** A message moves keys: from queued to cancelled, and from pending to sent. */
  ghost predicate Moves(q: Queue, x: Extracted, supportsHave: bool) {
    && Cancelled(x.entries) <= q.cancels && x.queue.cancels == q.cancels - Cancelled(x.entries)
    && Wanted(x.entries) <= PendingKeys(q)
    && SentKeys(x.queue) == SentKeys(q) - Forgotten(q, supportsHave) + Wanted(x.entries)
    && Tidy(x.queue)
  }

  lemma CommitMoves(q: Queue, q': Queue, d: Draft, x: Extracted, supportsHave: bool)
    requires Tidy(q') && Drafted(q', d) && Committed(q', d, x) && Says(d, supportsHave)
    requires q'.cancels == q.cancels && PendingKeys(q') <= PendingKeys(q)
    requires SentKeys(q') == SentKeys(q) - Forgotten(q, supportsHave)
    ensures Moves(q, x, supportsHave)
  {
    SaysSets(d, supportsHave, x.entries);
    assert Wants(d.peer) + Wants(d.bcst) <= PendingKeys(q');
  }

  lemma DropSets(q: Queue, supportsHave: bool)
    requires Tidy(q)
    ensures var q' := DropHaves(q, supportsHave);
            && Tidy(q') && q'.cancels == q.cancels && PendingKeys(q') <= PendingKeys(q)
            && SentKeys(q') == SentKeys(q) - Forgotten(q, supportsHave)
  {
    DropHavesTidy(q, supportsHave);
  }

  lemma SaysSets(d: Draft, supportsHave: bool, entries: Entries)
    requires Says(d, supportsHave) && Apart(d) && entries == d.entries
    ensures Cancelled(entries) == Set(d.cancels) && Wanted(entries) == Wants(d.peer) + Wants(d.bcst)
  {
  }

  lemma ExtractMoves(q: Queue, v: Visit, supportsHave: bool, limits: Limits)
    requires Tidy(q) && Visits(DropHaves(q, supportsHave), v)
    ensures Moves(q, Extract(q, v, supportsHave, limits), supportsHave)
  {
    DropSets(q, supportsHave);
    var q' := DropHaves(q, supportsHave);
    var d := MakeDraft(q', v, supportsHave, limits);
    DraftMessage(q', v, supportsHave, limits);
    DraftAsPending(q', v, supportsHave, limits);
    CommitEffect(q', d);
    CommitMoves(q, q', d, Commit(q', d), supportsHave);
  }

  lemma SendAccounted(s: World, x: Extracted, supportsHave: bool)
    requires Accounted(s) && Moves(s.queue, x, supportsHave)
    ensures Accounted(AfterSend(s, x, supportsHave))
  {
    Bookkeeping(SentKeys(s.queue), s.queue.cancels, s.orphans, Cancelled(x.entries), Wanted(x.entries),
                Forgotten(s.queue, supportsHave));
  }

  lemma Bookkeeping(sent: set<Want>, cancels: set<Want>, orphans: set<Want>,
                    c: set<Want>, w: set<Want>, f: set<Want>)
    requires sent !! cancels && orphans !! sent + cancels && c <= cancels && w !! cancels && f <= sent
    ensures (sent + cancels + orphans) - c + w == (sent - f + w) + (cancels - c) + (orphans + f - w)
    ensures (orphans + f - w) !! (sent - f + w) + (cancels - c)
  {
  }

  lemma ExtractAccounted(s: World, v: Visit, supportsHave: bool, limits: Limits)
    requires Accounted(s) && Visits(DropHaves(s.queue, supportsHave), v)
    ensures Accounted(Next(s, Send(v, supportsHave), limits))
  {
    ExtractMoves(s.queue, v, supportsHave, limits);
    SendAccounted(s, Extract(s.queue, v, supportsHave, limits), supportsHave);
  }

  lemma StepAccounted(s: World, step: Step, limits: Limits)
    requires Accounted(s) && Enabled(s.queue, step)
    ensures Accounted(Next(s, step, limits))
  {
    match step
    case Send(visit, supportsHave) => ExtractAccounted(s, visit, supportsHave, limits);
    case _ => CallsAccounted(s, step, limits);
  }

  /** In every run the peer's wantlist is accounted for. */
  lemma {:induction false} RunAccounted(s: World, steps: seq<Step>, limits: Limits)
    requires Accounted(s) && Legal(s, steps, limits)
    ensures Accounted(Run(s, steps, limits))
    decreases |steps|
  {
    if steps != [] {
      StepAccounted(s, steps[0], limits);
      RunAccounted(Next(s, steps[0], limits), steps[1..], limits);
    }
  }

  /** Everything recorded as sent or to be cancelled is known to the peer, and the peer knows
      nothing else exactly when there are no orphans. */
  lemma RemoteView(steps: seq<Step>, limits: Limits)
    requires Legal(START, steps, limits)
    ensures var s := Run(START, steps, limits);
            && SentKeys(s.queue) + s.queue.cancels <= s.remote
            && (s.remote == SentKeys(s.queue) + s.queue.cancels <==> s.orphans == {})
  {
    RunAccounted(START, steps, limits);
  }

  /** A step that re-adds no key whose cancel is queued, with HAVE support fixed at `supported`. */
  predicate Careful(q: Queue, step: Step, supported: bool) {
    match step
    case CallBroadcast(ws) => Set(ws) !! q.cancels
    case CallWants(blocks, haves) => Set(blocks) + Set(haves) !! q.cancels
    case Send(_, supportsHave) => supportsHave == supported
    case _ => true
  }

  predicate AllCareful(s: World, steps: seq<Step>, supported: bool, limits: Limits)
    requires Legal(s, steps, limits)
    decreases |steps|
  {
    steps == [] || (Careful(s.queue, steps[0], supported) &&
                    AllCareful(Next(s, steps[0], limits), steps[1..], supported, limits))
  }

  predicate AllBlocks(wl: Wantlist) { forall w :: w in wl ==> wl[w].wantType == BLOCK }

  /** Without HAVE support no want-have of the peer is ever recorded as sent. */
  predicate SentAsSupported(q: Queue, supported: bool) { supported || AllBlocks(q.peer.sent) }

  lemma {:induction false} MarkAllBlocks(r: Recall, es: seq<Listed>, entries: Entries)
    requires AllBlocks(r.sent) && forall e :: e in es ==> e.item.wantType == BLOCK
    ensures AllBlocks(MarkAll(r, es, entries).list.sent)
    decreases |es|
  {
    if es != [] {
      var e := es[0];
      assert e in es && forall x :: x in es[1..] ==> x in es;
      if Removable(r.pending, e.want, e.item.wantType) {
        var sent := Add(r.sent, e.want, e.item.priority, e.item.wantType);
        MarkAllBlocks(r.(pending := r.pending - {e.want}, sent := sent), es[1..], entries);
      } else {
        MarkAllBlocks(r, es[1..], entries - {e.want});
      }
    }
  }

  lemma ExtractKeepsSupport(q: Queue, v: Visit, supported: bool, limits: Limits)
    requires Tidy(q) && SentAsSupported(q, supported) && Visits(DropHaves(q, supported), v)
    ensures SentAsSupported(Extract(q, v, supported, limits).queue, supported) && Forgotten(q, supported) == {}
  {
    if !supported {
      DropHavesTidy(q, supported);
      var q' := DropHaves(q, supported);
      var d := MakeDraft(q', v, supported, limits);
      DraftAsPending(q', v, supported, limits);
      assert AllBlocks(q'.peer.pending) && AllBlocks(q'.peer.sent);
      MarkAllBlocks(q'.peer, d.peer, d.entries);
    }
  }

  lemma {:induction false} AddAllKeepsSent(q: Queue, to: Target, ws: seq<Want>, wantType: int32)
    ensures AddAll(q, to, ws, wantType).peer.sent == q.peer.sent
    decreases |ws|
  {
    if ws != [] {
      AddAllKeepsSent(AddWant(q, to, ws[0], wantType), to, ws[1..], wantType);
    }
  }

  lemma CarefulStep(s: World, step: Step, supported: bool, limits: Limits)
    requires Accounted(s) && s.orphans == {} && SentAsSupported(s.queue, supported)
    requires Enabled(s.queue, step) && Careful(s.queue, step, supported)
    ensures var s' := Next(s, step, limits); s'.orphans == {} && SentAsSupported(s'.queue, supported)
  {
    match step
    case CallBroadcast(ws) => AddAllKeepsSent(s.queue, Broadcast, ws, HAVE);
    case CallWants(blocks, haves) =>
      AddAllKeepsSent(s.queue, Peer, haves, HAVE);
      AddAllKeepsSent(AddAll(s.queue, Peer, haves, HAVE), Peer, blocks, BLOCK);
    case Send(visit, supportsHave) => ExtractKeepsSupport(s.queue, visit, supported, limits);
    case _ =>
  }

  /** In runs that never re-add a key whose cancel is still queued, the peer's wantlist is exactly
      what the queue believes it to be. */
  lemma {:induction false} CarefulRunExact(s: World, steps: seq<Step>, supported: bool, limits: Limits)
    requires Accounted(s) && s.orphans == {} && SentAsSupported(s.queue, supported)
    requires Legal(s, steps, limits) && AllCareful(s, steps, supported, limits)
    ensures var s' := Run(s, steps, limits); s'.remote == SentKeys(s'.queue) + s'.queue.cancels
    decreases |steps|
  {
    if steps != [] {
      StepAccounted(s, steps[0], limits);
      CarefulStep(s, steps[0], supported, limits);
      CarefulRunExact(Next(s, steps[0], limits), steps[1..], supported, limits);
    }
  }

  /** The peer has a key that the queue knows nothing about any more. */
  ghost predicate Leaked(s: World, w: Want) {
    w in s.orphans && w !in PendingKeys(s.queue)
  }

  /** A want that was sent, then cancelled, wanted again before the cancel went out, and cancelled
      once more is leaked: no cancel for it is queued. */
  lemma WithdrawnCancelLeaks(s: World, w: Want, limits: Limits)
    requires Accounted(s) && w in SentKeys(s.queue)
    ensures var s' := Next(Next(Next(s, CallCancels([w]), limits), CallWants([w], []), limits), CallCancels([w]),
                           limits);
            Leaked(s', w) && w in s'.remote && w !in s'.queue.cancels
  {
    var s1 := Next(s, CallCancels([w]), limits);
    StepAccounted(s, CallCancels([w]), limits);
    assert w in s1.queue.cancels;
    var s2 := Next(s1, CallWants([w], []), limits);
    StepAccounted(s1, CallWants([w], []), limits);
    assert w in s2.orphans;
    StepAccounted(s2, CallCancels([w]), limits);
  }

  predicate Readds(step: Step, w: Want) {
    match step
    case CallBroadcast(ws) => w in ws
    case CallWants(blocks, haves) => w in blocks || w in haves
    case _ => false
  }

  lemma LeakStays(s: World, step: Step, w: Want, limits: Limits)
    requires Accounted(s) && Leaked(s, w) && Enabled(s.queue, step) && !Readds(step, w)
    ensures Leaked(Next(s, step, limits), w)
  {
    var q := s.queue;
    match step
    case CallBroadcast(ws) => AddAllEffect(q, Broadcast, ws, HAVE);
    case CallWants(blocks, haves) =>
      WantsEffect(q, blocks, haves);
    case Send(visit, supportsHave) => LeakStaysOnSend(s, visit, supportsHave, w, limits);
    case _ =>
  }

  lemma LeakStaysOnSend(s: World, v: Visit, supportsHave: bool, w: Want, limits: Limits)
    requires Accounted(s) && Leaked(s, w) && Visits(DropHaves(s.queue, supportsHave), v)
    ensures Leaked(Next(s, Send(v, supportsHave), limits), w)
  {
    ExtractMoves(s.queue, v, supportsHave, limits);
    ExtractShrinks(s.queue, v, supportsHave, limits);
  }

  lemma ExtractShrinks(q: Queue, v: Visit, supportsHave: bool, limits: Limits)
    requires Tidy(q) && Visits(DropHaves(q, supportsHave), v)
    ensures PendingKeys(Extract(q, v, supportsHave, limits).queue) <= PendingKeys(q)
  {
    DropHavesTidy(q, supportsHave);
    var q' := DropHaves(q, supportsHave);
    DraftAsPending(q', v, supportsHave, limits);
    CommitEffect(q', MakeDraft(q', v, supportsHave, limits));
  }

  /** A leaked key stays in the peer's wantlist until it is wanted again. */
  lemma {:induction false} LeakIsPermanent(s: World, steps: seq<Step>, w: Want, limits: Limits)
    requires Accounted(s) && Leaked(s, w) && Legal(s, steps, limits)
    requires forall step :: step in steps ==> !Readds(step, w)
    ensures var s' := Run(s, steps, limits); Leaked(s', w) && w in s'.remote
    decreases |steps|
  {
    if steps != [] {
      assert steps[0] in steps && forall step :: step in steps[1..] ==> step in steps;
      StepAccounted(s, steps[0], limits);
      LeakStays(s, steps[0], w, limits);
      LeakIsPermanent(Next(s, steps[0], limits), steps[1..], w, limits);
    }
  }
}
