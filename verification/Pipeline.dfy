/** The manager, the queue of a peer and the peer's own view, end to end: the manager's calls reach
    the queue in order, the queue cuts messages between them, the peer replays the messages. */
module Pipeline {
  import opened Basics
  import BitswapMessage
  import opened MessageQueue
  import PW = PeerWants
  import RV = RemoteView

  function CallOf(step: RV.Step): seq<PW.Call> {
    match step
    case CallBroadcast(ws) => [PW.AddBroadcastWantHaves(ws)]
    case CallWants(blocks, haves) => [PW.AddWants(blocks, haves)]
    case CallCancels(ws) => [PW.AddCancels(ws)]
    case _ => []
  }

  /** The calls among the steps of a queue. */
  function CallsOf(steps: seq<RV.Step>): seq<PW.Call> {
    if steps == [] then [] else CallOf(steps[0]) + CallsOf(steps[1..])
  }

  /** The keys that the queue still works for. */
  function Keys(q: Queue): set<Want> { PendingKeys(q) + SentKeys(q) }

  /** The keys that the queue gives up because the peer does not support HAVE. */
  function GivenUp(q: Queue, supportsHave: bool): set<Want> { Keys(q) - Keys(DropHaves(q, supportsHave)) }

  function Named(step: RV.Step): set<Want> {
    match step
    case CallBroadcast(ws) => Set(ws)
    case CallWants(blocks, haves) => Set(blocks) + Set(haves)
    case CallCancels(ws) => Set(ws)
    case _ => {}
  }

  /** The lost keys: given up when a message was cut, and not named by a call since. */
  function NextLost(q: Queue, step: RV.Step, lost: set<Want>): set<Want> {
    if step.Send? then lost + GivenUp(q, step.supportsHave) else lost - Named(step)
  }

  function Lost(s: RV.World, steps: seq<RV.Step>, limits: Limits, lost: set<Want>): set<Want>
    requires RV.Legal(s, steps, limits)
    decreases |steps|
  {
    if steps == [] then lost
    else Lost(RV.Next(s, steps[0], limits), steps[1..], limits, NextLost(s.queue, steps[0], lost))
  }

  /** Every message is cut for a peer that supports HAVE. */
  predicate Supported(steps: seq<RV.Step>) {
    forall i :: 0 <= i < |steps| && steps[i].Send? ==> steps[i].supportsHave
  }

  lemma {:induction false} NothingLost(s: RV.World, steps: seq<RV.Step>, limits: Limits)
    requires RV.Legal(s, steps, limits) && Supported(steps)
    ensures Lost(s, steps, limits, {}) == {}
    decreases |steps|
  {
    if steps != [] {
      assert NextLost(s.queue, steps[0], {}) == {};
      NothingLost(RV.Next(s, steps[0], limits), steps[1..], limits);
    }
  }

  lemma SendKeepsKeys(q: Queue, v: Visit, supportsHave: bool, limits: Limits)
    requires Tidy(q) && Visits(DropHaves(q, supportsHave), v)
    ensures Keys(Extract(q, v, supportsHave, limits).queue) == Keys(DropHaves(q, supportsHave))
  {
    var q' := DropHaves(q, supportsHave);
    DropHavesTidy(q, supportsHave);
    var d := MakeDraft(q', v, supportsHave, limits);
    DraftAsPending(q', v, supportsHave, limits);
    CommitEffect(q', d);
    CommitKeepsKeys(q', d, Commit(q', d));
  }

  lemma CommitKeepsKeys(q: Queue, d: Draft, x: Extracted)
    requires Drafted(q, d) && Committed(q, d, x)
    ensures Keys(x.queue) == Keys(q)
  {
    assert Wants(d.peer) <= q.peer.pending.Keys && Wants(d.bcst) <= q.bcst.pending.Keys;
    assert PendingKeys(x.queue) + Wants(d.peer) + Wants(d.bcst) == PendingKeys(q);
  }

  lemma CancelKeys(q: Queue, ws: seq<Want>)
    ensures Keys(AddCancels(q, ws)) == Keys(q) - Set(ws)
  {
  }

  lemma WantKeys(q: Queue, blocks: seq<Want>, haves: seq<Want>)
    requires Tidy(q)
    ensures Keys(AddWants(q, blocks, haves)) == Keys(q) + Set(blocks) + Set(haves)
  {
    RV.AddAllEffect(q, Peer, haves, BitswapMessage.HAVE);
    RV.AddAllEffect(AddAll(q, Peer, haves, BitswapMessage.HAVE), Peer, blocks, BitswapMessage.BLOCK);
  }

  lemma BroadcastKeys(q: Queue, ws: seq<Want>)
    requires Tidy(q)
    ensures Keys(AddBroadcastWantHaves(q, ws)) == Keys(q) + Set(ws)
  {
    RV.AddAllEffect(q, Broadcast, ws, BitswapMessage.HAVE);
  }

  /** The queue works for exactly the keys that the calls add up to, without the lost ones, and
      only such keys are lost. */
  ghost predicate Explained(q: Queue, calls: seq<PW.Call>, lost: set<Want>) {
    Keys(q) == PW.Replay(calls) - lost && lost <= PW.Replay(calls)
  }

  lemma AskedFor(q: Queue, calls: seq<PW.Call>, call: PW.Call, lost: set<Want>, ws: set<Want>, q': Queue)
    requires Explained(q, calls, lost) && Keys(q') == Keys(q) + ws
    requires PW.After(PW.Replay(calls), call) == PW.Replay(calls) + ws
    ensures Explained(q', calls + [call], lost - ws)
  {
    PW.ReplayLast(calls, call);
  }

  lemma Withdrawn(q: Queue, calls: seq<PW.Call>, ws: seq<Want>, lost: set<Want>)
    requires Explained(q, calls, lost)
    ensures Explained(AddCancels(q, ws), calls + [PW.AddCancels(ws)], lost - Set(ws))
  {
    CancelKeys(q, ws);
    PW.ReplayLast(calls, PW.AddCancels(ws));
  }

  /** The keys change with the calls as the manager expects. */
  lemma CallKeys(s: RV.World, step: RV.Step, limits: Limits, calls: seq<PW.Call>, lost: set<Want>)
    requires Tidy(s.queue) && !step.Send? && Explained(s.queue, calls, lost)
    ensures Explained(RV.Next(s, step, limits).queue, calls + CallOf(step), lost - Named(step))
  {
    var q := s.queue;
    match step
    case CallBroadcast(ws) =>
      BroadcastKeys(q, ws);
      AskedFor(q, calls, PW.AddBroadcastWantHaves(ws), lost, Set(ws), AddBroadcastWantHaves(q, ws));
    case CallWants(blocks, haves) =>
      WantKeys(q, blocks, haves);
      AskedFor(q, calls, PW.AddWants(blocks, haves), lost, Set(blocks) + Set(haves), AddWants(q, blocks, haves));
    case CallCancels(ws) => Withdrawn(q, calls, ws, lost);
    case Rebroadcast =>
      assert Keys(TransferRebroadcastWants(q)) == Keys(q);
      assert calls + [] == calls && lost - {} == lost;
    case Stamp(_, _, _) => assert calls + [] == calls && lost - {} == lost;
    case Respond(_) => assert calls + [] == calls && lost - {} == lost;
  }

  lemma SendKeys(q: Queue, v: Visit, supportsHave: bool, limits: Limits, calls: seq<PW.Call>, lost: set<Want>)
    requires Tidy(q) && Visits(DropHaves(q, supportsHave), v) && Explained(q, calls, lost)
    ensures Explained(Extract(q, v, supportsHave, limits).queue, calls, lost + GivenUp(q, supportsHave))
  {
    SendKeepsKeys(q, v, supportsHave, limits);
    assert Keys(DropHaves(q, supportsHave)) <= Keys(q);
  }

  lemma StepKeys(s: RV.World, step: RV.Step, limits: Limits, calls: seq<PW.Call>, lost: set<Want>)
    requires RV.Accounted(s) && RV.Enabled(s.queue, step) && Explained(s.queue, calls, lost)
    ensures Explained(RV.Next(s, step, limits).queue, calls + CallOf(step), NextLost(s.queue, step, lost))
  {
    if step.Send? {
      SendKeys(s.queue, step.visit, step.supportsHave, limits, calls, lost);
      assert calls + [] == calls;
    } else {
      CallKeys(s, step, limits, calls, lost);
    }
  }

  lemma CallsSplit(steps: seq<RV.Step>, calls: seq<PW.Call>)
    requires steps != []
    ensures calls + CallOf(steps[0]) + CallsOf(steps[1..]) == calls + CallsOf(steps)
  {
  }

  /** In every run the queue works for exactly the keys that the calls add up to, without those lost
      to a peer that does not support HAVE. */
  lemma {:induction false} QueueKeys(s: RV.World, steps: seq<RV.Step>, limits: Limits,
                                     calls: seq<PW.Call>, lost: set<Want>)
    requires RV.Accounted(s) && RV.Legal(s, steps, limits) && Explained(s.queue, calls, lost)
    ensures Explained(RV.Run(s, steps, limits).queue, calls + CallsOf(steps), Lost(s, steps, limits, lost))
    decreases |steps|
  {
    if steps == [] {
      assert calls + [] == calls;
    } else {
      StepKeys(s, steps[0], limits, calls, lost);
      RV.StepAccounted(s, steps[0], limits);
      CallsSplit(steps, calls);
      QueueKeys(RV.Next(s, steps[0], limits), steps[1..], limits, calls + CallOf(steps[0]),
                NextLost(s.queue, steps[0], lost));
    }
  }

  lemma NothingQueued(s: RV.World, view: set<Want>)
    requires RV.Accounted(s) && Keys(s.queue) == view && Work(s.queue) == 0
    ensures s.remote == view + s.orphans && SentKeys(s.queue) + s.queue.cancels == view
  {
    assert s.queue.peer.pending.Keys == {} && s.queue.bcst.pending.Keys == {} && s.queue.cancels == {};
  }

  /** For a queue that got the calls of `calls`, with messages cut in between: it works for exactly
      the keys that the calls add up to, without the lost ones, and once it has no work left the
      peer's own wantlist is exactly those keys and the orphans. */
  lemma QueueToPeer(steps: seq<RV.Step>, calls: seq<PW.Call>, supported: bool, limits: Limits)
    requires RV.Legal(RV.START, steps, limits) && CallsOf(steps) == calls
    ensures var s, lost := RV.Run(RV.START, steps, limits), Lost(RV.START, steps, limits, {});
            && Explained(s.queue, calls, lost)
            && (Work(s.queue) == 0 ==> s.remote == PW.Replay(calls) - lost + s.orphans)
            && (Work(s.queue) == 0 && RV.AllCareful(RV.START, steps, supported, limits) ==>
                  s.remote == PW.Replay(calls) - lost)
  {
    var s, lost := RV.Run(RV.START, steps, limits), Lost(RV.START, steps, limits, {});
    QueueKeys(RV.START, steps, limits, [], {});
    assert [] + CallsOf(steps) == CallsOf(steps);
    RV.RunAccounted(RV.START, steps, limits);
    if Work(s.queue) == 0 {
      NothingQueued(s, PW.Replay(calls) - lost);
      if RV.AllCareful(RV.START, steps, supported, limits) {
        RV.CarefulRunExact(RV.START, steps, supported, limits);
      }
    }
  }

  /** Whatever the manager did, the queue of a peer works for exactly the keys the manager believes
      to have asked the peer for, without those lost because the peer does not support HAVE. Once it
      has no work left, the peer's own wantlist is exactly those keys and the orphans: none if no
      key was wanted again while its cancel was queued and HAVE support never changed. */
  lemma EndToEnd(manager: seq<PW.Step>, p: Peer, steps: seq<RV.Step>, supported: bool, limits: Limits)
    requires PW.Legal(PW.NEW, manager) && p in PW.Run(PW.NEW, manager).peers
    requires RV.Legal(RV.START, steps, limits)
    requires CallsOf(steps) == PW.Run(PW.NEW, manager).peers[p].calls
    ensures var m, s := PW.Run(PW.NEW, manager), RV.Run(RV.START, steps, limits);
            var view, lost := PW.View(m, m.peers[p]), Lost(RV.START, steps, limits, {});
            && Keys(s.queue) == view - lost && lost <= view
            && (Work(s.queue) == 0 ==> s.remote == view - lost + s.orphans)
            && (Work(s.queue) == 0 && RV.AllCareful(RV.START, steps, supported, limits) ==> s.remote == view - lost)
  {
    PW.GaugesExactly(manager);
    QueueToPeer(steps, PW.Run(PW.NEW, manager).peers[p].calls, supported, limits);
  }

  /** With HAVE support nothing is lost: the queue works for the manager's view of the peer, and the
      peer ends up with it. */
  lemma EndToEndSupported(manager: seq<PW.Step>, p: Peer, steps: seq<RV.Step>, limits: Limits)
    requires PW.Legal(PW.NEW, manager) && p in PW.Run(PW.NEW, manager).peers
    requires RV.Legal(RV.START, steps, limits) && Supported(steps)
    requires CallsOf(steps) == PW.Run(PW.NEW, manager).peers[p].calls
    ensures var m, s := PW.Run(PW.NEW, manager), RV.Run(RV.START, steps, limits);
            var view := PW.View(m, m.peers[p]);
            && Keys(s.queue) == view
            && (Work(s.queue) == 0 ==> s.remote == view + s.orphans)
            && (Work(s.queue) == 0 && RV.AllCareful(RV.START, steps, true, limits) ==> s.remote == view)
  {
    EndToEnd(manager, p, steps, true, limits);
    NothingLost(RV.START, steps, limits);
  }

  /** The lost keys are want-haves that only the peer list knows: a key given up is neither a
      broadcast nor wanted or sent as a want-block. */
  lemma GivenUpExactly(q: Queue, w: Want)
    requires Tidy(q)
    ensures GivenUp(q, true) == {}
    ensures w in GivenUp(q, false) <==>
            && w in Unsupported(q) && w !in q.bcst.pending && w !in q.bcst.sent
            && (w in q.peer.sent ==> q.peer.sent[w].wantType == BitswapMessage.HAVE)
  {
  }
}
