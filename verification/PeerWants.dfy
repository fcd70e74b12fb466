/** Which wants have been sent to which peer (internal/peermanager/peerwantmanager.go): the wants
    of each peer, the reverse index, the broadcast wants, the gauges, and the calls made to each
    peer's queue. */
module PeerWants {
  import opened Basics

  /** A call to the queue of a peer. */
  datatype Call =
    | AddBroadcastWantHaves(ws: seq<Want>)
    | AddWants(blocks: seq<Want>, haves: seq<Want>)
    | AddCancels(ws: seq<Want>)

  datatype PeerWant = PeerWant(blocks: set<Want>, haves: set<Want>, calls: seq<Call>)

  datatype State = State(
    peers: map<Peer, PeerWant>,
    index: map<Want, set<Peer>>,
    bcst: set<Want>,
    wants: int,
    wantBlocks: int)

  const NEW := State(map[], map[], {}, 0, 0)

  function Set(ws: seq<Want>): set<Want> { set w | w in ws }

  /** The keys that a queue was asked for, after one more call. */
  function After(before: set<Want>, call: Call): set<Want> {
    match call
    case AddBroadcastWantHaves(ws) => before + Set(ws)
    case AddWants(bs, hs) => before + Set(bs) + Set(hs)
    case AddCancels(ws) => before - Set(ws)
  }

  /** The keys that the queue of a peer has been asked for and that were not cancelled since. */
  function Replay(calls: seq<Call>): set<Want> {
    if calls == [] then {} else After(Replay(calls[..|calls| - 1]), calls[|calls| - 1])
  }

  function Targeted(pw: PeerWant): set<Want> { pw.blocks + pw.haves }

  /** What the manager believes to have asked a peer for. */
  function View(s: State, pw: PeerWant): set<Want> { s.bcst + Targeted(pw) }

  function IndexOf(s: State, w: Want): set<Peer> { if w in s.index then s.index[w] else {} }

  /** `getWants`. */
  function Wanted(s: State): set<Want> { s.bcst + s.index.Keys }

  /** `getWantBlocks`. */
  function Blocks(s: State): set<Want> { set p, w | p in s.peers && w in s.peers[p].blocks :: w }

  // ---------------------------------------------------------------------------------------
  // The operations
  // ---------------------------------------------------------------------------------------

  /** The elements of `ws` that are in `keep`. */
  function Only(ws: seq<Want>, keep: set<Want>): seq<Want> {
    if ws == [] then []
    else
      var n := |ws| - 1;
      var r := Only(ws[..n], keep);
      if ws[n] in keep then r + [ws[n]] else r
  }

  lemma {:induction false} OnlySet(ws: seq<Want>, keep: set<Want>)
    ensures Set(Only(ws, keep)) == Set(ws) * keep
  {
    if ws != [] {
      var n := |ws| - 1;
      OnlySet(ws[..n], keep);
      assert ws == ws[..n] + [ws[n]];
      assert forall w :: w in Only(ws[..n], keep) <==> w in Set(Only(ws[..n], keep));
    }
  }

  /** The first occurrences of the elements of `ws` that are not in `seen`. */
  function Unseen(ws: seq<Want>, seen: set<Want>): seq<Want> {
    if ws == [] then []
    else
      var n := |ws| - 1;
      var r := Unseen(ws[..n], seen);
      if ws[n] in seen || ws[n] in ws[..n] then r else r + [ws[n]]
  }

  lemma {:induction false} UnseenSet(ws: seq<Want>, seen: set<Want>)
    ensures Set(Unseen(ws, seen)) == Set(ws) - seen
  {
    if ws != [] {
      var n := |ws| - 1;
      UnseenSet(ws[..n], seen);
      assert ws == ws[..n] + [ws[n]];
      assert forall w :: w in Unseen(ws[..n], seen) <==> w in Set(Unseen(ws[..n], seen));
    }
  }

  predicate NoRepeat(ws: seq<Want>) { forall i, j :: 0 <= i < j < |ws| ==> ws[i] != ws[j] }

  lemma {:induction false} UnseenOnce(ws: seq<Want>, seen: set<Want>)
    ensures NoRepeat(Unseen(ws, seen))
  {
    if ws != [] {
      var n := |ws| - 1;
      UnseenOnce(ws[..n], seen);
      UnseenSet(ws[..n], seen);
      var r := Unseen(ws[..n], seen);
      assert forall i :: 0 <= i < |r| ==> r[i] in Set(r);
    }
  }

  /** A peer that is new is told the broadcast wants, in some order. */
  predicate Enumerates(order: seq<Want>, ws: set<Want>) {
    Set(order) == ws && NoRepeat(order)
  }

  function AddPeer(s: State, p: Peer, order: seq<Want>): State {
    if p in s.peers then s
    else s.(peers := s.peers[p := PeerWant({}, {}, if order == [] then [] else [AddBroadcastWantHaves(order)])])
  }

  function Unindex(s: State, p: Peer): map<Want, set<Peer>> {
    map w | w in s.index && s.index[w] - {p} != {} :: s.index[w] - {p}
  }

  function RemovePeer(s: State, p: Peer): State {
    if p !in s.peers then s
    else
      var s' := s.(peers := s.peers - {p}, index := Unindex(s, p));
      s'.(wants := s.wants - |Targeted(s.peers[p]) - Wanted(s')|,
          wantBlocks := s.wantBlocks - |s.peers[p].blocks - Blocks(s')|)
  }

  /** The peers of a broadcast: those to whom some of `unsent` has not been sent already. */
  function Broadcast(pw: PeerWant, unsent: seq<Want>): PeerWant {
    var ws := Only(unsent, Set(unsent) - Targeted(pw));
    if ws == [] then pw else pw.(calls := pw.calls + [AddBroadcastWantHaves(ws)])
  }

  function BroadcastWantHaves(s: State, ws: seq<Want>): State {
    var unsent := Unseen(ws, s.bcst);
    s.(bcst := s.bcst + Set(ws),
       peers := map p | p in s.peers :: Broadcast(s.peers[p], unsent),
       wants := s.wants + |Set(unsent) - s.index.Keys|)
  }

  /** The want-blocks and want-haves that have not been sent to the peer. A want-block replaces a
      want-have; a want-have is not sent for a broadcast want. */
  function NewBlocks(pw: PeerWant, bs: seq<Want>): seq<Want> { Unseen(bs, pw.blocks) }

  function NewHaves(s: State, pw: PeerWant, bs: seq<Want>, hs: seq<Want>): seq<Want> {
    Unseen(hs, s.bcst + Targeted(pw) + Set(bs))
  }

  function Reindex(s: State, p: Peer, ws: set<Want>): map<Want, set<Peer>> {
    map w | w in s.index.Keys + ws :: IndexOf(s, w) + if w in ws then {p} else {}
  }

  /** The wants of the peer itself after `sendWants`. */
  function Asked(pw: PeerWant, blocks: seq<Want>, haves: seq<Want>): PeerWant {
    PeerWant(pw.blocks + Set(blocks), pw.haves - Set(blocks) + Set(haves), pw.calls + [AddWants(blocks, haves)])
  }

  function SendWants(s: State, p: Peer, bs: seq<Want>, hs: seq<Want>): State {
    if p !in s.peers then s
    else
      var pw := s.peers[p];
      var blocks, haves := NewBlocks(pw, bs), NewHaves(s, pw, bs, hs);
      var added := Set(blocks) + Set(haves);
      s.(peers := s.peers[p := Asked(pw, blocks, haves)],
         index := Reindex(s, p, added),
         wants := s.wants + |added - Wanted(s)|,
         wantBlocks := s.wantBlocks + |Set(blocks) - Blocks(s)|)
  }

  /** What a peer is told to cancel: broadcast wants first. */
  function CancelsFor(s: State, pw: PeerWant, ks: seq<Want>): seq<Want> {
    Only(ks, s.bcst) + Unseen(ks, Set(ks) - Targeted(pw) + s.bcst)
  }

  function Cancel(s: State, pw: PeerWant, ks: seq<Want>): PeerWant {
    var ws := CancelsFor(s, pw, ks);
    PeerWant(pw.blocks - Set(ks), pw.haves - Set(ks), if ws == [] then pw.calls else pw.calls + [AddCancels(ws)])
  }

  function SendCancels(s: State, ks: seq<Want>): State {
    State(map p | p in s.peers :: Cancel(s, s.peers[p], ks),
          s.index - Set(ks),
          s.bcst - Set(ks),
          s.wants - |Only(ks, Wanted(s))|,
          s.wantBlocks - |Only(ks, Blocks(s))|)
  }

  datatype Step =
    | StepAddPeer(p: Peer, order: seq<Want>)
    | StepRemovePeer(p: Peer)
    | StepBroadcast(ws: seq<Want>)
    | StepSendWants(p: Peer, blocks: seq<Want>, haves: seq<Want>)
    | StepSendCancels(ks: seq<Want>)

  predicate Enabled(s: State, step: Step) { step.StepAddPeer? ==> Enumerates(step.order, s.bcst) }

  function Next(s: State, step: Step): State {
    match step
    case StepAddPeer(p, order) => AddPeer(s, p, order)
    case StepRemovePeer(p) => RemovePeer(s, p)
    case StepBroadcast(ws) => BroadcastWantHaves(s, ws)
    case StepSendWants(p, blocks, haves) => SendWants(s, p, blocks, haves)
    case StepSendCancels(ks) => SendCancels(s, ks)
  }

  // ---------------------------------------------------------------------------------------
  // What every operation keeps
  // ---------------------------------------------------------------------------------------

  /** A peer is in the index for a key exactly when the key is among its wants, and no index entry
      is empty. */
  ghost predicate Indexed(s: State) {
    && (forall w, p :: p in IndexOf(s, w) <==> p in s.peers && w in Targeted(s.peers[p]))
    && (forall w :: w in s.index ==> s.index[w] != {})
  }

  predicate Disjoint(s: State) { forall p :: p in s.peers ==> s.peers[p].blocks !! s.peers[p].haves }

  /** Want-haves are only asked for if the queue does not have the key, cancels only if it has, and
      a call for broadcast wants or cancels is not empty. */
  predicate Useful(before: set<Want>, call: Call) {
    match call
    case AddBroadcastWantHaves(ws) => ws != [] && Set(ws) !! before
    case AddWants(bs, hs) => Set(hs) !! before && Set(hs) !! Set(bs)
    case AddCancels(ws) => ws != [] && Set(ws) <= before
  }

  /** A log without a redundant call. */
  predicate Frugal(calls: seq<Call>) {
    calls == [] || (var init := calls[..|calls| - 1]; Frugal(init) && Useful(Replay(init), calls[|calls| - 1]))
  }

  /** The calls made to the queue of each peer add up to what the manager believes. */
  predicate InStep(s: State) {
    forall p :: p in s.peers ==> Replay(s.peers[p].calls) == View(s, s.peers[p]) && Frugal(s.peers[p].calls)
  }

  ghost predicate Valid(s: State) { Indexed(s) && Disjoint(s) && InStep(s) }

  lemma ReplayLast(calls: seq<Call>, call: Call)
    ensures Replay(calls + [call]) == After(Replay(calls), call)
    ensures Frugal(calls + [call]) <==> Frugal(calls) && Useful(Replay(calls), call)
  {
    assert (calls + [call])[..|calls|] == calls;
  }

  // ---- addPeer ----

  lemma GreetingUseful(order: seq<Want>, ws: set<Want>, calls: seq<Call>)
    requires Enumerates(order, ws) && calls == if order == [] then [] else [AddBroadcastWantHaves(order)]
    ensures Replay(calls) == ws && Frugal(calls)
  {
    if order != [] {
      ReplayLast([], AddBroadcastWantHaves(order));
      assert [] + [AddBroadcastWantHaves(order)] == calls;
    }
  }

  lemma NewPeerIndexed(s: State, s': State, p: Peer)
    requires Indexed(s) && p !in s.peers && s'.index == s.index
    requires p in s'.peers && s'.peers == s.peers[p := s'.peers[p]] && Targeted(s'.peers[p]) == {}
    ensures Indexed(s')
  {
    forall w, x ensures x in IndexOf(s', w) <==> x in s'.peers && w in Targeted(s'.peers[x]) {
      assert x in IndexOf(s', w) <==> x in IndexOf(s, w);
    }
  }

  lemma AddPeerValid(s: State, p: Peer, order: seq<Want>)
    requires Valid(s) && Enumerates(order, s.bcst)
    ensures Valid(AddPeer(s, p, order))
  {
    if p !in s.peers {
      var s' := AddPeer(s, p, order);
      NewPeerIndexed(s, s', p);
      GreetingUseful(order, s.bcst, s'.peers[p].calls);
    }
  }

  // ---- removePeer ----

  lemma UnindexIndexed(s: State, s': State, p: Peer)
    requires Indexed(s) && s'.index == Unindex(s, p) && s'.peers == s.peers - {p}
    ensures Indexed(s')
  {
    forall w, x ensures x in IndexOf(s', w) <==> x in s'.peers && w in Targeted(s'.peers[x]) {
      assert x in IndexOf(s', w) <==> x in IndexOf(s, w) && x != p;
    }
  }

  lemma RemovePeerValid(s: State, p: Peer)
    requires Valid(s)
    ensures Valid(RemovePeer(s, p))
  {
    if p in s.peers { UnindexIndexed(s, RemovePeer(s, p), p); }
  }

  // ---- broadcastWantHaves ----

  lemma BroadcastOne(s: State, pw: PeerWant, ws: seq<Want>, unsent: seq<Want>)
    requires Replay(pw.calls) == View(s, pw) && Frugal(pw.calls) && unsent == Unseen(ws, s.bcst)
    ensures var pw' := Broadcast(pw, unsent);
            Replay(pw'.calls) == s.bcst + Set(ws) + Targeted(pw') && Frugal(pw'.calls)
  {
    var ps := Only(unsent, Set(unsent) - Targeted(pw));
    ReplayLast(pw.calls, AddBroadcastWantHaves(ps));
    OnlySet(unsent, Set(unsent) - Targeted(pw));
    UnseenSet(ws, s.bcst);
    assert Set(ps) == Set(ws) - s.bcst - Targeted(pw);
  }

  lemma SameIndexed(s: State, s': State)
    requires Indexed(s) && s'.index == s.index && s'.peers.Keys == s.peers.Keys
    requires forall p :: p in s.peers ==> Targeted(s'.peers[p]) == Targeted(s.peers[p])
    ensures Indexed(s')
  {
    forall w, p ensures p in IndexOf(s', w) <==> p in s'.peers && w in Targeted(s'.peers[p]) {
      assert p in IndexOf(s', w) <==> p in IndexOf(s, w);
    }
  }

  lemma ToldValid(s: State, s': State, ws: seq<Want>, unsent: seq<Want>)
    requires Valid(s) && unsent == Unseen(ws, s.bcst) && s'.index == s.index && s'.bcst == s.bcst + Set(ws)
    requires s'.peers == map p | p in s.peers :: Broadcast(s.peers[p], unsent)
    ensures Valid(s')
  {
    forall p | p in s.peers
      ensures Replay(s'.peers[p].calls) == View(s', s'.peers[p]) && Frugal(s'.peers[p].calls)
    {
      BroadcastOne(s, s.peers[p], ws, unsent);
    }
    SameIndexed(s, s');
  }

  lemma BroadcastValid(s: State, ws: seq<Want>)
    requires Valid(s)
    ensures Valid(BroadcastWantHaves(s, ws))
  {
    ToldValid(s, BroadcastWantHaves(s, ws), ws, Unseen(ws, s.bcst));
  }

  // ---- sendWants ----

  lemma ReindexIndexed(s: State, s': State, p: Peer, added: set<Want>)
    requires Indexed(s) && p in s.peers && s'.index == Reindex(s, p, added)
    requires p in s'.peers && s'.peers == s.peers[p := s'.peers[p]]
    requires Targeted(s'.peers[p]) == Targeted(s.peers[p]) + added
    ensures Indexed(s')
  {
    forall w, x ensures x in IndexOf(s', w) <==> x in s'.peers && w in Targeted(s'.peers[x]) {
      assert x in IndexOf(s', w) <==> x in IndexOf(s, w) || (x == p && w in added);
    }
  }

  lemma AskedInStep(s: State, pw: PeerWant, bs: seq<Want>, hs: seq<Want>)
    requires Replay(pw.calls) == View(s, pw) && Frugal(pw.calls) && pw.blocks !! pw.haves
    ensures var pw' := Asked(pw, NewBlocks(pw, bs), NewHaves(s, pw, bs, hs));
            && Replay(pw'.calls) == View(s, pw') && Frugal(pw'.calls) && pw'.blocks !! pw'.haves
            && Targeted(pw') == Targeted(pw) + (Set(NewBlocks(pw, bs)) + Set(NewHaves(s, pw, bs, hs)))
  {
    UnseenSet(bs, pw.blocks);
    UnseenSet(hs, s.bcst + Targeted(pw) + Set(bs));
    ReplayLast(pw.calls, AddWants(NewBlocks(pw, bs), NewHaves(s, pw, bs, hs)));
  }

  lemma AskedValid(s: State, s': State, p: Peer, bs: seq<Want>, hs: seq<Want>, blocks: seq<Want>, haves: seq<Want>)
    requires Valid(s) && p in s.peers && blocks == NewBlocks(s.peers[p], bs) && haves == NewHaves(s, s.peers[p], bs, hs)
    requires s'.bcst == s.bcst && s'.peers == s.peers[p := Asked(s.peers[p], blocks, haves)]
    requires s'.index == Reindex(s, p, Set(blocks) + Set(haves))
    ensures Valid(s')
  {
    AskedInStep(s, s.peers[p], bs, hs);
    ReindexIndexed(s, s', p, Set(blocks) + Set(haves));
  }

  lemma SendWantsValid(s: State, p: Peer, bs: seq<Want>, hs: seq<Want>)
    requires Valid(s)
    ensures Valid(SendWants(s, p, bs, hs))
  {
    if p in s.peers {
      AskedValid(s, SendWants(s, p, bs, hs), p, bs, hs, NewBlocks(s.peers[p], bs), NewHaves(s, s.peers[p], bs, hs));
    }
  }

  // ---- sendCancels ----

  /** A peer is told to cancel exactly those of the keys that its queue was asked for. */
  lemma CancelsExactly(s: State, pw: PeerWant, ks: seq<Want>)
    ensures Set(CancelsFor(s, pw, ks)) == Set(ks) * View(s, pw)
  {
    var a, b := Only(ks, s.bcst), Unseen(ks, Set(ks) - Targeted(pw) + s.bcst);
    assert Set(a + b) == Set(a) + Set(b);
    OnlySet(ks, s.bcst);
    UnseenSet(ks, Set(ks) - Targeted(pw) + s.bcst);
  }

  /** Cancel calls go to exactly the peers whose queue was asked for one of the keys. */
  lemma CancelCalls(s: State, p: Peer, ks: seq<Want>)
    requires p in s.peers
    ensures var calls, calls' := s.peers[p].calls, SendCancels(s, ks).peers[p].calls;
            var cancelled := Set(ks) * View(s, s.peers[p]);
            if cancelled == {} then calls' == calls
            else |calls'| == |calls| + 1 && calls < calls' && calls'[|calls|].AddCancels? &&
                 Set(calls'[|calls|].ws) == cancelled
  {
    CancelsExactly(s, s.peers[p], ks);
    var ws := CancelsFor(s, s.peers[p], ks);
    if ws != [] { assert ws[0] in Set(ws); }
  }

  lemma CancelOne(s: State, pw: PeerWant, ks: seq<Want>)
    requires Replay(pw.calls) == View(s, pw) && Frugal(pw.calls)
    ensures var pw' := Cancel(s, pw, ks);
            Replay(pw'.calls) == s.bcst - Set(ks) + Targeted(pw') && Frugal(pw'.calls)
  {
    CancelsExactly(s, pw, ks);
    var ws := CancelsFor(s, pw, ks);
    assert Targeted(Cancel(s, pw, ks)) == Targeted(pw) - Set(ks);
    ReplayLast(pw.calls, AddCancels(ws));
    var left := s.bcst - Set(ks) + (Targeted(pw) - Set(ks));
    if ws == [] {
      assert Set(ws) == {};
      assert View(s, pw) == left;
    } else {
      assert View(s, pw) - Set(ws) == left;
    }
  }

  lemma CancelsIndexed(s: State, ks: seq<Want>)
    requires Indexed(s)
    ensures Indexed(SendCancels(s, ks))
  {
    var s' := SendCancels(s, ks);
    forall w, p ensures p in IndexOf(s', w) <==> p in s'.peers && w in Targeted(s'.peers[p]) {
      assert p in IndexOf(s', w) <==> p in IndexOf(s, w) && w !in Set(ks);
    }
  }

  lemma CancelsValid(s: State, ks: seq<Want>)
    requires Valid(s)
    ensures Valid(SendCancels(s, ks))
  {
    CancelsIndexed(s, ks);
    var s' := SendCancels(s, ks);
    forall p | p in s.peers
      ensures Replay(s'.peers[p].calls) == View(s', s'.peers[p]) && Frugal(s'.peers[p].calls)
    {
      CancelOne(s, s.peers[p], ks);
    }
  }

  lemma NextValid(s: State, step: Step)
    requires Valid(s) && Enabled(s, step)
    ensures Valid(Next(s, step))
  {
    match step
    case StepAddPeer(p, order) => AddPeerValid(s, p, order);
    case StepRemovePeer(p) => RemovePeerValid(s, p);
    case StepBroadcast(ws) => BroadcastValid(s, ws);
    case StepSendWants(p, bs, hs) => SendWantsValid(s, p, bs, hs);
    case StepSendCancels(ks) => CancelsValid(s, ks);
  }

  // ---------------------------------------------------------------------------------------
  // The gauges
  // ---------------------------------------------------------------------------------------

  /** `getWants` lists the broadcast wants and everything sent to some peer. */
  lemma WantedMeans(s: State, w: Want)
    requires Indexed(s)
    ensures w in Wanted(s) <==> w in s.bcst || exists p :: p in s.peers && w in Targeted(s.peers[p])
  {
    if w in s.index {
      var p :| p in s.index[w];
      assert p in IndexOf(s, w) && p in s.peers && w in Targeted(s.peers[p]);
    }
    if p :| p in s.peers && w in Targeted(s.peers[p]) {
      assert p in IndexOf(s, w);
    }
  }

  /** How many elements repeat an earlier one. */
  lemma {:induction false} RepeatCount(ws: seq<Want>)
    ensures |ws| >= |Set(ws)|
    ensures |ws| == |Set(ws)| <==> NoRepeat(ws)
  {
    if ws != [] {
      var init, last := ws[..|ws| - 1], ws[|ws| - 1];
      RepeatCount(init);
      assert ws == init + [last];
      assert Set(ws) == Set(init) + {last};
      if last in init {
        assert Set(ws) == Set(init);
      }
    }
  }

  lemma Cardinalities<T>(a: set<T>, b: set<T>)
    ensures |a + b| == |a| + |b - a| && |a| == |a * b| + |a - b|
  {
    assert a + b == a + (b - a);
    assert a == a * b + (a - b);
  }

  /** The wants and want-blocks that a step counts down more than once. */
  function Repeats(step: Step, counted: set<Want>): int {
    match step
    case StepSendCancels(ks) => |Only(ks, counted)| - |Set(ks) * counted|
    case _ => 0
  }

  /** A cancel call that names no counted key twice. */
  predicate CancelsOnce(step: Step, counted: set<Want>) {
    step.StepSendCancels? ==> NoRepeat(Only(step.ks, counted))
  }

  lemma RepeatsNone(step: Step, counted: set<Want>)
    ensures Repeats(step, counted) >= 0
    ensures Repeats(step, counted) == 0 <==> CancelsOnce(step, counted)
  {
    match step
    case StepSendCancels(ks) =>
      RepeatCount(Only(ks, counted));
      OnlySet(ks, counted);
    case _ =>
  }

  lemma WantedWithout(s: State, s': State, p: Peer, w: Want)
    requires Indexed(s) && p in s.peers && s'.bcst == s.bcst && s'.index == Unindex(s, p)
    ensures w in Wanted(s) <==> w in Wanted(s') || w in Targeted(s.peers[p])
  {
    assert p in IndexOf(s, w) <==> w in Targeted(s.peers[p]);
    if w in s.index && s.index[w] - {p} == {} {
      assert p in s.index[w];
    }
  }

  lemma RemoveWanted(s: State, s': State, p: Peer)
    requires Indexed(s) && p in s.peers && s'.bcst == s.bcst && s'.index == Unindex(s, p)
    ensures |Wanted(s)| == |Wanted(s')| + |Targeted(s.peers[p]) - Wanted(s')|
  {
    forall w ensures w in Wanted(s) <==> w in Wanted(s') || w in Targeted(s.peers[p]) {
      WantedWithout(s, s', p, w);
    }
    Grown(Wanted(s'), Targeted(s.peers[p]), Wanted(s));
  }

  lemma Grown<T(!new)>(a: set<T>, b: set<T>, c: set<T>)
    requires forall x :: x in c <==> x in a || x in b
    ensures |c| == |a| + |b - a|
  {
    Cardinalities(a, b);
    assert c == a + b;
  }

  lemma RemoveBlocks(s: State, s': State, p: Peer)
    requires p in s.peers && s'.peers == s.peers - {p}
    ensures |Blocks(s)| == |Blocks(s')| + |s.peers[p].blocks - Blocks(s')|
  {
    Cardinalities(Blocks(s'), s.peers[p].blocks);
    forall w ensures w in Blocks(s) <==> w in Blocks(s') + s.peers[p].blocks {
      if x :| x in s.peers && w in s.peers[x].blocks {
        assert x != p ==> x in s'.peers && w in s'.peers[x].blocks;
      }
    }
    assert Blocks(s) == Blocks(s') + s.peers[p].blocks;
  }

  lemma UpdateBlocks(s: State, s': State, p: Peer, added: set<Want>)
    requires p in s.peers && p in s'.peers && s'.peers == s.peers[p := s'.peers[p]]
    requires s'.peers[p].blocks == s.peers[p].blocks + added
    ensures Blocks(s') == Blocks(s) + added
  {
    forall w ensures w in Blocks(s') <==> w in Blocks(s) + added {
      if w in Blocks(s) {
        var x :| x in s.peers && w in s.peers[x].blocks;
        assert x in s'.peers && w in s'.peers[x].blocks;
      }
      if w in added {
        assert w in s'.peers[p].blocks;
      }
    }
  }

  lemma SameBlocks(s: State, s': State)
    requires s.peers.Keys == s'.peers.Keys && forall p :: p in s.peers ==> s'.peers[p].blocks == s.peers[p].blocks
    ensures Blocks(s') == Blocks(s)
  {
  }

  lemma CancelBlocks(s: State, s': State, ks: set<Want>)
    requires s.peers.Keys == s'.peers.Keys && forall p :: p in s.peers ==> s'.peers[p].blocks == s.peers[p].blocks - ks
    ensures Blocks(s') == Blocks(s) - ks
  {
    forall w ensures w in Blocks(s') <==> w in Blocks(s) - ks {
      if x :| x in s.peers && w in s.peers[x].blocks {
        assert w !in ks ==> x in s'.peers && w in s'.peers[x].blocks;
      }
    }
  }

  lemma NewPeerBlocks(s: State, s': State, p: Peer)
    requires p !in s.peers && p in s'.peers && s'.peers == s.peers[p := s'.peers[p]] && s'.peers[p].blocks == {}
    ensures Blocks(s') == Blocks(s)
  {
    forall w ensures w in Blocks(s') <==> w in Blocks(s) {
      if x :| x in s.peers && w in s.peers[x].blocks {
        assert x in s'.peers && w in s'.peers[x].blocks;
      }
    }
  }

  /** How far the gauges are off. */
  function WantsOff(s: State): int { s.wants - |Wanted(s)| }

  function BlocksOff(s: State): int { s.wantBlocks - |Blocks(s)| }

  lemma RemoveBalance(s: State, p: Peer)
    requires Indexed(s)
    ensures WantsOff(RemovePeer(s, p)) == WantsOff(s) && BlocksOff(RemovePeer(s, p)) == BlocksOff(s)
  {
    if p in s.peers {
      var s' := RemovePeer(s, p);
      RemoveWanted(s, s', p);
      RemoveBlocks(s, s', p);
    }
  }

  lemma Joined(bcst: set<Want>, indexed: set<Want>, ws: set<Want>)
    ensures |bcst + ws + indexed| == |bcst + indexed| + |ws - bcst - indexed|
  {
    Cardinalities(bcst + indexed, ws);
    assert bcst + ws + indexed == bcst + indexed + ws;
    assert ws - (bcst + indexed) == ws - bcst - indexed;
  }

  lemma ToldBalance(s: State, s': State, ws: set<Want>, n: int)
    requires s'.bcst == s.bcst + ws && s'.index == s.index && s'.wants == s.wants + n
    requires s'.wantBlocks == s.wantBlocks && Blocks(s') == Blocks(s)
    requires |s.bcst + ws + s.index.Keys| == |s.bcst + s.index.Keys| + n
    ensures WantsOff(s') == WantsOff(s) && BlocksOff(s') == BlocksOff(s)
  {
  }

  lemma BroadcastBalance(s: State, ws: seq<Want>)
    ensures var s' := BroadcastWantHaves(s, ws); WantsOff(s') == WantsOff(s) && BlocksOff(s') == BlocksOff(s)
  {
    var s' := BroadcastWantHaves(s, ws);
    SameBlocks(s, s');
    UnseenSet(ws, s.bcst);
    Joined(s.bcst, s.index.Keys, Set(ws));
    ToldBalance(s, s', Set(ws), |Set(Unseen(ws, s.bcst)) - s.index.Keys|);
  }

  lemma AskedBalance(s: State, s': State, p: Peer, blocks: set<Want>, added: set<Want>)
    requires p in s.peers && p in s'.peers && s'.peers == s.peers[p := s'.peers[p]]
    requires s'.peers[p].blocks == s.peers[p].blocks + blocks && s'.index.Keys == s.index.Keys + added &&
             s'.bcst == s.bcst
    requires s'.wants == s.wants + |added - Wanted(s)| && s'.wantBlocks == s.wantBlocks + |blocks - Blocks(s)|
    ensures WantsOff(s') == WantsOff(s) && BlocksOff(s') == BlocksOff(s)
  {
    Cardinalities(Wanted(s), added);
    assert Wanted(s') == Wanted(s) + added;
    Cardinalities(Blocks(s), blocks);
    UpdateBlocks(s, s', p, blocks);
  }

  lemma SendWantsBalance(s: State, p: Peer, bs: seq<Want>, hs: seq<Want>)
    ensures var s' := SendWants(s, p, bs, hs); WantsOff(s') == WantsOff(s) && BlocksOff(s') == BlocksOff(s)
  {
    if p in s.peers {
      var pw := s.peers[p];
      var blocks, haves := Set(NewBlocks(pw, bs)), Set(NewHaves(s, pw, bs, hs));
      AskedBalance(s, SendWants(s, p, bs, hs), p, blocks, blocks + haves);
    }
  }

  lemma Cancelled(counted: set<Want>, left: set<Want>, ks: seq<Want>)
    requires left == counted - Set(ks)
    ensures |left| == |counted| - |Only(ks, counted)| + Repeats(StepSendCancels(ks), counted)
  {
    Cardinalities(counted, Set(ks));
    assert counted * Set(ks) == Set(ks) * counted;
  }

  /** The effect of `sendCancels` on what the gauges count. */
  predicate CancelledFrom(s: State, s': State, ks: set<Want>) {
    && s'.bcst == s.bcst - ks && s'.index == s.index - ks && s'.peers.Keys == s.peers.Keys
    && forall p :: p in s.peers ==> s'.peers[p].blocks == s.peers[p].blocks - ks
  }

  lemma CancelledBalance(s: State, s': State, ks: seq<Want>)
    requires CancelledFrom(s, s', Set(ks))
    requires s'.wants == s.wants - |Only(ks, Wanted(s))| && s'.wantBlocks == s.wantBlocks - |Only(ks, Blocks(s))|
    ensures WantsOff(s') == WantsOff(s) - Repeats(StepSendCancels(ks), Wanted(s))
    ensures BlocksOff(s') == BlocksOff(s) - Repeats(StepSendCancels(ks), Blocks(s))
  {
    assert Wanted(s') == Wanted(s) - Set(ks);
    Cancelled(Wanted(s), Wanted(s'), ks);
    CancelBlocks(s, s', Set(ks));
    Cancelled(Blocks(s), Blocks(s'), ks);
  }

  lemma CancelsBalance(s: State, ks: seq<Want>)
    ensures var s', step := SendCancels(s, ks), StepSendCancels(ks);
            && WantsOff(s') == WantsOff(s) - Repeats(step, Wanted(s))
            && BlocksOff(s') == BlocksOff(s) - Repeats(step, Blocks(s))
  {
    CancelledBalance(s, SendCancels(s, ks), ks);
  }

  lemma AddPeerBalance(s: State, p: Peer, order: seq<Want>)
    ensures var s' := AddPeer(s, p, order); WantsOff(s') == WantsOff(s) && BlocksOff(s') == BlocksOff(s)
  {
    if p !in s.peers {
      NewPeerBlocks(s, AddPeer(s, p, order), p);
    }
  }

  /** Only a cancel call that names a wanted key twice moves a gauge away from what it counts, and
      by as much as it repeats. */
  lemma Balance(s: State, step: Step)
    requires Valid(s)
    ensures var s' := Next(s, step);
            && WantsOff(s') == WantsOff(s) - Repeats(step, Wanted(s))
            && BlocksOff(s') == BlocksOff(s) - Repeats(step, Blocks(s))
  {
    match step
    case StepAddPeer(p, order) => AddPeerBalance(s, p, order);
    case StepRemovePeer(p) => RemoveBalance(s, p);
    case StepBroadcast(ws) => BroadcastBalance(s, ws);
    case StepSendWants(p, bs, hs) => SendWantsBalance(s, p, bs, hs);
    case StepSendCancels(ks) => CancelsBalance(s, ks);
  }

  // ---------------------------------------------------------------------------------------
  // Runs
  // ---------------------------------------------------------------------------------------

  predicate Legal(s: State, steps: seq<Step>)
    decreases |steps|
  {
    steps == [] || (Enabled(s, steps[0]) && Legal(Next(s, steps[0]), steps[1..]))
  }

  function Run(s: State, steps: seq<Step>): State
    decreases |steps|
  {
    if steps == [] then s else Run(Next(s, steps[0]), steps[1..])
  }

  /** No cancel call of the run names a key twice that is wanted at the time. */
  predicate AllCancelOnce(s: State, steps: seq<Step>)
    decreases |steps|
  {
    steps == [] || (CancelsOnce(steps[0], Wanted(s)) && AllCancelOnce(Next(s, steps[0]), steps[1..]))
  }

  predicate AllCancelBlocksOnce(s: State, steps: seq<Step>)
    decreases |steps|
  {
    steps == [] || (CancelsOnce(steps[0], Blocks(s)) && AllCancelBlocksOnce(Next(s, steps[0]), steps[1..]))
  }

  /** In every run the calls made to each queue replay to the broadcast wants, want-blocks and
      want-haves of its peer without a redundant call, and the index is exact. */
  lemma {:induction false} RunValid(s: State, steps: seq<Step>)
    requires Valid(s) && Legal(s, steps)
    ensures Valid(Run(s, steps))
    decreases |steps|
  {
    if steps != [] {
      NextValid(s, steps[0]);
      RunValid(Next(s, steps[0]), steps[1..]);
    }
  }

  lemma {:induction false} RunOff(s: State, steps: seq<Step>)
    requires Valid(s) && Legal(s, steps)
    ensures WantsOff(Run(s, steps)) <= WantsOff(s)
    ensures BlocksOff(Run(s, steps)) <= BlocksOff(s)
    ensures WantsOff(Run(s, steps)) == WantsOff(s) <==> AllCancelOnce(s, steps)
    ensures BlocksOff(Run(s, steps)) == BlocksOff(s) <==> AllCancelBlocksOnce(s, steps)
    decreases |steps|
  {
    if steps != [] {
      NextValid(s, steps[0]);
      Balance(s, steps[0]);
      RepeatsNone(steps[0], Wanted(s));
      RepeatsNone(steps[0], Blocks(s));
      RunOff(Next(s, steps[0]), steps[1..]);
    }
  }

  /** In every run the gauges equal the number of wants and of want-blocks if and only if no cancel
      call named a counted key twice; otherwise they are too low. */
  lemma GaugesExactly(steps: seq<Step>)
    requires Legal(NEW, steps)
    ensures Valid(Run(NEW, steps))
    ensures var s := Run(NEW, steps);
            && s.wants <= |Wanted(s)| && s.wantBlocks <= |Blocks(s)|
            && (s.wants == |Wanted(s)| <==> AllCancelOnce(NEW, steps))
            && (s.wantBlocks == |Blocks(s)| <==> AllCancelBlocksOnce(NEW, steps))
  {
    assert Valid(NEW) by {
      assert forall w, p :: p !in IndexOf(NEW, w);
    }
    RunValid(NEW, steps);
    RunOff(NEW, steps);
    assert Wanted(NEW) == {} && Blocks(NEW) == {};
  }
}
