/** The want sender object: a batch is processed by loops over changes, peers, updates and wants
    that update the information on each want, and is proved against the functions of module
    WantSender. */
module WantSenderObject {
  import opened Basics
  import BP = BlockPresence
  import WS = WantSender

  // ---------------------------------------------------------------------------------------
  // The best peer
  // ---------------------------------------------------------------------------------------

  /** `choose`: some member of the list, at random. */
  method Choose(ps: seq<Peer>) returns (p: Peer)
    requires ps != []
    ensures p in ps
  {
    var i :| 0 <= i < |ps|;
    p := ps[i];
  }

  /** The best of some of the peers, and how many of them are as good. */
  predicate BestOf(beliefs: map<Peer, WS.Belief>, seen: set<Peer>, p: Peer, best: WS.Belief) {
    && (p == NO_PEER <==> best == WS.DontHave)
    && (p != NO_PEER ==> p in seen && p in beliefs && beliefs[p] == best)
    && forall q :: q in seen && q in beliefs ==> WS.Rank(beliefs[q]) <= WS.Rank(best)
  }

  method CalculateBestPeer(beliefs: map<Peer, WS.Belief>) returns (p: Peer)
    requires NO_PEER !in beliefs
    ensures WS.IsBest(beliefs, p)
  {
    var best, count := WS.DontHave, 0;
    p := NO_PEER;
    var todo := beliefs.Keys;
    while todo != {}
      invariant todo <= beliefs.Keys && BestOf(beliefs, beliefs.Keys - todo, p, best)
      decreases todo
    {
      var q :| q in todo;
      todo := todo - {q};
      if WS.Rank(beliefs[q]) > WS.Rank(best) {
        best, p, count := beliefs[q], q, 1;
      } else if beliefs[q] == best {
        count := count + 1;
      }
    }
    if p == NO_PEER || count <= 1 { return; }
    var equals := WithBelief(beliefs, best);
    assert p in equals;
    p := Choose(equals);
  }

  method WithBelief(beliefs: map<Peer, WS.Belief>, best: WS.Belief) returns (ps: seq<Peer>)
    ensures forall p :: p in ps <==> p in beliefs && beliefs[p] == best
  {
    ps := [];
    var todo := beliefs.Keys;
    while todo != {}
      invariant todo <= beliefs.Keys
      invariant forall p :: p in ps <==> p in beliefs.Keys - todo && beliefs[p] == best
      decreases todo
    {
      var q :| q in todo;
      todo := todo - {q};
      if beliefs[q] == best {
        ps := ps + [q];
      }
    }
  }

  // ---------------------------------------------------------------------------------------
  // One piece of news at a time
  // ---------------------------------------------------------------------------------------

  lemma LearnMore(i: WS.Info, ps: set<Peer>, qs: set<Peer>, m: BP.Presence, c: Cid)
    ensures WS.Learn(WS.Learn(i, ps, m, c), qs, m, c) == WS.Learn(i, ps + qs, m, c)
  {
    assert WS.Learn(WS.Learn(i, ps, m, c), qs, m, c).beliefs == WS.Learn(i, ps + qs, m, c).beliefs;
  }

  lemma LearnNone(i: WS.Info, m: BP.Presence, c: Cid)
    ensures WS.Learn(i, {}, m, c) == i
  {
    assert WS.Learn(i, {}, m, c).beliefs == i.beliefs;
  }

  lemma ForgetMore(i: WS.Info, ps: set<Peer>, p: Peer)
    requires NO_PEER !in ps && p != NO_PEER
    ensures WS.Forget(WS.Forget(i, ps), {p}) == WS.Forget(i, ps + {p})
  {
    assert i.beliefs - ps - {p} == i.beliefs - (ps + {p});
  }

  lemma ForgetNone(i: WS.Info)
    ensures WS.Forget(i, {}) == i
  {
    assert i.beliefs - {} == i.beliefs;
  }

  lemma LearnForget(i: WS.Info, ps: set<Peer>, p: Peer, m: BP.Presence, c: Cid)
    requires p !in ps
    ensures WS.Learn(WS.Forget(i, ps), {p}, m, c) == WS.Forget(WS.Learn(i, {p}, m, c), ps)
  {
    assert WS.Learn(WS.Forget(i, ps), {p}, m, c).beliefs == WS.Forget(WS.Learn(i, {p}, m, c), ps).beliefs;
  }

  /** A refusal after others. */
  lemma RefusedMore(i: WS.Info, w: Want, ps: set<Peer>, p: Peer, sent: set<(Peer, Want)>, m: BP.Presence)
    requires p != NO_PEER && NO_PEER !in ps
    ensures WS.Answered(WS.Answered(i, w, ps, {}, sent, m), w, {p}, {}, sent, m) ==
            WS.Answered(i, w, ps + {p}, {}, sent, m)
  {
    assert ps + {} == ps && {p} + {} == {p} && ps + {p} + {} == ps + {p};
    LearnMore(i, ps, {p}, m, w.cid);
  }

  /** A HAVE after the refusals and other HAVEs. */
  lemma HadMore(i: WS.Info, w: Want, ps: set<Peer>, qs: set<Peer>, q: Peer, sent: set<(Peer, Want)>, m: BP.Presence)
    ensures WS.Learn(WS.Answered(i, w, ps, qs, sent, m), {q}, m, w.cid) == WS.Answered(i, w, ps, qs + {q}, sent, m)
  {
    assert ps + (qs + {q}) == ps + qs + {q};
    LearnMore(i, ps + qs, {q}, m, w.cid);
  }

  lemma AnsweredNone(i: WS.Info, w: Want, sent: set<(Peer, Want)>, m: BP.Presence)
    ensures WS.Answered(i, w, {}, {}, sent, m) == i
  {
    var none: set<Peer> := {};
    assert none + none == none;
    LearnNone(i, m, w.cid);
  }

  lemma SetSnoc(ws: seq<Want>, w: Want)
    ensures WS.Set(ws + [w]) == WS.Set(ws) + {w}
  {
  }

  type Wants = map<Want, WS.Info>

  /** Wants after some have been added. */
  function WithAdded(s: WS.State, ws: set<Want>, m: BP.Presence): Wants {
    map w | w in s.wants.Keys + ws :: if w in s.wants then s.wants[w] else WS.Tracking(s.peers, m, w.cid)
  }

  lemma AddStep(s: WS.State, ws: set<Want>, w: Want, m: BP.Presence)
    ensures var r := WithAdded(s, ws, m);
            WithAdded(s, ws + {w}, m) == if w in r then r else r[w := WS.Tracking(s.peers, m, w.cid)]
  {
    var r, r' := WithAdded(s, ws, m), WithAdded(s, ws + {w}, m);
    assert r'.Keys == r.Keys + {w};
  }

  lemma AddNone(s: WS.State, m: BP.Presence)
    ensures WithAdded(s, {}, m) == s.wants
  {
    assert WithAdded(s, {}, m).Keys == s.wants.Keys;
  }

  lemma LearnOne(i: WS.Info, p: Peer, m: BP.Presence, c: Cid)
    ensures var b := WS.Look(m, p, c);
            WS.Info(i.beliefs[p := b], i.sentTo, i.exhausted && b != WS.Have) == WS.Learn(i, {p}, m, c)
  {
    assert i.beliefs[p := WS.Look(m, p, c)] == WS.Learn(i, {p}, m, c).beliefs;
  }

  // ---- availability ----

  /** The state when some peers have joined and some left. */
  function Shifted(s: WS.State, joined: set<Peer>, left: set<Peer>, m: BP.Presence): WS.State {
    s.(peers := s.peers + joined - left,
       wants := map w | w in s.wants :: WS.Forget(WS.Learn(s.wants[w], joined, m, w.cid), left))
  }

  lemma ShiftNone(s: WS.State, m: BP.Presence)
    ensures Shifted(s, {}, {}, m) == s
  {
    assert s.peers + {} - {} == s.peers;
    forall w | w in s.wants ensures WS.Forget(WS.Learn(s.wants[w], {}, m, w.cid), {}) == s.wants[w] {
      LearnNone(s.wants[w], m, w.cid);
      ForgetNone(s.wants[w]);
    }
    assert Shifted(s, {}, {}, m).wants == s.wants;
  }

  lemma JoinOne(i: WS.Info, joined: set<Peer>, left: set<Peer>, p: Peer, m: BP.Presence, c: Cid)
    requires p !in left
    ensures WS.Forget(WS.Learn(i, joined + {p}, m, c), left) ==
            WS.Learn(WS.Forget(WS.Learn(i, joined, m, c), left), {p}, m, c)
  {
    LearnMore(i, joined, {p}, m, c);
    LearnForget(WS.Learn(i, joined, m, c), left, p, m, c);
  }

  lemma ShiftedAt(s: WS.State, joined: set<Peer>, left: set<Peer>, m: BP.Presence, w: Want)
    requires w in s.wants
    ensures var c := Shifted(s, joined, left, m);
            w in c.wants && c.wants[w] == WS.Forget(WS.Learn(s.wants[w], joined, m, w.cid), left)
  {
  }

  lemma JoinAt(s: WS.State, c: WS.State, joined: set<Peer>, left: set<Peer>, p: Peer, m: BP.Presence, w: Want,
               i: WS.Info)
    requires p !in left && c == Shifted(s, joined, left, m) && w in s.wants && w in c.wants
    requires i == WS.Learn(c.wants[w], {p}, m, w.cid)
    ensures var goal := Shifted(s, joined + {p}, left, m); w in goal.wants && i == goal.wants[w]
  {
    ShiftedAt(s, joined, left, m, w);
    ShiftedAt(s, joined + {p}, left, m, w);
    JoinOne(s.wants[w], joined, left, p, m, w.cid);
  }

  lemma SameWants(a: Wants, b: Wants)
    requires a.Keys == b.Keys && forall w :: w in a ==> a[w] == b[w]
    ensures a == b
  {
  }

  lemma ShiftJoin(s: WS.State, c: WS.State, c': WS.State, joined: set<Peer>, left: set<Peer>, p: Peer, m: BP.Presence)
    requires p !in left && c == Shifted(s, joined, left, m)
    requires c'.sent == c.sent && c'.peers == c.peers + {p} && c'.wants.Keys == c.wants.Keys
    requires forall w :: w in c.wants ==> c'.wants[w] == WS.Learn(c.wants[w], {p}, m, w.cid)
    ensures c' == Shifted(s, joined + {p}, left, m)
  {
    var goal := Shifted(s, joined + {p}, left, m);
    forall w | w in c'.wants ensures c'.wants[w] == goal.wants[w] {
      JoinAt(s, c, joined, left, p, m, w, c'.wants[w]);
    }
    SameWants(c'.wants, goal.wants);
  }

  lemma ShiftLeave(s: WS.State, joined: set<Peer>, left: set<Peer>, p: Peer, m: BP.Presence)
    requires p != NO_PEER && NO_PEER !in left
    ensures var c := Shifted(s, joined, left, m);
            Shifted(s, joined, left + {p}, m) ==
            c.(peers := c.peers - {p}, wants := map w | w in c.wants :: WS.Forget(c.wants[w], {p}))
  {
    var c, c' := Shifted(s, joined, left, m), Shifted(s, joined, left + {p}, m);
    assert c'.peers == c.peers - {p};
    forall w | w in s.wants ensures c'.wants[w] == WS.Forget(c.wants[w], {p}) {
      ForgetMore(WS.Learn(s.wants[w], joined, m, w.cid), left, p);
    }
  }

  // ---- updates ----

  function Refusal(s: WS.State, p: Peer, w: Want, m: BP.Presence): WS.State {
    if w in s.wants then s.(wants := s.wants[w := WS.Answered(s.wants[w], w, {p}, {}, s.sent, m)]) else s
  }

  function RefuseEach(s: WS.State, p: Peer, ws: seq<Want>, blocks: set<Want>, m: BP.Presence): WS.State {
    if ws == [] then s
    else
      var n := |ws| - 1;
      var r := RefuseEach(s, p, ws[..n], blocks, m);
      if ws[n] in blocks then r else Refusal(r, p, ws[n], m)
  }

  function RefuseAll(s: WS.State, us: seq<WS.Update>, blocks: set<Want>, m: BP.Presence): WS.State {
    if us == [] then s
    else
      var n := |us| - 1;
      RefuseEach(RefuseAll(s, us[..n], blocks, m), us[n].from, us[n].dontHaves, blocks, m)
  }

  lemma {:induction false} RefuseEachIs(s: WS.State, p: Peer, ws: seq<Want>, blocks: set<Want>, m: BP.Presence, w: Want)
    requires p != NO_PEER && w in s.wants && w !in blocks
    ensures var r := RefuseEach(s, p, ws, blocks, m);
            && r.wants.Keys == s.wants.Keys && r.sent == s.sent && r.peers == s.peers
            && r.wants[w] == if w in ws then WS.Answered(s.wants[w], w, {p}, {}, s.sent, m) else s.wants[w]
  {
    if ws != [] {
      var n := |ws| - 1;
      RefuseEachIs(s, p, ws[..n], blocks, m, w);
      assert ws == ws[..n] + [ws[n]];
      RefusedMore(s.wants[w], w, {p}, p, s.sent, m);
      assert {p} + {p} == {p};
    }
  }

  function Whole(us: seq<WS.Update>): set<WS.Update> { set u | u in us }

  lemma RefusedBySnoc(us: seq<WS.Update>, u: WS.Update, w: Want)
    ensures WS.RefusedBy(Whole(us + [u]), w) == WS.RefusedBy(Whole(us), w) + if w in u.dontHaves then {u.from} else {}
    ensures WS.HadBy(Whole(us + [u]), w) == WS.HadBy(Whole(us), w) + if w in u.haves then {u.from} else {}
  {
    assert Whole(us + [u]) == Whole(us) + {u};
  }

  lemma {:induction false} RefuseAllIs(s: WS.State, us: seq<WS.Update>, blocks: set<Want>, m: BP.Presence, w: Want)
    requires w in s.wants && w !in blocks && forall u :: u in us ==> u.from != NO_PEER
    ensures var r := RefuseAll(s, us, blocks, m);
            && r.wants.Keys == s.wants.Keys && r.sent == s.sent && r.peers == s.peers
            && r.wants[w] == WS.Answered(s.wants[w], w, WS.RefusedBy(Whole(us), w), {}, s.sent, m)
  {
    if us == [] {
      AnsweredNone(s.wants[w], w, s.sent, m);
      assert WS.RefusedBy(Whole(us), w) == {};
    } else {
      var n := |us| - 1;
      var before := WS.RefusedBy(Whole(us[..n]), w);
      assert us == us[..n] + [us[n]];
      RefuseAllIs(s, us[..n], blocks, m, w);
      RefuseEachIs(RefuseAll(s, us[..n], blocks, m), us[n].from, us[n].dontHaves, blocks, m, w);
      RefusedBySnoc(us[..n], us[n], w);
      RefusedMore(s.wants[w], w, before, us[n].from, s.sent, m);
      assert before + {} == before;
    }
  }

  function Having(s: WS.State, p: Peer, w: Want, m: BP.Presence): WS.State {
    if w in s.wants then s.(wants := s.wants[w := WS.Learn(s.wants[w], {p}, m, w.cid)]) else s
  }

  function HaveEach(s: WS.State, p: Peer, ws: seq<Want>, blocks: set<Want>, m: BP.Presence): WS.State {
    if ws == [] then s
    else
      var n := |ws| - 1;
      var r := HaveEach(s, p, ws[..n], blocks, m);
      if ws[n] in blocks then r else Having(r, p, ws[n], m)
  }

  function HaveAll(s: WS.State, us: seq<WS.Update>, blocks: set<Want>, m: BP.Presence): WS.State {
    if us == [] then s
    else
      var n := |us| - 1;
      HaveEach(HaveAll(s, us[..n], blocks, m), us[n].from, us[n].haves, blocks, m)
  }

  lemma {:induction false} HaveEachIs(s: WS.State, p: Peer, ws: seq<Want>, blocks: set<Want>, m: BP.Presence, w: Want)
    requires w in s.wants && w !in blocks
    ensures var r := HaveEach(s, p, ws, blocks, m);
            && r.wants.Keys == s.wants.Keys && r.sent == s.sent && r.peers == s.peers
            && r.wants[w] == if w in ws then WS.Learn(s.wants[w], {p}, m, w.cid) else s.wants[w]
  {
    if ws != [] {
      var n := |ws| - 1;
      HaveEachIs(s, p, ws[..n], blocks, m, w);
      assert ws == ws[..n] + [ws[n]];
      LearnMore(s.wants[w], {p}, {p}, m, w.cid);
      assert {p} + {p} == {p};
    }
  }

  lemma {:induction false} HaveAllIs(s: WS.State, us: seq<WS.Update>, blocks: set<Want>, m: BP.Presence, w: Want,
                                     i: WS.Info, refused: set<Peer>)
    requires w in s.wants && w !in blocks && s.wants[w] == WS.Answered(i, w, refused, {}, s.sent, m)
    ensures var r := HaveAll(s, us, blocks, m);
            && r.wants.Keys == s.wants.Keys && r.sent == s.sent && r.peers == s.peers
            && r.wants[w] == WS.Answered(i, w, refused, WS.HadBy(Whole(us), w), s.sent, m)
  {
    if us == [] {
      assert WS.HadBy(Whole(us), w) == {};
    } else {
      var n := |us| - 1;
      var before := WS.HadBy(Whole(us[..n]), w);
      assert us == us[..n] + [us[n]];
      HaveAllIs(s, us[..n], blocks, m, w, i, refused);
      HaveEachIs(HaveAll(s, us[..n], blocks, m), us[n].from, us[n].haves, blocks, m, w);
      RefusedBySnoc(us[..n], us[n], w);
      HadMore(i, w, refused, before, us[n].from, s.sent, m);
      assert before + {} == before;
    }
  }

  /** The three passes over the updates together. */
  lemma UpdatesIs(s: WS.State, us: seq<WS.Update>, blocks: set<Want>, m: BP.Presence)
    requires blocks == WS.Blocks(Whole(us)) && forall u :: u in us ==> u.from != NO_PEER
    ensures var s1 := s.(wants := s.wants - blocks);
            HaveAll(RefuseAll(s1, us, blocks, m), us, blocks, m) == WS.ProcessUpdates(s, Whole(us), m)
  {
    var s1 := s.(wants := s.wants - blocks);
    var s2 := RefuseAll(s1, us, blocks, m);
    var s3, goal := HaveAll(s2, us, blocks, m), WS.ProcessUpdates(s, Whole(us), m);
    SameShape(s1, us, blocks, m);
    forall w | w in s1.wants ensures s3.wants[w] == goal.wants[w] {
      RefuseAllIs(s1, us, blocks, m, w);
      HaveAllIs(s2, us, blocks, m, w, s.wants[w], WS.RefusedBy(Whole(us), w));
    }
    assert s3.wants.Keys == goal.wants.Keys;
  }

  lemma {:induction false} EachShape(s: WS.State, p: Peer, ws: seq<Want>, blocks: set<Want>, m: BP.Presence)
    ensures var r := RefuseEach(s, p, ws, blocks, m);
            r.wants.Keys == s.wants.Keys && r.sent == s.sent && r.peers == s.peers
    ensures var r := HaveEach(s, p, ws, blocks, m);
            r.wants.Keys == s.wants.Keys && r.sent == s.sent && r.peers == s.peers
  {
    if ws != [] { EachShape(s, p, ws[..|ws| - 1], blocks, m); }
  }

  lemma {:induction false} RefuseShape(s: WS.State, us: seq<WS.Update>, blocks: set<Want>, m: BP.Presence)
    ensures var r := RefuseAll(s, us, blocks, m); r.wants.Keys == s.wants.Keys && r.sent == s.sent && r.peers == s.peers
  {
    if us != [] {
      var n := |us| - 1;
      RefuseShape(s, us[..n], blocks, m);
      EachShape(RefuseAll(s, us[..n], blocks, m), us[n].from, us[n].dontHaves, blocks, m);
    }
  }

  lemma {:induction false} HaveShape(s: WS.State, us: seq<WS.Update>, blocks: set<Want>, m: BP.Presence)
    ensures var r := HaveAll(s, us, blocks, m); r.wants.Keys == s.wants.Keys && r.sent == s.sent && r.peers == s.peers
  {
    if us != [] {
      var n := |us| - 1;
      HaveShape(s, us[..n], blocks, m);
      EachShape(HaveAll(s, us[..n], blocks, m), us[n].from, us[n].haves, blocks, m);
    }
  }

  lemma SameShape(s: WS.State, us: seq<WS.Update>, blocks: set<Want>, m: BP.Presence)
    ensures var r := HaveAll(RefuseAll(s, us, blocks, m), us, blocks, m);
            r.wants.Keys == s.wants.Keys && r.sent == s.sent && r.peers == s.peers
  {
    RefuseShape(s, us, blocks, m);
    HaveShape(RefuseAll(s, us, blocks, m), us, blocks, m);
  }

  // ---- reports and requests ----

  lemma {:induction false} FlagMore(s: WS.State, ws: set<Want>, w: Want)
    requires w in s.wants
    ensures var c := WS.Flag(s, ws); c.(wants := c.wants[w := c.wants[w].(exhausted := true)]) == WS.Flag(s, ws + {w})
  {
    var c, c' := WS.Flag(s, ws), WS.Flag(s, ws + {w});
    assert c.wants[w := c.wants[w].(exhausted := true)] == c'.wants;
  }

  lemma FlagNone(s: WS.State)
    ensures WS.Flag(s, {}) == s
  {
    assert WS.Flag(s, {}).wants == s.wants;
  }

  /** What is sent to a peer. */
  datatype Request = Request(blocks: set<Want>, haves: set<Want>)

  /** The want-block and want-haves that are due to a peer because of some of the wants: a want-block
      if the peer is picked, a want-have if another is, or if the peer is new. */
  function Due(s: WS.State, picks: map<Want, Peer>, ws: set<Want>, joined: set<Peer>, p: Peer): Request
    requires WS.Picks(s, picks)
  {
    var chosen := WS.Chosen(s, picks);
    Request(set w | w in ws && w in chosen && picks[w] == p,
            set w | w in ws && w in s.wants && (p in joined || (w in chosen && picks[w] != p && p in s.peers)))
  }

  const NOTHING := Request({}, {})

  /** `toSend`: an entry for each peer to which something is due. */
  ghost predicate Collects(s: WS.State, picks: map<Want, Peer>, ws: set<Want>, joined: set<Peer>,
                           toSend: map<Peer, Request>) {
    && WS.Picks(s, picks)
    && (forall p :: p in toSend ==> toSend[p] == Due(s, picks, ws, joined, p) && toSend[p] != NOTHING)
    && (forall p :: p !in toSend ==> Due(s, picks, ws, joined, p) == NOTHING)
  }

  function For(toSend: map<Peer, Request>, p: Peer): Request { if p in toSend then toSend[p] else NOTHING }

  function PutBlock(toSend: map<Peer, Request>, p: Peer, w: Want): map<Peer, Request> {
    toSend[p := For(toSend, p).(blocks := For(toSend, p).blocks + {w})]
  }

  function PutHaves(toSend: map<Peer, Request>, ps: set<Peer>, w: Want): map<Peer, Request> {
    map p | p in toSend.Keys + ps :: if p in ps then For(toSend, p).(haves := For(toSend, p).haves + {w}) else toSend[p]
  }

  method AddHaves(toSend: map<Peer, Request>, ps: set<Peer>, w: Want) returns (r: map<Peer, Request>)
    ensures r == PutHaves(toSend, ps, w)
  {
    r := toSend;
    var todo := ps;
    while todo != {}
      invariant todo <= ps && r == PutHaves(toSend, ps - todo, w)
      decreases todo
    {
      var p :| p in todo;
      todo := todo - {p};
      r := r[p := For(r, p).(haves := For(r, p).haves + {w})];
    }
    assert ps - {} == ps;
  }

  /** One turn of the loop of `sendNextWants`. */
  function Turn(s: WS.State, picks: map<Want, Peer>, w: Want, joined: set<Peer>,
                toSend: map<Peer, Request>): map<Peer, Request>
    requires WS.Picks(s, picks) && w in s.wants
  {
    var r := PutHaves(toSend, joined, w);
    if w in WS.Chosen(s, picks) then PutHaves(PutBlock(r, picks[w], w), s.peers - {picks[w]}, w) else r
  }

  /** Whether a turn for `w` puts it among the want-blocks or the want-haves of a peer. */
  predicate PutsBlock(s: WS.State, picks: map<Want, Peer>, w: Want, p: Peer)
    requires WS.Picks(s, picks)
  {
    w in WS.Chosen(s, picks) && picks[w] == p
  }

  predicate PutsHave(s: WS.State, picks: map<Want, Peer>, w: Want, joined: set<Peer>, p: Peer)
    requires WS.Picks(s, picks)
  {
    p in joined || (w in WS.Chosen(s, picks) && picks[w] != p && p in s.peers)
  }

  lemma TurnAt(s: WS.State, picks: map<Want, Peer>, w: Want, joined: set<Peer>, p: Peer, toSend: map<Peer, Request>)
    requires WS.Picks(s, picks) && w in s.wants
    ensures var r, r' := For(toSend, p), For(Turn(s, picks, w, joined, toSend), p);
            && r'.blocks == (if PutsBlock(s, picks, w, p) then r.blocks + {w} else r.blocks)
            && r'.haves == (if PutsHave(s, picks, w, joined, p) then r.haves + {w} else r.haves)
  {
  }

  lemma DueMore(s: WS.State, picks: map<Want, Peer>, ws: set<Want>, w: Want, joined: set<Peer>, p: Peer)
    requires WS.Picks(s, picks) && w in s.wants
    ensures var d, d' := Due(s, picks, ws, joined, p), Due(s, picks, ws + {w}, joined, p);
            && d'.blocks == (if PutsBlock(s, picks, w, p) then d.blocks + {w} else d.blocks)
            && d'.haves == (if PutsHave(s, picks, w, joined, p) then d.haves + {w} else d.haves)
  {
  }

  lemma DueTurn(s: WS.State, picks: map<Want, Peer>, ws: set<Want>, w: Want, joined: set<Peer>, p: Peer,
                toSend: map<Peer, Request>)
    requires Collects(s, picks, ws, joined, toSend) && w in s.wants && w !in ws
    ensures For(Turn(s, picks, w, joined, toSend), p) == Due(s, picks, ws + {w}, joined, p)
  {
    TurnAt(s, picks, w, joined, p, toSend);
    DueMore(s, picks, ws, w, joined, p);
  }

  lemma TurnCollects(s: WS.State, picks: map<Want, Peer>, ws: set<Want>, w: Want, joined: set<Peer>,
                     toSend: map<Peer, Request>)
    requires Collects(s, picks, ws, joined, toSend) && w in s.wants && w !in ws
    ensures Collects(s, picks, ws + {w}, joined, Turn(s, picks, w, joined, toSend))
  {
    var r := Turn(s, picks, w, joined, toSend);
    forall p ensures For(r, p) == Due(s, picks, ws + {w}, joined, p) && (p in r ==> r[p] != NOTHING) {
      DueTurn(s, picks, ws, w, joined, p, toSend);
      NotEmptied(s, picks, w, joined, toSend, p);
    }
  }

  lemma NotEmptied(s: WS.State, picks: map<Want, Peer>, w: Want, joined: set<Peer>, toSend: map<Peer, Request>, p: Peer)
    requires WS.Picks(s, picks) && w in s.wants && (p in toSend ==> toSend[p] != NOTHING)
    ensures var r := Turn(s, picks, w, joined, toSend); p in r ==> r[p] != NOTHING
  {
    var r := Turn(s, picks, w, joined, toSend);
    if p in r && p !in toSend {
      assert w in r[p].blocks + r[p].haves;
    }
    if p in r && p in toSend {
      assert toSend[p].blocks <= r[p].blocks && toSend[p].haves <= r[p].haves;
    }
  }

  /** `sendWants` adds want-haves for every other want that the peer has not been sent as a
      want-block. */
  function Piggybacked(s: WS.State, p: Peer, r: Request): Request {
    r.(haves := r.haves + set w | w in s.wants && w !in r.blocks && (p, w) !in s.sent)
  }

  /** What `sendWants` sends. */
  function Requests(s: WS.State, toSend: map<Peer, Request>): map<Peer, Request> {
    map p | p in toSend :: Piggybacked(s, p, toSend[p])
  }

  /** A want that can be sent goes as a want-block to the peer picked for it and to no other, and as
      a want-have to every other session peer. */
  lemma OneWantBlock(s: WS.State, picks: map<Want, Peer>, joined: set<Peer>, toSend: map<Peer, Request>, w: Want,
                     p: Peer)
    requires Collects(s, picks, s.wants.Keys, joined, toSend) && w in WS.Chosen(s, picks)
    ensures var rs := Requests(s, toSend);
            && (p in rs && w in rs[p].blocks <==> p == picks[w])
            && (p in s.peers && p != picks[w] ==> p in rs && w in rs[p].haves)
  {
    var d := Due(s, picks, s.wants.Keys, joined, p);
    assert For(toSend, p) == d;
    assert w in d.blocks <==> p == picks[w];
    assert p in s.peers && p != picks[w] ==> w in d.haves;
  }

  // ---------------------------------------------------------------------------------------
  // The object
  // ---------------------------------------------------------------------------------------

  /** The keys of blocks in the updates so far. */
  lemma BlocksSnoc(us: seq<WS.Update>, u: WS.Update)
    ensures WS.Blocks(Whole(us + [u])) == WS.Blocks(Whole(us)) + WS.Set(u.ks)
  {
    assert Whole(us + [u]) == Whole(us) + {u};
  }

  lemma UpdatesSnoc(changes: seq<WS.Change>, c: WS.Change)
    ensures WS.UpdatesOf(changes + [c]) == WS.UpdatesOf(changes) + if c.update.from != NO_PEER then {c.update} else {}
  {
  }

  lemma WholeSnoc(us: seq<WS.Update>, u: WS.Update)
    ensures Whole(us + [u]) == Whole(us) + {u}
  {
  }

  /** No session peer and no recorded peer is the empty one. */
  predicate Named(s: WS.State) {
    NO_PEER !in s.peers && forall w :: w in s.wants ==> NO_PEER !in s.wants[w].beliefs
  }

  // ---- the peers for which availability has been processed ----

  function JoinedOf(s: WS.State, av: map<Peer, bool>, done: set<Peer>): set<Peer> {
    set p | p in done && p in av && av[p] && p !in s.peers
  }

  function LeftOf(s: WS.State, av: map<Peer, bool>, done: set<Peer>): set<Peer> {
    set p | p in done && p in av && !av[p] && p in s.peers
  }

  lemma JoinedMore(s: WS.State, av: map<Peer, bool>, done: set<Peer>, p: Peer)
    requires p in av
    ensures JoinedOf(s, av, done + {p}) == JoinedOf(s, av, done) + if av[p] && p !in s.peers then {p} else {}
    ensures LeftOf(s, av, done + {p}) == LeftOf(s, av, done) + if !av[p] && p in s.peers then {p} else {}
  {
  }

  ghost predicate Shifting(s: WS.State, c: WS.State, av: map<Peer, bool>, done: set<Peer>, joined: set<Peer>,
                           left: set<Peer>, m: BP.Presence) {
    joined == JoinedOf(s, av, done) && left == LeftOf(s, av, done) && c == Shifted(s, joined, left, m)
  }

  lemma ShiftedPeers(s: WS.State, av: map<Peer, bool>, done: set<Peer>, p: Peer, m: BP.Presence)
    requires p !in done
    ensures p in Shifted(s, JoinedOf(s, av, done), LeftOf(s, av, done), m).peers <==> p in s.peers
  {
  }

  method LearnOfAll(was: Wants, p: Peer, m: BP.Presence) returns (wants: Wants)
    ensures wants.Keys == was.Keys && forall w :: w in was ==> wants[w] == WS.Learn(was[w], {p}, m, w.cid)
  {
    wants := was;
    var todo := wants.Keys;
    while todo != {}
      invariant todo <= was.Keys && wants.Keys == was.Keys
      invariant forall w :: w in was ==> wants[w] == if w in todo then was[w] else WS.Learn(was[w], {p}, m, w.cid)
      decreases todo
    {
      var w :| w in todo;
      wants := UpdateWantBlockPresence(wants, w, p, m);
      todo := todo - {w};
    }
  }

  method UpdateWantBlockPresence(was: Wants, w: Want, p: Peer, m: BP.Presence) returns (wants: Wants)
    ensures wants == if w in was then was[w := WS.Learn(was[w], {p}, m, w.cid)] else was
  {
    wants := was;
    if w in wants {
      var i, b := wants[w], WS.Look(m, p, w.cid);
      LearnOne(i, p, m, w.cid);
      wants := wants[w := WS.Info(i.beliefs[p := b], i.sentTo, i.exhausted && b != WS.Have)];
    }
  }

  method ForgetInAll(was: Wants, p: Peer) returns (wants: Wants)
    ensures wants == map w | w in was :: WS.Forget(was[w], {p})
  {
    wants := was;
    var todo := wants.Keys;
    while todo != {}
      invariant todo <= was.Keys && wants.Keys == was.Keys
      invariant forall w :: w in was ==> wants[w] == if w in todo then was[w] else WS.Forget(was[w], {p})
      decreases todo
    {
      var w :| w in todo;
      var i := wants[w];
      wants := wants[w := WS.Info(i.beliefs - {p}, if i.sentTo == p then NO_PEER else i.sentTo, i.exhausted)];
      todo := todo - {w};
    }
  }

  function RefusedIn(us: seq<WS.Update>, blocks: set<Want>): set<Want> {
    set u, w | u in us && w in u.dontHaves && w !in blocks :: w
  }

  lemma RefusedInSnoc(us: seq<WS.Update>, u: WS.Update, blocks: set<Want>)
    ensures RefusedIn(us + [u], blocks) == RefusedIn(us, blocks) + (WS.Set(u.dontHaves) - blocks)
  {
    forall w ensures w in RefusedIn(us + [u], blocks) <==> w in RefusedIn(us, blocks) + (WS.Set(u.dontHaves) - blocks) {
      if x :| x in us && w in x.dontHaves && w !in blocks {
        assert x in us + [u];
      }
      if w in u.dontHaves && w !in blocks {
        assert u in us + [u];
      }
    }
  }

  lemma NamedWhenCovered(s: WS.State)
    requires WS.Covered(s)
    ensures Named(s)
  {
    forall w | w in s.wants ensures NO_PEER !in s.wants[w].beliefs {
      assert WS.InfoCovered(s.peers, s.sent, w, s.wants[w]);
    }
  }

  lemma SamePicks(s: WS.State, changes: seq<WS.Change>, m: BP.Presence, picks: map<Want, Peer>)
    ensures var b, b' := WS.Batch(changes, m, map[]), WS.Batch(changes, m, picks);
            WS.Before(s, b) == WS.Before(s, b') && WS.Reported(s, b) == WS.Reported(s, b')
  {
  }

  lemma Senders(changes: seq<WS.Change>, us: seq<WS.Update>)
    requires Whole(us) == WS.UpdatesOf(changes)
    ensures forall u :: u in us ==> u.from != NO_PEER
  {
    forall u | u in us ensures u.from != NO_PEER {
      assert u in Whole(us);
    }
  }

  /** What a change says of availability, and its update unless it has none. */
  method Note(c: WS.Change, av: map<Peer, bool>, us: seq<WS.Update>) returns (av': map<Peer, bool>, us': seq<WS.Update>)
    ensures av' == WS.Noted(av, c) && Whole(us') == Whole(us) + if c.update.from != NO_PEER then {c.update} else {}
  {
    av', us' := av, us;
    if c.update.from != NO_PEER {
      if c.update.ks != [] || c.update.haves != [] {
        av' := av'[c.update.from := true];
      }
      WholeSnoc(us, c.update);
      us' := us' + [c.update];
    }
    if c.target != NO_PEER {
      av' := av'[c.target := c.available];
    }
  }

  class Sender {
    var wants: Wants
    var peers: set<Peer>
    var sent: set<(Peer, Want)>

    function State(): WS.State
      reads this
    {
      WS.State(wants, peers, sent)
    }

    constructor ()
      ensures State() == WS.NEW
    {
      wants, peers, sent := map[], {}, {};
    }

    // ---- tracking ----

    /** A new want learns what is known of each session peer. */
    method TrackWant(w: Want, m: BP.Presence)
      modifies this`wants
      ensures wants == if w in old(wants) then old(wants) else old(wants)[w := WS.Tracking(peers, m, w.cid)]
    {
      if w in wants { return; }
      var info := WS.Info(map[], NO_PEER, false);
      ghost var none := info;
      LearnNone(none, m, w.cid);
      var todo := peers;
      while todo != {}
        invariant todo <= peers && wants == old(wants) && info == WS.Learn(none, peers - todo, m, w.cid)
        decreases todo
      {
        var p :| p in todo;
        LearnMore(none, peers - todo, {p}, m, w.cid);
        assert peers - (todo - {p}) == peers - todo + {p};
        LearnOne(info, p, m, w.cid);
        var b := WS.Look(m, p, w.cid);
        info := WS.Info(info.beliefs[p := b], info.sentTo, info.exhausted && b != WS.Have);
        todo := todo - {p};
      }
      assert peers - todo == peers;
      assert info == WS.Tracking(peers, m, w.cid);
      wants := wants[w := info];
    }

    method TrackAll(ws: seq<Want>, m: BP.Presence)
      modifies this`wants
      ensures wants == WithAdded(old(State()), WS.Set(ws), m)
    {
      ghost var s := State();
      AddNone(s, m);
      assert WS.Set([]) == {};
      for i := 0 to |ws|
        invariant wants == WithAdded(s, WS.Set(ws[..i]), m)
      {
        assert ws[..i + 1] == ws[..i] + [ws[i]];
        SetSnoc(ws[..i], ws[i]);
        AddStep(s, WS.Set(ws[..i]), ws[i], m);
        TrackWant(ws[i], m);
      }
      assert ws[..|ws|] == ws;
    }

    method UntrackAll(ws: seq<Want>)
      modifies this`wants
      ensures wants == old(wants) - WS.Set(ws)
    {
      ghost var was := wants;
      assert WS.Set([]) == {} && was - {} == was;
      for i := 0 to |ws|
        invariant wants == was - WS.Set(ws[..i])
      {
        assert ws[..i + 1] == ws[..i] + [ws[i]];
        SetSnoc(ws[..i], ws[i]);
        assert was - WS.Set(ws[..i]) - {ws[i]} == was - WS.Set(ws[..i + 1]);
        wants := wants - {ws[i]};
      }
      assert ws[..|ws|] == ws;
    }

    method ApplyChange(c: WS.Change, m: BP.Presence)
      modifies this`wants
      ensures State() == WS.ApplyChange(old(State()), c, m)
    {
      TrackAll(c.add, m);
      UntrackAll(c.cancel);
    }

    // ---- availability ----

    method ProcessAvailability(av: map<Peer, bool>, m: BP.Presence) returns (joined: set<Peer>, left: set<Peer>)
      requires NO_PEER !in av
      modifies this`wants, this`peers
      ensures State() == WS.ProcessAvailability(old(State()), av, m)
      ensures joined == WS.Joining(old(State()), av) && left == WS.Leaving(old(State()), av)
    {
      ghost var s := State();
      joined, left := {}, {};
      ShiftNone(s, m);
      var todo := av.Keys;
      ghost var done: set<Peer> := {};
      while todo != {}
        invariant done + todo == av.Keys && done !! todo && Shifting(s, State(), av, done, joined, left, m)
        decreases todo
      {
        var p :| p in todo;
        joined, left := Shift(p, av[p], joined, left, s, av, done, m);
        todo, done := todo - {p}, done + {p};
      }
      assert joined == WS.Joining(s, av) && left == WS.Leaving(s, av);
    }

    method Shift(p: Peer, available: bool, joined: set<Peer>, left: set<Peer>, ghost s: WS.State,
                 ghost av: map<Peer, bool>, ghost done: set<Peer>, m: BP.Presence)
      returns (joined': set<Peer>, left': set<Peer>)
      requires p in av && av[p] == available && p !in done && NO_PEER !in av
      requires Shifting(s, State(), av, done, joined, left, m)
      modifies this`wants, this`peers
      ensures Shifting(s, State(), av, done + {p}, joined', left', m)
    {
      joined', left' := joined, left;
      JoinedMore(s, av, done, p);
      ShiftedPeers(s, av, done, p, m);
      if available && p !in peers {
        ghost var c := State();
        peers, joined' := peers + {p}, joined + {p};
        wants := LearnOfAll(wants, p, m);
        ShiftJoin(s, c, State(), joined, left, p, m);
      } else if !available && p in peers {
        ShiftLeave(s, joined, left, p, m);
        peers, left' := peers - {p}, left + {p};
        wants := ForgetInAll(wants, p);
      }
    }

    // ---- updates ----

    method ProcessUpdates(us: seq<WS.Update>, m: BP.Presence) returns (refused: set<Want>)
      requires forall u :: u in us ==> u.from != NO_PEER
      modifies this`wants
      ensures State() == WS.ProcessUpdates(old(State()), Whole(us), m) && refused == WS.Refused(Whole(us))
    {
      ghost var s := State();
      var blocks := RemoveReceived(us);
      UpdatesIs(s, us, blocks, m);
      refused := ProcessDontHaves(us, blocks, m);
      ProcessHaves(us, blocks, m);
    }

    /** Wants whose blocks arrived are no longer wanted. */
    method RemoveReceived(us: seq<WS.Update>) returns (blocks: set<Want>)
      modifies this`wants
      ensures blocks == WS.Blocks(Whole(us)) && wants == old(wants) - blocks
    {
      blocks := {};
      ghost var was := wants;
      assert was - {} == was;
      for k := 0 to |us|
        invariant blocks == WS.Blocks(Whole(us[..k])) && wants == was - blocks
      {
        assert us[..k + 1] == us[..k] + [us[k]];
        BlocksSnoc(us[..k], us[k]);
        blocks := RemoveBlocks(us[k].ks, blocks, was);
      }
      assert us[..|us|] == us;
    }

    method RemoveBlocks(ks: seq<Want>, before: set<Want>, ghost was: Wants) returns (blocks: set<Want>)
      requires wants == was - before
      modifies this`wants
      ensures blocks == before + WS.Set(ks) && wants == was - blocks
    {
      blocks := before;
      assert before + WS.Set([]) == before;
      for i := 0 to |ks|
        invariant blocks == before + WS.Set(ks[..i]) && wants == was - blocks
      {
        assert ks[..i + 1] == ks[..i] + [ks[i]];
        SetSnoc(ks[..i], ks[i]);
        assert was - (blocks + {ks[i]}) == was - blocks - {ks[i]};
        blocks := blocks + {ks[i]};
        wants := wants - {ks[i]};
      }
      assert ks[..|ks|] == ks;
    }

    method ProcessDontHaves(us: seq<WS.Update>, blocks: set<Want>, m: BP.Presence) returns (refused: set<Want>)
      modifies this`wants
      ensures State() == RefuseAll(old(State()), us, blocks, m)
      ensures refused == set u, w | u in us && w in u.dontHaves && w !in blocks :: w
    {
      ghost var s := State();
      refused := {};
      for k := 0 to |us|
        invariant State() == RefuseAll(s, us[..k], blocks, m)
        invariant refused == RefusedIn(us[..k], blocks)
      {
        assert us[..k + 1][..k] == us[..k];
        assert us[..k + 1] == us[..k] + [us[k]];
        RefusedInSnoc(us[..k], us[k], blocks);
        refused := ProcessDontHavesOf(us[k].from, us[k].dontHaves, blocks, m, refused);
      }
      assert us[..|us|] == us;
    }

    method ProcessDontHavesOf(from: Peer, ws: seq<Want>, blocks: set<Want>, m: BP.Presence, before: set<Want>)
      returns (refused: set<Want>)
      modifies this`wants
      ensures State() == RefuseEach(old(State()), from, ws, blocks, m) && refused == before + (WS.Set(ws) - blocks)
    {
      ghost var s := State();
      refused := before;
      assert before + (WS.Set([]) - blocks) == before;
      for i := 0 to |ws|
        invariant State() == RefuseEach(s, from, ws[..i], blocks, m) && refused == before + (WS.Set(ws[..i]) - blocks)
      {
        assert ws[..i + 1][..i] == ws[..i];
        assert ws[..i + 1] == ws[..i] + [ws[i]];
        SetSnoc(ws[..i], ws[i]);
        if ws[i] !in blocks {
          refused := refused + {ws[i]};
          DontHaveReceived(from, ws[i], m);
        }
      }
      assert ws[..|ws|] == ws;
    }

    /** The belief is updated, and if the want-block was sent to this peer it is no longer in flight. */
    method DontHaveReceived(from: Peer, w: Want, m: BP.Presence)
      modifies this`wants
      ensures State() == Refusal(old(State()), from, w, m)
    {
      wants := UpdateWantBlockPresence(wants, w, from, m);
      assert {from} + {} == {from};
      if (from, w) in sent && w in wants && wants[w].sentTo == from {
        wants := wants[w := wants[w].(sentTo := NO_PEER)];
      }
    }

    method ProcessHaves(us: seq<WS.Update>, blocks: set<Want>, m: BP.Presence)
      modifies this`wants
      ensures State() == HaveAll(old(State()), us, blocks, m)
    {
      ghost var s := State();
      for k := 0 to |us|
        invariant State() == HaveAll(s, us[..k], blocks, m)
      {
        assert us[..k + 1][..k] == us[..k];
        ProcessHavesOf(us[k].from, us[k].haves, blocks, m);
      }
      assert us[..|us|] == us;
    }

    method ProcessHavesOf(from: Peer, ws: seq<Want>, blocks: set<Want>, m: BP.Presence)
      modifies this`wants
      ensures State() == HaveEach(old(State()), from, ws, blocks, m)
    {
      ghost var s := State();
      for i := 0 to |ws|
        invariant State() == HaveEach(s, from, ws[..i], blocks, m)
      {
        assert ws[..i + 1][..i] == ws[..i];
        if ws[i] !in blocks {
          wants := UpdateWantBlockPresence(wants, ws[i], from, m);
        }
      }
      assert ws[..|ws|] == ws;
    }

    // ---- exhaustion ----

    /** Reports wants that all peers have refused, unless reported before. */
    method CheckForExhaustedWants(refused: set<Want>, left: set<Peer>, m: BP.Presence) returns (reported: set<Want>)
      modifies this`wants
      ensures reported == WS.NewlyExhausted(old(State()), refused, left != {}, m)
      ensures State() == WS.Flag(old(State()), reported)
    {
      ghost var s := State();
      FlagNone(s);
      reported := {};
      if refused == {} && left == {} { return; }
      var candidates := if left != {} then wants.Keys else refused;
      if !(left != {} && peers == {}) {
        candidates := AllRefuse(candidates, m);
      }
      reported := NewlyExhausted(candidates);
    }

    method AllRefuse(ws: set<Want>, m: BP.Presence) returns (r: set<Want>)
      ensures r == set w | w in ws && BP.AllDontHave(m, peers, w.cid)
    {
      r := {};
      var todo := ws;
      while todo != {}
        invariant todo <= ws && r == set w | w in ws - todo && BP.AllDontHave(m, peers, w.cid)
        decreases todo
      {
        var w :| w in todo;
        todo := todo - {w};
        if BP.AllDontHave(m, peers, w.cid) {
          r := r + {w};
        }
      }
    }

    /** Those of the wants that are not marked as exhausted, which are marked now. */
    method NewlyExhausted(ws: set<Want>) returns (r: set<Want>)
      modifies this`wants
      ensures r == (set w | w in ws && w in old(wants) && !old(wants)[w].exhausted) &&
              State() == WS.Flag(old(State()), r)
    {
      ghost var s := State();
      r := {};
      FlagNone(s);
      var todo := ws;
      while todo != {}
        invariant todo <= ws && State() == WS.Flag(s, r)
        invariant r == set w | w in ws - todo && w in s.wants && !s.wants[w].exhausted
        decreases todo
      {
        var w :| w in todo;
        todo := todo - {w};
        if w in wants && !wants[w].exhausted {
          FlagMore(s, r, w);
          r := r + {w};
          wants := wants[w := wants[w].(exhausted := true)];
        }
      }
    }

    // ---- sending ----

    /** The best peer for each want. The beliefs it depends on do not change between its calculation
        and its use. */
    method BestPeers() returns (best: map<Want, Peer>)
      requires Named(State())
      ensures WS.Picks(State(), best)
    {
      best := map[];
      var todo := wants.Keys;
      while todo != {}
        invariant todo <= wants.Keys && best.Keys == wants.Keys - todo
        invariant forall w :: w in best ==> WS.IsBest(wants[w].beliefs, best[w])
        decreases todo
      {
        var w :| w in todo;
        var p := CalculateBestPeer(wants[w].beliefs);
        best := best[w := p];
        todo := todo - {w};
      }
    }

    method SendNextWants(joined: set<Peer>, best: map<Want, Peer>)
      returns (requests: map<Peer, Request>, ghost toSend: map<Peer, Request>)
      requires WS.Picks(State(), best)
      modifies this`wants, this`sent
      ensures State() == WS.SendNext(old(State()), best)
      ensures Collects(old(State()), best, old(wants).Keys, joined, toSend) &&
              requests == Requests(old(State()), toSend)
    {
      ghost var s := State();
      var all := CollectWants(joined, best);
      toSend := all;
      requests := SendWants(all, best, s);
    }

    /** Which want-blocks and want-haves are due to which peer. */
    method CollectWants(joined: set<Peer>, best: map<Want, Peer>) returns (toSend: map<Peer, Request>)
      requires WS.Picks(State(), best)
      ensures Collects(State(), best, wants.Keys, joined, toSend)
    {
      toSend := map[];
      var todo := wants.Keys;
      ghost var done: set<Want> := {};
      while todo != {}
        invariant done + todo == wants.Keys && done !! todo && Collects(State(), best, done, joined, toSend)
        decreases todo
      {
        var w :| w in todo;
        TurnCollects(State(), best, done, w, joined, toSend);
        toSend := AddHaves(toSend, joined, w);
        if wants[w].sentTo == NO_PEER && best[w] != NO_PEER {
          toSend := PutBlock(toSend, best[w], w);
          toSend := AddHaves(toSend, peers - {best[w]}, w);
        }
        todo, done := todo - {w}, done + {w};
      }
      assert done == wants.Keys;
    }

    /** Marks the chosen wants as sent and adds want-haves to every request. */
    method SendWants(toSend: map<Peer, Request>, best: map<Want, Peer>, ghost s: WS.State)
      returns (requests: map<Peer, Request>)
      requires s == State() && WS.Picks(s, best)
      modifies this`wants, this`sent
      ensures State() == WS.SendNext(s, best) && requests == Requests(s, toSend)
    {
      requests := Piggyback(toSend);
      var chosen := MarkSent(best);
      sent := sent + set w | w in chosen :: (best[w], w);
    }

    method Piggyback(toSend: map<Peer, Request>) returns (requests: map<Peer, Request>)
      ensures requests == Requests(State(), toSend)
    {
      requests := map[];
      var todo := toSend.Keys;
      while todo != {}
        invariant todo <= toSend.Keys && requests.Keys == toSend.Keys - todo
        invariant forall p :: p in requests ==> requests[p] == Piggybacked(State(), p, toSend[p])
        decreases todo
      {
        var p :| p in todo;
        todo := todo - {p};
        var r := toSend[p];
        var more := set w | w in wants && w !in r.blocks && (p, w) !in sent;
        requests := requests[p := r.(haves := r.haves + more)];
      }
    }

    method MarkSent(best: map<Want, Peer>) returns (chosen: set<Want>)
      requires WS.Picks(State(), best)
      modifies this`wants
      ensures chosen == WS.Chosen(old(State()), best) && wants == WS.SendNext(old(State()), best).wants
    {
      ghost var s := State();
      chosen := {};
      var todo := wants.Keys;
      while todo != {}
        invariant todo <= s.wants.Keys && wants.Keys == s.wants.Keys
        invariant chosen == WS.Chosen(s, best) - todo
        invariant forall w :: w in wants ==>
                  wants[w] == if w in chosen then s.wants[w].(sentTo := best[w]) else s.wants[w]
        decreases todo
      {
        var w :| w in todo;
        todo := todo - {w};
        if wants[w].sentTo == NO_PEER && best[w] != NO_PEER {
          wants := wants[w := wants[w].(sentTo := best[w])];
          chosen := chosen + {w};
        }
      }
      assert chosen == WS.Chosen(s, best);
    }

    // ---- a batch ----

    /** The changes of a batch: wants are tracked and untracked, availability and updates collected. */
    method ApplyChanges(changes: seq<WS.Change>, m: BP.Presence) returns (av: map<Peer, bool>, us: seq<WS.Update>)
      modifies this`wants
      ensures State() == WS.ApplyChanges(old(State()), changes, m)
      ensures av == WS.Availability(changes) && Whole(us) == WS.UpdatesOf(changes)
    {
      ghost var s := State();
      av, us := map[], [];
      for i := 0 to |changes|
        invariant State() == WS.ApplyChanges(s, changes[..i], m)
        invariant av == WS.Availability(changes[..i]) && Whole(us) == WS.UpdatesOf(changes[..i])
      {
        var c := changes[i];
        assert changes[..i + 1][..i] == changes[..i];
        assert changes[..i + 1] == changes[..i] + [c];
        UpdatesSnoc(changes[..i], c);
        ApplyChange(c, m);
        av, us := Note(c, av, us);
      }
      assert changes[..|changes|] == changes;
    }

    /** Everything in a batch up to the sending. */
    method Digest(changes: seq<WS.Change>, m: BP.Presence) returns (joined: set<Peer>, reported: set<Want>)
      modifies this`wants, this`peers
      ensures var b := WS.Batch(changes, m, map[]);
              && State() == WS.Before(old(State()), b) && reported == WS.Reported(old(State()), b)
              && joined == WS.Joining(WS.ApplyChanges(old(State()), changes, m), WS.Availability(changes))
    {
      WS.SomebodyThere(changes);
      var av, us := ApplyChanges(changes, m);
      var left;
      joined, left := ProcessAvailability(av, m);
      Senders(changes, us);
      var refused := ProcessUpdates(us, m);
      reported := CheckForExhaustedWants(refused, left, m);
    }

    /** `onChange`: processes a batch of changes, reports exhausted wants, and sends requests if there
        is a peer in the session. */
    method OnChange(changes: seq<WS.Change>, m: BP.Presence)
      returns (reported: set<Want>, requests: map<Peer, Request>, ghost b: WS.Batch, ghost toSend: map<Peer, Request>)
      requires WS.Covered(State())
      modifies this
      ensures b.changes == changes && b.presence == m && WS.Enabled(old(State()), b)
      ensures State() == WS.Next(old(State()), b) && reported == WS.Reported(old(State()), b)
      ensures var s, s' := old(State()), WS.Before(old(State()), b);
              if s'.peers == {} then requests == map[]
              else
                var joined := WS.Joining(WS.ApplyChanges(s, changes, m), WS.Availability(changes));
                Collects(s', b.picks, s'.wants.Keys, joined, toSend) && requests == Requests(s', toSend)
    {
      ghost var s := State();
      var joined;
      joined, reported := Digest(changes, m);
      WS.BeforeCovered(s, WS.Batch(changes, m, map[]));
      NamedWhenCovered(State());
      var best := BestPeers();
      b := WS.Batch(changes, m, best);
      SamePicks(s, changes, m, best);
      requests, toSend := map[], map[];
      if peers != {} {
        requests, toSend := SendNextWants(joined, best);
      }
    }
  }
}
