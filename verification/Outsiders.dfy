/** Peers outside the session (internal/session/sessionwantsender.go): answers are recorded from any
    sender, so that the best peer for a want, and with it the want-block, may be outside. */
module Outsiders {
  import opened Basics
  import BP = BlockPresence
  import opened WantSender

  /** Every peer that can be picked is in the session. */
  ghost predicate PicksInside(beliefs: map<Peer, Belief>, peers: set<Peer>) {
    forall p :: p != NO_PEER && IsBest(beliefs, p) ==> p in peers
  }

  predicate Outranked(beliefs: map<Peer, Belief>, peers: set<Peer>, q: Peer)
    requires q in beliefs
  {
    beliefs[q] == DontHave || exists p :: p in peers && p in beliefs && Rank(beliefs[q]) < Rank(beliefs[p])
  }

  /** Either the peer can be picked, or one that is better. */
  lemma SomeBest(beliefs: map<Peer, Belief>, q: Peer) returns (r: Peer)
    requires NO_PEER !in beliefs && q in beliefs && beliefs[q] != DontHave
    ensures IsBest(beliefs, r) && r in beliefs && (r == q || Rank(beliefs[q]) < Rank(beliefs[r]))
  {
    r := q;
    if beliefs[q] == Unknown {
      if h :| h in beliefs && beliefs[h] == Have {
        r := h;
      }
    }
  }

  /** A want-block can only go to a session peer if and only if every outsider of whom something is
      recorded has refused, or some session peer is better. */
  lemma PicksInsideIff(beliefs: map<Peer, Belief>, peers: set<Peer>)
    requires NO_PEER !in beliefs
    ensures PicksInside(beliefs, peers) <==> forall q :: q in beliefs && q !in peers ==> Outranked(beliefs, peers, q)
  {
    if PicksInside(beliefs, peers) {
      forall q | q in beliefs && q !in peers ensures Outranked(beliefs, peers, q) {
        if beliefs[q] != DontHave {
          var r := SomeBest(beliefs, q);
          assert r in peers;
        }
      }
    }
  }

  /** Nothing better than a refusal is recorded of peers outside the session. */
  predicate InfoInside(peers: set<Peer>, i: Info) {
    forall p :: p in i.beliefs && p !in peers ==> i.beliefs[p] == DontHave
  }

  predicate OutsidersRefuse(s: State) { forall w :: w in s.wants ==> InfoInside(s.peers, s.wants[w]) }

  /** Want-blocks are in flight to session peers only. */
  predicate FlightInside(s: State) {
    forall w :: w in s.wants ==> s.wants[w].sentTo == NO_PEER || s.wants[w].sentTo in s.peers
  }

  function PeersAfter(s: State, b: Batch): set<Peer> { s.peers + Joined(s, b) - Left(s, b) }

  predicate AnswersInsideFor(s: State, b: Batch, w: Want) {
    forall p :: p in Refusers(b, w) + Havers(b, w) ==> p in PeersAfter(s, b) || Look(b.presence, p, w.cid) == DontHave
  }

  /** Whoever answers for a want that stays tracked is in the session after the batch's changes of
      availability, or is on record as not having the block. */
  predicate AnswersInside(s: State, b: Batch) {
    forall w :: w in Before(s, b).wants ==> AnswersInsideFor(s, b, w)
  }

  lemma {:induction false} ApplyInside(s: State, changes: seq<Change>, m: BP.Presence)
    requires OutsidersRefuse(s) && FlightInside(s)
    ensures var s' := ApplyChanges(s, changes, m); OutsidersRefuse(s') && FlightInside(s') && s'.peers == s.peers
  {
    if changes != [] {
      var n := |changes| - 1;
      var s1 := ApplyChanges(s, changes[..n], m);
      ApplyInside(s, changes[..n], m);
      var s2 := ApplyChange(s1, changes[n], m);
      forall w | w in s2.wants
        ensures InfoInside(s2.peers, s2.wants[w]) && (s2.wants[w].sentTo == NO_PEER || s2.wants[w].sentTo in s2.peers)
      {
        assert w in s1.wants ==> InfoInside(s1.peers, s1.wants[w]);
      }
    }
  }

  lemma AnswerInside(i: Info, w: Want, peers: set<Peer>, joined: set<Peer>, left: set<Peer>,
                     refused: set<Peer>, had: set<Peer>, sent: set<(Peer, Want)>, m: BP.Presence)
    requires InfoInside(peers, i)
    ensures var i' := Answered(Forget(Learn(i, joined, m, w.cid), left), w, refused, had, sent, m);
            var peers' := peers + joined - left;
            && (InfoInside(peers', i') <==>
                  forall p :: p in refused + had ==> p in peers' || Look(m, p, w.cid) == DontHave)
            && (i.sentTo == NO_PEER || i.sentTo in peers ==> i'.sentTo == NO_PEER || i'.sentTo in peers')
  {
    var i' := Answered(Forget(Learn(i, joined, m, w.cid), left), w, refused, had, sent, m);
    assert forall p :: p in refused + had ==> p in i'.beliefs && i'.beliefs[p] == Look(m, p, w.cid);
  }

  lemma UpdatedInside(s: State, b: Batch, w: Want)
    requires OutsidersRefuse(s) && FlightInside(s) && w in Updated(s, b).wants
    ensures Updated(s, b).peers == PeersAfter(s, b)
    ensures InfoInside(PeersAfter(s, b), Updated(s, b).wants[w]) <==> AnswersInsideFor(s, b, w)
    ensures Updated(s, b).wants[w].sentTo == NO_PEER || Updated(s, b).wants[w].sentTo in PeersAfter(s, b)
  {
    ApplyInside(s, b.changes, b.presence);
    ReportedIs(s, b);
    var s1, av := ApplyChanges(s, b.changes, b.presence), Availability(b.changes);
    assert Joining(s1, av) == Joined(s, b) && Leaving(s1, av) == Left(s, b);
    assert InfoInside(s1.peers, s1.wants[w]);
    AnswerInside(s1.wants[w], w, s1.peers, Joined(s, b), Left(s, b), Refusers(b, w), Havers(b, w), s1.sent, b.presence);
  }

  lemma SendInside(s: State, picks: map<Want, Peer>)
    requires Picks(s, picks) && FlightInside(s)
    ensures OutsidersRefuse(SendIfPeers(s, picks)) <==> OutsidersRefuse(s)
    ensures OutsidersRefuse(s) ==> FlightInside(SendIfPeers(s, picks))
  {
    var s' := SendIfPeers(s, picks);
    forall w | w in s.wants
      ensures InfoInside(s'.peers, s'.wants[w]) <==> InfoInside(s.peers, s.wants[w])
      ensures InfoInside(s.peers, s.wants[w]) ==> s'.wants[w].sentTo == NO_PEER || s'.wants[w].sentTo in s'.peers
    {
      SendIs(s, picks, w);
      assert IsBest(s.wants[w].beliefs, picks[w]);
    }
  }

  /** After a batch nothing better than a refusal is recorded of outsiders exactly if whoever
      answered is inside or on record as not having the block; then want-blocks stay inside. */
  lemma InsideIff(s: State, b: Batch)
    requires OutsidersRefuse(s) && FlightInside(s) && Enabled(s, b)
    ensures OutsidersRefuse(Next(s, b)) <==> AnswersInside(s, b)
    ensures AnswersInside(s, b) ==> FlightInside(Next(s, b))
  {
    var s', u := Before(s, b), Updated(s, b);
    SamePeers(s, b.changes, b.presence);
    ReportedIs(s, b);
    forall w | w in s'.wants
      ensures InfoInside(s'.peers, s'.wants[w]) <==> AnswersInsideFor(s, b, w)
      ensures s'.wants[w].sentTo == NO_PEER || s'.wants[w].sentTo in s'.peers
    {
      UpdatedInside(s, b, w);
    }
    SendInside(s', b.picks);
  }

  predicate AllAnswersInside(s: State, bs: seq<Batch>)
    requires Legal(s, bs)
    decreases |bs|
  {
    bs == [] || (AnswersInside(s, bs[0]) && AllAnswersInside(Next(s, bs[0]), bs[1..]))
  }

  predicate OutsidersAlwaysRefuse(s: State, bs: seq<Batch>)
    requires Legal(s, bs)
    decreases |bs|
  {
    OutsidersRefuse(s) && (bs == [] || OutsidersAlwaysRefuse(Next(s, bs[0]), bs[1..]))
  }

  /** Over a whole run nothing better than a refusal is recorded of outsiders if and only if in each
      batch whoever answers is inside or on record as not having the block. Then a want-block is
      never in flight to a peer outside the session. */
  lemma {:induction false} RunInside(s: State, bs: seq<Batch>)
    requires OutsidersRefuse(s) && FlightInside(s) && Legal(s, bs)
    ensures OutsidersAlwaysRefuse(s, bs) <==> AllAnswersInside(s, bs)
    ensures AllAnswersInside(s, bs) ==> FlightInside(Run(s, bs))
    decreases |bs|
  {
    if bs != [] {
      InsideIff(s, bs[0]);
      if AnswersInside(s, bs[0]) {
        RunInside(Next(s, bs[0]), bs[1..]);
      }
    }
  }

  /** The peer does not refuse the want and does not become available in the batch. */
  predicate Unheard(b: Batch, w: Want, p: Peer) {
    p !in Refusers(b, w) && (p in Availability(b.changes) ==> !Availability(b.changes)[p])
  }

  /** A want in flight to a peer outside the session stays in flight to it, and is sent to nobody
      else, until that peer refuses or joins. That it goes away is not noticed. */
  lemma {:induction false} StuckOutside(s: State, bs: seq<Batch>, w: Want, p: Peer)
    requires Legal(s, bs) && Tracked(s, bs, w) && s.wants[w].sentTo == p && p != NO_PEER && p !in s.peers
    requires forall b :: b in bs ==> Unheard(b, w, p)
    ensures Choices(s, bs, w) == 0 && w in Run(s, bs).wants && Run(s, bs).wants[w].sentTo == p && p !in Run(s, bs).peers
    decreases |bs|
  {
    if bs != [] {
      assert Unheard(bs[0], w, p) && forall b :: b in bs[1..] ==> b in bs;
      NextIs(s, bs[0], w);
      BeforeIs(s, bs[0], w);
      StuckOutside(Next(s, bs[0]), bs[1..], w, p);
    }
  }

  /** Peer `p` joins as the want is added; then `p` and an outsider `q` refuse it in one batch,
      although `q` is on record as having the block. */
  function Joins(w: Want, p: Peer): Batch {
    Batch([Change([w], [], Update(NO_PEER, [], [], []), p, true)], map[], map[w := p])
  }

  function BothRefuse(w: Want, p: Peer, q: Peer): Batch {
    Batch([Change([], [], Update(p, [], [], [w]), NO_PEER, false),
           Change([], [], Update(q, [], [], [w]), NO_PEER, false)],
          map[w.cid := map[p := false, q := true]],
          map[w := q])
  }

  /** The session after the first batch: the want is in flight to its only peer. */
  function InFlight(w: Want, p: Peer): State {
    State(map[w := Info(map[p := Unknown], p, false)], {p}, {(p, w)})
  }

  lemma NobodyAnswers(i: Info, w: Want, sent: set<(Peer, Want)>, m: BP.Presence)
    requires NO_PEER !in i.beliefs
    ensures Answered(i, w, RefusedBy({}, w), HadBy({}, w), sent, m) == i
  {
    assert RefusedBy({}, w) == {} && HadBy({}, w) == {};
    assert Learn(i, {}, m, w.cid).beliefs == i.beliefs;
  }

  lemma FirstJoins(w: Want, p: Peer)
    requires p != NO_PEER
    ensures Forget(Learn(Info(map[], NO_PEER, false), {p}, map[], w.cid), {}) == Info(map[p := Unknown], NO_PEER, false)
  {
    var i := Learn(Info(map[], NO_PEER, false), {p}, map[], w.cid);
    assert i.beliefs == map[p := Unknown] && i.beliefs - {} == i.beliefs;
  }

  lemma JoinsChanges(w: Want, p: Peer)
    requires p != NO_PEER
    ensures var b := Joins(w, p);
            && ApplyChanges(NEW, b.changes, map[]) == State(map[w := Info(map[], NO_PEER, false)], {}, {})
            && Availability(b.changes) == map[p := true] && UpdatesOf(b.changes) == {}
  {
    var b := Joins(w, p);
    var c := b.changes[0];
    assert b.changes[..0] == [] && b.changes == [c];
    assert ApplyChanges(NEW, b.changes, map[]) == ApplyChange(NEW, c, map[]);
    assert Tracking({}, map[], w.cid).beliefs == map[];
    assert Set(c.add) == {w} && Set(c.cancel) == {};
    assert Availability(b.changes) == Noted(Availability([]), c);
  }

  lemma JoinsBefore(w: Want, p: Peer)
    requires p != NO_PEER
    ensures Before(NEW, Joins(w, p)) == State(map[w := Info(map[p := Unknown], NO_PEER, false)], {p}, {})
  {
    var b := Joins(w, p);
    JoinsChanges(w, p);
    var s1 := State(map[w := Info(map[], NO_PEER, false)], {}, {});
    var i := Info(map[p := Unknown], NO_PEER, false);
    var av := map[p := true];
    assert Joining(s1, av) == {p} && Leaving(s1, av) == {};
    FirstJoins(w, p);
    var s2 := ProcessAvailability(s1, av, map[]);
    assert s2.wants == map[w := i] && s2.peers == {p};
    assert Blocks({}) == {} && Refused({}) == {};
    NobodyAnswers(i, w, {}, map[]);
    assert ProcessUpdates(s2, {}, map[]).wants == map[w := i];
    assert Reported(NEW, b) == {};
    assert Before(NEW, b).wants == map[w := i];
  }

  lemma OnlyWantSent(s: State, w: Want, p: Peer)
    requires s.wants.Keys == {w} && s.peers != {} && s.wants[w].sentTo == NO_PEER
    requires p != NO_PEER && IsBest(s.wants[w].beliefs, p)
    ensures Picks(s, map[w := p])
    ensures SendIfPeers(s, map[w := p]) == State(map[w := s.wants[w].(sentTo := p)], s.peers, s.sent + {(p, w)})
  {
    var s' := SendNext(s, map[w := p]);
    assert Chosen(s, map[w := p]) == {w};
    assert s'.wants == map[w := s.wants[w].(sentTo := p)] && s'.sent == s.sent + {(p, w)};
  }

  /** Before sending, the given peer is best for the only want. */
  predicate Ready(s: State, w: Want, p: Peer, peers: set<Peer>, sent: set<(Peer, Want)>) {
    && s.wants.Keys == {w} && s.peers == peers && peers != {} && s.sent == sent
    && p != NO_PEER && s.wants[w].sentTo == NO_PEER && IsBest(s.wants[w].beliefs, p)
  }

  lemma Sends(s: State, b: Batch, w: Want, p: Peer, peers: set<Peer>, sent: set<(Peer, Want)>)
    requires b.picks == map[w := p] && Ready(Before(s, b), w, p, peers, sent)
    ensures Enabled(s, b)
    ensures Next(s, b) == State(map[w := Before(s, b).wants[w].(sentTo := p)], peers, sent + {(p, w)})
  {
    OnlyWantSent(Before(s, b), w, p);
  }

  lemma UnknownReady(s: State, w: Want, p: Peer)
    requires p != NO_PEER && s == State(map[w := Info(map[p := Unknown], NO_PEER, false)], {p}, {})
    ensures Ready(s, w, p, {p}, {})
  {
  }

  lemma JoinsLeadsTo(b: Batch, w: Want, p: Peer)
    requires p != NO_PEER && b.picks == map[w := p]
    requires Before(NEW, b) == State(map[w := Info(map[p := Unknown], NO_PEER, false)], {p}, {})
    ensures Enabled(NEW, b) && Next(NEW, b) == InFlight(w, p)
  {
    UnknownReady(Before(NEW, b), w, p);
    Sends(NEW, b, w, p, {p}, {});
  }

  lemma RefuseChanges(w: Want, p: Peer, q: Peer)
    requires p != NO_PEER && q != NO_PEER
    ensures var b := BothRefuse(w, p, q);
            && CancelledIn(b.changes) == {} && Availability(b.changes) == map[] && Blocks(UpdatesOf(b.changes)) == {}
            && Refusers(b, w) == {p, q} && Havers(b, w) == {}
  {
    var b := BothRefuse(w, p, q);
    var c, d := b.changes[0], b.changes[1];
    assert b.changes == [c, d] && b.changes[..1] == [c] && [c][..0] == [];
    assert Availability([c]) == Noted(Availability([]), c) == map[];
    assert Availability([c, d]) == Noted(Availability([c]), d);
    assert c in b.changes && d in b.changes && UpdatesOf(b.changes) == {c.update, d.update};
  }

  lemma RefuseEvolves(w: Want, p: Peer, q: Peer)
    requires p != NO_PEER && q != NO_PEER && p != q
    ensures var s, b := InFlight(w, p), BothRefuse(w, p, q);
            && Continues(s, b, w) && Joined(s, b) == {} && Left(s, b) == {}
            && IsBest(Evolve(s, b, w).beliefs, q) && Evolve(s, b, w).sentTo == NO_PEER
  {
    var s, b := InFlight(w, p), BothRefuse(w, p, q);
    RefuseChanges(w, p, q);
    assert Joined(s, b) == {} && Left(s, b) == {};
    var i := Forget(Learn(s.wants[w], {}, b.presence, w.cid), {});
    assert i.beliefs == map[p := Unknown];
    assert Look(b.presence, p, w.cid) == DontHave && Look(b.presence, q, w.cid) == Have;
  }

  lemma OnlyOneWant(w: Want, p: Peer, q: Peer)
    requires p != NO_PEER && q != NO_PEER
    ensures Before(InFlight(w, p), BothRefuse(w, p, q)).wants.Keys <= {w}
  {
    var b := BothRefuse(w, p, q);
    var c, d := b.changes[0], b.changes[1];
    assert b.changes == [c, d] && b.changes[..1] == [c] && [c][..0] == [];
    var s1 := ApplyChange(ApplyChanges(InFlight(w, p), [], b.presence), c, b.presence);
    assert ApplyChanges(InFlight(w, p), [c], b.presence) == s1 && s1.wants.Keys <= {w};
    assert ApplyChanges(InFlight(w, p), b.changes, b.presence) == ApplyChange(s1, d, b.presence);
  }

  lemma ReadyWhen(s: State, i: Info, w: Want, q: Peer, peers: set<Peer>, joined: set<Peer>, left: set<Peer>)
    requires w in s.wants && s.wants.Keys <= {w} && s.wants[w].beliefs == i.beliefs && s.wants[w].sentTo == i.sentTo
    requires s.peers == peers + joined - left && joined == {} && left == {} && peers != {}
    requires IsBest(i.beliefs, q) && i.sentTo == NO_PEER && q != NO_PEER
    ensures Ready(s, w, q, peers, s.sent)
  {
  }

  lemma EvolvesReady(s: State, b: Batch, w: Want, q: Peer)
    requires Continues(s, b, w) && Joined(s, b) == {} && Left(s, b) == {} && s.peers != {} &&
             Before(s, b).wants.Keys <= {w}
    requires IsBest(Evolve(s, b, w).beliefs, q) && Evolve(s, b, w).sentTo == NO_PEER && q != NO_PEER
    ensures Ready(Before(s, b), w, q, s.peers, s.sent)
  {
    BeforeIs(s, b, w);
    ReadyWhen(Before(s, b), Evolve(s, b, w), w, q, s.peers, Joined(s, b), Left(s, b));
  }

  lemma RefuseReady(w: Want, p: Peer, q: Peer)
    requires p != NO_PEER && q != NO_PEER && p != q
    ensures Ready(Before(InFlight(w, p), BothRefuse(w, p, q)), w, q, {p}, {(p, w)})
  {
    RefuseEvolves(w, p, q);
    OnlyOneWant(w, p, q);
    EvolvesReady(InFlight(w, p), BothRefuse(w, p, q), w, q);
  }

  lemma TwoSends(s: State, a: Batch, b: Batch, w: Want, q: Peer, peers: set<Peer>, sent: set<(Peer, Want)>)
    requires Enabled(s, a) && b.picks == map[w := q] && Ready(Before(Next(s, a), b), w, q, peers, sent)
    ensures Legal(s, [a, b]) && w in Run(s, [a, b]).wants
    ensures Run(s, [a, b]).peers == peers && Run(s, [a, b]).wants[w].sentTo == q
  {
    Sends(Next(s, a), b, w, q, peers, sent);
    TwoBatches(s, a, b);
  }

  lemma TwoBatches(s: State, a: Batch, b: Batch)
    requires Enabled(s, a) && Enabled(Next(s, a), b)
    ensures Legal(s, [a, b]) && Run(s, [a, b]) == Next(Next(s, a), b)
  {
    var s1 := Next(s, a);
    assert [a, b][1..] == [b] && [b][1..] == [];
    assert Legal(Next(s1, b), []) && Legal(s1, [b]);
    assert Run(s1, [b]) == Run(Next(s1, b), []);
  }

  /** So a want-block can be in flight to a peer outside the session. */
  lemma PickedOutside(w: Want, p: Peer, q: Peer)
    requires p != NO_PEER && q != NO_PEER && p != q
    ensures var bs := [Joins(w, p), BothRefuse(w, p, q)];
            && Legal(NEW, bs) && w in Run(NEW, bs).wants
            && Run(NEW, bs).peers == {p} && Run(NEW, bs).wants[w].sentTo == q
  {
    JoinsBefore(w, p);
    JoinsLeadsTo(Joins(w, p), w, p);
    RefuseReady(w, p, q);
    TwoSends(NEW, Joins(w, p), BothRefuse(w, p, q), w, q, {p}, {(p, w)});
  }
}
