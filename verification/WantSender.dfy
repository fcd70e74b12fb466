/** How a session sends its wants (internal/session/sessionwantsender.go): for each want one
    optimistic want-block at a time, to the peer most likely to have the block; the next peer when
    that one refuses; a report when all have refused. Changes are processed in batches. */
module WantSender {
  import opened Basics
  import BP = BlockPresence

  /** What is believed of a peer and a want, from worst to best. */
  datatype Belief = DontHave | Unknown | Have

  function Rank(b: Belief): nat {
    match b
    case DontHave => 0
    case Unknown => 1
    case Have => 2
  }

  /** `sentTo` is the peer that has the want-block and has not answered, or none. */
  datatype Info = Info(beliefs: map<Peer, Belief>, sentTo: Peer, exhausted: bool)

  datatype State = State(wants: map<Want, Info>, peers: set<Peer>, sent: set<(Peer, Want)>)

  const NEW := State(map[], {}, {})

  datatype Update = Update(from: Peer, ks: seq<Want>, haves: seq<Want>, dontHaves: seq<Want>)

  datatype Change = Change(add: seq<Want>, cancel: seq<Want>, update: Update, target: Peer, available: bool)

  /** A batch of changes, what is known of block presence while it is processed, and the peers
      picked for the wants that can be sent. */
  datatype Batch = Batch(changes: seq<Change>, presence: BP.Presence, picks: map<Want, Peer>)

  function Set(ws: seq<Want>): set<Want> { set w | w in ws }

  function Look(m: BP.Presence, p: Peer, c: Cid): Belief {
    if BP.PeerHasBlock(m, p, c) then Have else if BP.PeerDoesNotHaveBlock(m, p, c) then DontHave else Unknown
  }

  // ---------------------------------------------------------------------------------------
  // One want
  // ---------------------------------------------------------------------------------------

  /** `updateWantBlockPresence` for some peers. A HAVE ends exhaustion. */
  function Learn(i: Info, ps: set<Peer>, m: BP.Presence, c: Cid): Info {
    Info(map p | p in i.beliefs.Keys + ps :: if p in ps then Look(m, p, c) else i.beliefs[p],
         i.sentTo,
         i.exhausted && forall p :: p in ps ==> Look(m, p, c) != Have)
  }

  /** `removePeer` for some peers: if one of them was to answer, nobody is waited for any more. */
  function Forget(i: Info, ps: set<Peer>): Info {
    Info(i.beliefs - ps, if i.sentTo in ps then NO_PEER else i.sentTo, i.exhausted)
  }

  function Tracking(peers: set<Peer>, m: BP.Presence, c: Cid): Info {
    Learn(Info(map[], NO_PEER, false), peers, m, c)
  }

  /** The best peer: none only if no peer is better than DONT_HAVE, otherwise one that no other is
      better than. */
  predicate IsBest(beliefs: map<Peer, Belief>, p: Peer) {
    if p == NO_PEER then forall q :: q in beliefs ==> beliefs[q] == DontHave
    else p in beliefs && beliefs[p] != DontHave && forall q :: q in beliefs ==> Rank(beliefs[q]) <= Rank(beliefs[p])
  }

  /** What the answers to a want do to it: beliefs of those who answered, and the want-block is no
      longer in flight if the peer it was sent to refused. */
  function Answered(i: Info, w: Want, refused: set<Peer>, had: set<Peer>, sent: set<(Peer, Want)>,
                    m: BP.Presence): Info {
    var gone := i.sentTo in refused && (i.sentTo, w) in sent;
    Learn(i, refused + had, m, w.cid).(sentTo := if gone then NO_PEER else i.sentTo)
  }

  // ---------------------------------------------------------------------------------------
  // A batch
  // ---------------------------------------------------------------------------------------

  /** A change starts and stops tracking wants. */
  function ApplyChange(s: State, c: Change, m: BP.Presence): State {
    s.(wants := (map w | w in s.wants.Keys + Set(c.add) ::
                   if w in s.wants then s.wants[w] else Tracking(s.peers, m, w.cid)) - Set(c.cancel))
  }

  function ApplyChanges(s: State, changes: seq<Change>, m: BP.Presence): State {
    if changes == [] then s
    else ApplyChange(ApplyChanges(s, changes[..|changes| - 1], m), changes[|changes| - 1], m)
  }

  /** A message with blocks or HAVEs shows that its sender is there; the last word counts. */
  function Noted(before: map<Peer, bool>, c: Change): map<Peer, bool> {
    var heard := if c.update.from != NO_PEER && (c.update.ks != [] || c.update.haves != [])
                 then before[c.update.from := true] else before;
    if c.target != NO_PEER then heard[c.target := c.available] else heard
  }

  function Availability(changes: seq<Change>): map<Peer, bool> {
    if changes == [] then map[] else Noted(Availability(changes[..|changes| - 1]), changes[|changes| - 1])
  }

  function Joining(s: State, av: map<Peer, bool>): set<Peer> { set p | p in av && av[p] && p !in s.peers }

  function Leaving(s: State, av: map<Peer, bool>): set<Peer> { set p | p in av && !av[p] && p in s.peers }

  function ProcessAvailability(s: State, av: map<Peer, bool>, m: BP.Presence): State {
    var joining, leaving := Joining(s, av), Leaving(s, av);
    s.(peers := s.peers + joining - leaving,
       wants := map w | w in s.wants :: Forget(Learn(s.wants[w], joining, m, w.cid), leaving))
  }

  function UpdatesOf(changes: seq<Change>): set<Update> { set c | c in changes && c.update.from != NO_PEER :: c.update }

  function Blocks(us: set<Update>): set<Want> { set u, w | u in us && w in u.ks :: w }

  function Refused(us: set<Update>): set<Want> { set u, w | u in us && w in u.dontHaves && w !in Blocks(us) :: w }

  function RefusedBy(us: set<Update>, w: Want): set<Peer> { set u | u in us && w in u.dontHaves :: u.from }

  function HadBy(us: set<Update>, w: Want): set<Peer> { set u | u in us && w in u.haves :: u.from }

  function ProcessUpdates(s: State, us: set<Update>, m: BP.Presence): State {
    s.(wants := map w | w in s.wants && w !in Blocks(us) ::
                  Answered(s.wants[w], w, RefusedBy(us, w), HadBy(us, w), s.sent, m))
  }

  /** The wants that are reported as exhausted: of those refused in this batch, or of all if a peer
      left, the ones that every session peer has refused, or all if no peer is left. */
  function NewlyExhausted(s: State, refused: set<Want>, left: bool, m: BP.Presence): set<Want> {
    set w | w in s.wants && !s.wants[w].exhausted && (left || w in refused) &&
            ((left && s.peers == {}) || BP.AllDontHave(m, s.peers, w.cid))
  }

  function Flag(s: State, ws: set<Want>): State {
    s.(wants := map w | w in s.wants :: s.wants[w].(exhausted := s.wants[w].exhausted || w in ws))
  }

  predicate Picks(s: State, picks: map<Want, Peer>) {
    picks.Keys == s.wants.Keys && forall w :: w in picks ==> IsBest(s.wants[w].beliefs, picks[w])
  }

  /** The wants for which a want-block is sent. */
  function Chosen(s: State, picks: map<Want, Peer>): set<Want>
    requires Picks(s, picks)
  {
    set w | w in s.wants && s.wants[w].sentTo == NO_PEER && picks[w] != NO_PEER
  }

  function SendNext(s: State, picks: map<Want, Peer>): State
    requires Picks(s, picks)
  {
    var chosen := Chosen(s, picks);
    s.(wants := map w | w in s.wants :: if w in chosen then s.wants[w].(sentTo := picks[w]) else s.wants[w],
       sent := s.sent + set w | w in chosen :: (picks[w], w))
  }

  /** The state in which the batch looks for exhausted wants. */
  function Updated(s: State, b: Batch): State {
    var s1 := ApplyChanges(s, b.changes, b.presence);
    ProcessUpdates(ProcessAvailability(s1, Availability(b.changes), b.presence), UpdatesOf(b.changes), b.presence)
  }

  function Reported(s: State, b: Batch): set<Want> {
    var left := Leaving(ApplyChanges(s, b.changes, b.presence), Availability(b.changes));
    NewlyExhausted(Updated(s, b), Refused(UpdatesOf(b.changes)), left != {}, b.presence)
  }

  /** The state before wants are sent. */
  function Before(s: State, b: Batch): State { Flag(Updated(s, b), Reported(s, b)) }

  predicate Enabled(s: State, b: Batch) { Picks(Before(s, b), b.picks) }

  /** `onChange`: wants are sent if there is a peer in the session. */
  function Next(s: State, b: Batch): State
    requires Enabled(s, b)
  {
    SendIfPeers(Before(s, b), b.picks)
  }

  function SendIfPeers(s: State, picks: map<Want, Peer>): State
    requires Picks(s, picks)
  {
    if s.peers == {} then s else SendNext(s, picks)
  }

  // ---------------------------------------------------------------------------------------
  // After every batch
  // ---------------------------------------------------------------------------------------

  /** Something is recorded for every session peer, and a want-block in flight has been sent. */
  predicate InfoCovered(peers: set<Peer>, sent: set<(Peer, Want)>, w: Want, i: Info) {
    && peers <= i.beliefs.Keys && NO_PEER !in i.beliefs
    && (i.sentTo != NO_PEER ==> (i.sentTo, w) in sent && i.sentTo in i.beliefs)
  }

  predicate Covered(s: State) {
    && NO_PEER !in s.peers
    && forall w :: w in s.wants ==> InfoCovered(s.peers, s.sent, w, s.wants[w])
  }

  /** The want is in flight, or every session peer has refused it. */
  predicate Settled(s: State, w: Want)
    requires w in s.wants
  {
    s.wants[w].sentTo != NO_PEER ||
    forall p :: p in s.peers ==> p in s.wants[w].beliefs && s.wants[w].beliefs[p] == DontHave
  }

  lemma {:induction false} ApplyCovered(s: State, changes: seq<Change>, m: BP.Presence)
    requires Covered(s)
    ensures var s' := ApplyChanges(s, changes, m); Covered(s') && s'.peers == s.peers && s'.sent == s.sent
  {
    if changes != [] {
      ApplyCovered(s, changes[..|changes| - 1], m);
    }
  }

  lemma {:induction false} SomebodyThere(changes: seq<Change>)
    ensures NO_PEER !in Availability(changes)
  {
    if changes != [] {
      SomebodyThere(changes[..|changes| - 1]);
    }
  }

  lemma AvailabilityCovered(s: State, av: map<Peer, bool>, m: BP.Presence)
    requires Covered(s) && NO_PEER !in av
    ensures Covered(ProcessAvailability(s, av, m))
  {
    var s' := ProcessAvailability(s, av, m);
    forall w | w in s.wants ensures InfoCovered(s'.peers, s'.sent, w, s'.wants[w]) {
      assert InfoCovered(s.peers, s.sent, w, s.wants[w]);
    }
  }

  lemma UpdatesCovered(s: State, us: set<Update>, m: BP.Presence)
    requires Covered(s) && forall u :: u in us ==> u.from != NO_PEER
    ensures Covered(ProcessUpdates(s, us, m))
  {
    var s' := ProcessUpdates(s, us, m);
    forall w | w in s'.wants ensures InfoCovered(s'.peers, s'.sent, w, s'.wants[w]) {
      assert InfoCovered(s.peers, s.sent, w, s.wants[w]);
      assert NO_PEER !in RefusedBy(us, w) + HadBy(us, w);
    }
  }

  lemma BeforeCovered(s: State, b: Batch)
    requires Covered(s)
    ensures Covered(Before(s, b))
  {
    ApplyCovered(s, b.changes, b.presence);
    SomebodyThere(b.changes);
    var s1 := ApplyChanges(s, b.changes, b.presence);
    var av, us := Availability(b.changes), UpdatesOf(b.changes);
    AvailabilityCovered(s1, av, b.presence);
    var s2 := ProcessAvailability(s1, av, b.presence);
    UpdatesCovered(s2, us, b.presence);
    FlagCovered(ProcessUpdates(s2, us, b.presence), Reported(s, b));
  }

  lemma FlagCovered(s: State, ws: set<Want>)
    requires Covered(s)
    ensures Covered(Flag(s, ws))
  {
    forall w | w in s.wants ensures InfoCovered(s.peers, s.sent, w, Flag(s, ws).wants[w]) {
      assert InfoCovered(s.peers, s.sent, w, s.wants[w]);
    }
  }

  lemma SendCovered(s: State, picks: map<Want, Peer>)
    requires Covered(s) && Picks(s, picks)
    ensures Covered(SendNext(s, picks))
    ensures forall w :: w in s.wants ==> Settled(SendNext(s, picks), w)
  {
    var s', chosen := SendNext(s, picks), Chosen(s, picks);
    forall w | w in s.wants ensures InfoCovered(s'.peers, s'.sent, w, s'.wants[w]) && Settled(s', w) {
      assert InfoCovered(s.peers, s.sent, w, s.wants[w]);
      assert IsBest(s.wants[w].beliefs, picks[w]);
      if w in chosen {
        assert (picks[w], w) in s'.sent;
      }
    }
  }

  /** After a batch that leaves a peer in the session, every want is in flight to one peer or every
      session peer has refused it. */
  lemma BatchSettles(s: State, b: Batch)
    requires Covered(s) && Enabled(s, b)
    ensures Covered(Next(s, b))
    ensures Next(s, b).peers != {} ==> forall w :: w in Next(s, b).wants ==> Settled(Next(s, b), w)
  {
    BeforeCovered(s, b);
    SendCovered(Before(s, b), b.picks);
  }

  // ---------------------------------------------------------------------------------------
  // One want over whole runs
  // ---------------------------------------------------------------------------------------

  function CancelledIn(changes: seq<Change>): set<Want> { set c, w | c in changes && w in c.cancel :: w }

  /** The want is tracked before and after the batch, without a break. */
  predicate Continues(s: State, b: Batch, w: Want) {
    w in s.wants && w !in CancelledIn(b.changes) && w !in Blocks(UpdatesOf(b.changes))
  }

  function Left(s: State, b: Batch): set<Peer> { Leaving(s, Availability(b.changes)) }

  function Joined(s: State, b: Batch): set<Peer> { Joining(s, Availability(b.changes)) }

  /** The peers that refused the want in the batch, and those that said they have it. */
  function Refusers(b: Batch, w: Want): set<Peer> { RefusedBy(UpdatesOf(b.changes), w) }

  function Havers(b: Batch, w: Want): set<Peer> { HadBy(UpdatesOf(b.changes), w) }

  /** What a batch does to a want that it does not end, up to the sending. */
  function Evolve(s: State, b: Batch, w: Want): Info
    requires w in s.wants
  {
    Answered(Forget(Learn(s.wants[w], Joined(s, b), b.presence, w.cid), Left(s, b)), w, Refusers(b, w), Havers(b, w),
             s.sent, b.presence)
  }

  lemma {:induction false} ApplyKeeps(s: State, changes: seq<Change>, m: BP.Presence, w: Want)
    requires w in s.wants && w !in CancelledIn(changes)
    ensures var s' := ApplyChanges(s, changes, m);
            w in s'.wants && s'.wants[w] == s.wants[w] && s'.peers == s.peers && s'.sent == s.sent
  {
    if changes != [] {
      var n := |changes| - 1;
      assert changes[n] in changes && forall c :: c in changes[..n] ==> c in changes;
      assert w !in CancelledIn(changes[..n]);
      ApplyKeeps(s, changes[..n], m, w);
    }
  }

  lemma BeforeIs(s: State, b: Batch, w: Want)
    requires Continues(s, b, w)
    ensures var s' := Before(s, b);
            && w in s'.wants
            && s'.wants[w] == Evolve(s, b, w).(exhausted := Evolve(s, b, w).exhausted || w in Reported(s, b))
            && s'.peers == s.peers + Joined(s, b) - Left(s, b) && s'.sent == s.sent
  {
    ApplyKeeps(s, b.changes, b.presence, w);
  }

  /** The want-block is sent in this batch. */
  predicate ChosenIn(s: State, b: Batch, w: Want)
    requires Enabled(s, b)
  {
    Before(s, b).peers != {} && w in Chosen(Before(s, b), b.picks)
  }

  lemma NextIs(s: State, b: Batch, w: Want)
    requires Continues(s, b, w) && Enabled(s, b)
    ensures var s' := Next(s, b);
            && w in s'.wants
            && s'.wants[w].beliefs == Evolve(s, b, w).beliefs
            && s'.wants[w].sentTo == (if ChosenIn(s, b, w) then b.picks[w] else Evolve(s, b, w).sentTo)
            && s'.wants[w].exhausted == (Evolve(s, b, w).exhausted || w in Reported(s, b))
    ensures ChosenIn(s, b, w) ==>
            Evolve(s, b, w).sentTo == NO_PEER && b.picks[w] != NO_PEER && IsBest(Evolve(s, b, w).beliefs, b.picks[w])
  {
    BeforeIs(s, b, w);
    SendIs(Before(s, b), b.picks, w);
  }

  lemma SendIs(s: State, picks: map<Want, Peer>, w: Want)
    requires Picks(s, picks) && w in s.wants
    ensures var i, i' := s.wants[w], SendNext(s, picks).wants[w];
            && i'.beliefs == i.beliefs && i'.exhausted == i.exhausted
            && i'.sentTo == if w in Chosen(s, picks) then picks[w] else i.sentTo
  {
  }

  predicate Legal(s: State, bs: seq<Batch>)
    decreases |bs|
  {
    bs == [] || (Enabled(s, bs[0]) && Legal(Next(s, bs[0]), bs[1..]))
  }

  function Run(s: State, bs: seq<Batch>): State
    requires Legal(s, bs)
    decreases |bs|
  {
    if bs == [] then s else Run(Next(s, bs[0]), bs[1..])
  }

  /** The want is tracked throughout the run. */
  predicate Tracked(s: State, bs: seq<Batch>, w: Want)
    requires Legal(s, bs)
    decreases |bs|
  {
    w in s.wants && (bs == [] || (Continues(s, bs[0], w) && Tracked(Next(s, bs[0]), bs[1..], w)))
  }

  /** In how many batches the want-block is sent, and the want reported as exhausted. */
  function Choices(s: State, bs: seq<Batch>, w: Want): nat
    requires Legal(s, bs)
    decreases |bs|
  {
    if bs == [] then 0 else (if ChosenIn(s, bs[0], w) then 1 else 0) + Choices(Next(s, bs[0]), bs[1..], w)
  }

  function Reports(s: State, bs: seq<Batch>, w: Want): nat
    requires Legal(s, bs)
    decreases |bs|
  {
    if bs == [] then 0 else (if w in Reported(s, bs[0]) then 1 else 0) + Reports(Next(s, bs[0]), bs[1..], w)
  }

  /** Every batch leaves every want of a session with peers settled. */
  lemma {:induction false} RunSettles(s: State, bs: seq<Batch>)
    requires Covered(s) && Legal(s, bs)
    ensures var s' := Run(s, bs);
            Covered(s') && (bs != [] && s'.peers != {} ==> forall w :: w in s'.wants ==> Settled(s', w))
    decreases |bs|
  {
    if bs != [] {
      BatchSettles(s, bs[0]);
      RunSettles(Next(s, bs[0]), bs[1..]);
    }
  }

  // ---- one want-block at a time ----

  /** The peer neither refuses the want nor leaves in the run. */
  predicate Silent(s: State, bs: seq<Batch>, w: Want, p: Peer)
    requires Legal(s, bs)
    decreases |bs|
  {
    bs == [] || (p !in Refusers(bs[0], w) && p !in Left(s, bs[0]) && Silent(Next(s, bs[0]), bs[1..], w, p))
  }

  /** As long as the peer with the want-block neither refuses nor leaves, the want stays in flight
      to it and is not sent to anybody else. */
  lemma {:induction false} OneAtATime(s: State, bs: seq<Batch>, w: Want, p: Peer)
    requires Legal(s, bs) && Tracked(s, bs, w) && s.wants[w].sentTo == p && p != NO_PEER && Silent(s, bs, w, p)
    ensures Choices(s, bs, w) == 0 && w in Run(s, bs).wants && Run(s, bs).wants[w].sentTo == p
    decreases |bs|
  {
    if bs != [] {
      NextIs(s, bs[0], w);
      OneAtATime(Next(s, bs[0]), bs[1..], w, p);
    }
  }

  /** So two want-blocks for a want are separated by a DONT_HAVE from the first recipient, or by its
      leaving. The first may be sent in the very batch that starts tracking the want. */
  lemma SendsSeparated(s: State, b: Batch, bs: seq<Batch>, w: Want)
    requires Enabled(s, b) && ChosenIn(s, b, w)
    requires Legal(Next(s, b), bs) && Tracked(Next(s, b), bs, w) && Choices(Next(s, b), bs, w) > 0
    ensures !Silent(Next(s, b), bs, w, b.picks[w])
  {
    SendIs(Before(s, b), b.picks, w);
    if Silent(Next(s, b), bs, w, b.picks[w]) {
      OneAtATime(Next(s, b), bs, w, b.picks[w]);
    }
  }

  // ---- reports ----

  /** No peer is recorded as having the block in the batch. */
  predicate NoHave(s: State, b: Batch, w: Want) {
    forall p :: p in Joined(s, b) + Refusers(b, w) + Havers(b, w) ==> Look(b.presence, p, w.cid) != Have
  }

  predicate NeverHave(s: State, bs: seq<Batch>, w: Want)
    requires Legal(s, bs)
    decreases |bs|
  {
    bs == [] || (NoHave(s, bs[0], w) && NeverHave(Next(s, bs[0]), bs[1..], w))
  }

  /** A refusal or a departure after which no session peer is left that could have the block. */
  predicate AllRefuse(s: State, b: Batch, w: Want) {
    var peers := s.peers + Joined(s, b) - Left(s, b);
    && (Left(s, b) != {} || w in Refused(UpdatesOf(b.changes)))
    && ((Left(s, b) != {} && peers == {}) || BP.AllDontHave(b.presence, peers, w.cid))
  }

  predicate EverRefused(s: State, bs: seq<Batch>, w: Want)
    requires Legal(s, bs)
    decreases |bs|
  {
    bs != [] && (AllRefuse(s, bs[0], w) || EverRefused(Next(s, bs[0]), bs[1..], w))
  }

  /** The batch starts tracking the want, or starts over after a cancel. */
  predicate Starts(s: State, b: Batch, w: Want) {
    w in Before(s, b).wants && (w !in s.wants || w in CancelledIn(b.changes))
  }

  lemma CancelledSnoc(changes: seq<Change>, w: Want)
    requires changes != []
    ensures w in CancelledIn(changes) <==>
            w in CancelledIn(changes[..|changes| - 1]) || w in changes[|changes| - 1].cancel
  {
    var n := |changes| - 1;
    assert changes == changes[..n] + [changes[n]];
  }

  lemma {:induction false} ApplyStarts(s: State, changes: seq<Change>, m: BP.Presence, w: Want)
    requires w !in s.wants || w in CancelledIn(changes)
    ensures var s' := ApplyChanges(s, changes, m);
            && s'.peers == s.peers && s'.sent == s.sent
            && (w in s'.wants ==> s'.wants[w] == Tracking(s.peers, m, w.cid))
  {
    if changes != [] {
      var n := |changes| - 1;
      CancelledSnoc(changes, w);
      if w !in s.wants || w in CancelledIn(changes[..n]) {
        ApplyStarts(s, changes[..n], m, w);
      } else {
        ApplyKeeps(s, changes[..n], m, w);
      }
    }
  }

  /** A want is either tracked without a break, or starts in the batch, or is not tracked after it. */
  lemma ContinuesOrStarts(s: State, b: Batch, w: Want)
    ensures w in Before(s, b).wants <==> Continues(s, b, w) || Starts(s, b, w)
    ensures !(Continues(s, b, w) && Starts(s, b, w))
  {
    if Continues(s, b, w) {
      BeforeIs(s, b, w);
    }
  }

  /** The want was reported earlier, and nobody has been recorded as having the block since. */
  predicate StillFlagged(s: State, b: Batch, w: Want) {
    Continues(s, b, w) && s.wants[w].exhausted && NoHave(s, b, w)
  }

  lemma ReportedIs(s: State, b: Batch)
    requires ApplyChanges(s, b.changes, b.presence).peers == s.peers
    ensures Updated(s, b).peers == s.peers + Joined(s, b) - Left(s, b)
    ensures Before(s, b).wants.Keys == Updated(s, b).wants.Keys
    ensures Reported(s, b) == NewlyExhausted(Updated(s, b), Refused(UpdatesOf(b.changes)), Left(s, b) != {}, b.presence)
  {
    var s1, av := ApplyChanges(s, b.changes, b.presence), Availability(b.changes);
    assert Joining(s1, av) == Joined(s, b) && Leaving(s1, av) == Left(s, b);
  }

  lemma ReportedUnlessFlagged(s: State, b: Batch, w: Want)
    requires ApplyChanges(s, b.changes, b.presence).peers == s.peers
    ensures w in Reported(s, b) <==>
            w in Before(s, b).wants && AllRefuse(s, b, w) && !Updated(s, b).wants[w].exhausted
  {
    ReportedIs(s, b);
    ExhaustedIff(Updated(s, b), Refused(UpdatesOf(b.changes)), Left(s, b) != {}, b.presence, w);
  }

  lemma UpdatedFlag(s: State, b: Batch, w: Want)
    requires w in Updated(s, b).wants
    ensures Updated(s, b).wants[w].exhausted <==> StillFlagged(s, b, w)
  {
    if Continues(s, b, w) {
      ApplyKeeps(s, b.changes, b.presence, w);
      FlagIff(s, b, w);
    } else {
      ApplyStarts(s, b.changes, b.presence, w);
    }
  }

  lemma ExhaustedIff(s: State, refused: set<Want>, left: bool, m: BP.Presence, w: Want)
    ensures w in NewlyExhausted(s, refused, left, m) <==>
            && w in s.wants && !s.wants[w].exhausted && (left || w in refused)
            && ((left && s.peers == {}) || BP.AllDontHave(m, s.peers, w.cid))
  {
  }

  /** A want is reported exactly if it is tracked, has come to be refused by all session peers, and
      is not marked as reported any more. This holds for its first batch as for any other. */
  lemma ReportedIff(s: State, b: Batch, w: Want)
    ensures w in Reported(s, b) <==> w in Before(s, b).wants && AllRefuse(s, b, w) && !StillFlagged(s, b, w)
  {
    SamePeers(s, b.changes, b.presence);
    ReportedUnlessFlagged(s, b, w);
    ReportedIs(s, b);
    if w in Updated(s, b).wants {
      UpdatedFlag(s, b, w);
    }
  }

  lemma {:induction false} SamePeers(s: State, changes: seq<Change>, m: BP.Presence)
    ensures ApplyChanges(s, changes, m).peers == s.peers
  {
    if changes != [] {
      SamePeers(s, changes[..|changes| - 1], m);
    }
  }

  /** A want stays marked as exhausted until some peer is recorded as having the block. */
  lemma FlagIff(s: State, b: Batch, w: Want)
    requires Continues(s, b, w)
    ensures Evolve(s, b, w).exhausted <==> s.wants[w].exhausted && NoHave(s, b, w)
  {
    assert forall p :: p in Joined(s, b) + Refusers(b, w) + Havers(b, w) <==>
           p in Joined(s, b) || p in Refusers(b, w) + Havers(b, w);
  }

  /** The flag after a batch. */
  lemma FlaggedAfter(s: State, b: Batch, w: Want)
    requires Enabled(s, b) && w in Before(s, b).wants
    ensures w in Next(s, b).wants && Next(s, b).wants[w].exhausted == (StillFlagged(s, b, w) || w in Reported(s, b))
  {
    SendOutcome(s, b, w);
    ContinuesOrStarts(s, b, w);
    if Continues(s, b, w) {
      BeforeIs(s, b, w);
      FlagIff(s, b, w);
    } else {
      ApplyStarts(s, b.changes, b.presence, w);
    }
  }

  lemma {:induction false} ReportedOnceTracked(s: State, bs: seq<Batch>, w: Want)
    requires Legal(s, bs) && Tracked(s, bs, w) && NeverHave(s, bs, w)
    ensures Reports(s, bs, w) == if !s.wants[w].exhausted && EverRefused(s, bs, w) then 1 else 0
    decreases |bs|
  {
    if bs != [] {
      ContinuesOrStarts(s, bs[0], w);
      ReportedIff(s, bs[0], w);
      FlaggedAfter(s, bs[0], w);
      ReportedOnceTracked(Next(s, bs[0]), bs[1..], w);
    }
  }

  /** Over a batch after which a want is tracked, be it the one that starts tracking it, and batches
      after it in which nobody is recorded as having the block: the want is reported exactly once if
      it comes to be refused by all session peers in any of them, the first included, and not at all
      if it never is, or if it is still marked from an earlier report. */
  lemma ReportedExactlyOnce(s: State, b: Batch, bs: seq<Batch>, w: Want)
    requires Enabled(s, b) && w in Before(s, b).wants
    requires Legal(Next(s, b), bs) && Tracked(Next(s, b), bs, w) && NeverHave(Next(s, b), bs, w)
    ensures (if w in Reported(s, b) then 1 else 0) + Reports(Next(s, b), bs, w) ==
            if !StillFlagged(s, b, w) && (AllRefuse(s, b, w) || EverRefused(Next(s, b), bs, w)) then 1 else 0
  {
    ReportedIff(s, b, w);
    FlaggedAfter(s, b, w);
    ReportedOnceTracked(Next(s, b), bs, w);
  }

  /** So two reports of a want, of which the first may come in the batch that starts tracking it,
      are separated by some peer being recorded as having the block. */
  lemma ReportsSeparated(s: State, b: Batch, bs: seq<Batch>, w: Want)
    requires Enabled(s, b) && w in Reported(s, b)
    requires Legal(Next(s, b), bs) && Tracked(Next(s, b), bs, w) && Reports(Next(s, b), bs, w) > 0
    ensures !NeverHave(Next(s, b), bs, w)
  {
    ReportedIff(s, b, w);
    FlaggedAfter(s, b, w);
    if NeverHave(Next(s, b), bs, w) {
      ReportedOnceTracked(Next(s, b), bs, w);
    }
  }

  /** A batch that only adds a want. */
  function Adding(w: Want, m: BP.Presence, picks: map<Want, Peer>): Batch {
    Batch([Change([w], [], Update(NO_PEER, [], [], []), NO_PEER, false)], m, picks)
  }

  lemma AddingOnly(s: State, w: Want, m: BP.Presence, picks: map<Want, Peer>)
    ensures var b := Adding(w, m, picks);
            && ApplyChanges(s, b.changes, m) == ApplyChange(s, b.changes[0], m)
            && Availability(b.changes) == map[] && UpdatesOf(b.changes) == {}
  {
    var b := Adding(w, m, picks);
    assert b.changes[..0] == [] && ApplyChanges(s, [], m) == s && Availability([]) == map[];
  }

  lemma UnheardKeeps(i: Info, w: Want, sent: set<(Peer, Want)>, m: BP.Presence)
    ensures Answered(Forget(Learn(i, {}, m, w.cid), {}), w, RefusedBy({}, w), HadBy({}, w), sent, m) == i ||
            i.sentTo == NO_PEER
    ensures Answered(Forget(Learn(i, {}, m, w.cid), {}), w, RefusedBy({}, w), HadBy({}, w), sent, m).beliefs ==
            i.beliefs
    ensures Answered(Forget(Learn(i, {}, m, w.cid), {}), w, RefusedBy({}, w), HadBy({}, w), sent, m).exhausted ==
            i.exhausted
  {
    assert RefusedBy({}, w) == {} && HadBy({}, w) == {};
  }

  lemma AddedBefore(s: State, s1: State, w: Want, m: BP.Presence)
    requires w in s1.wants && s1.peers == s.peers
    ensures var s3 := ProcessUpdates(ProcessAvailability(s1, map[], m), {}, m);
            && w in s3.wants && s3.wants[w].beliefs == s1.wants[w].beliefs
            && s3.wants[w].exhausted == s1.wants[w].exhausted
            && s3.peers == s.peers && NewlyExhausted(s3, Refused({}), Leaving(s1, map[]) != {}, m) == {}
  {
    assert Joining(s1, map[]) == {} && Leaving(s1, map[]) == {} && Blocks({}) == {} && Refused({}) == {};
    UnheardKeeps(s1.wants[w], w, s1.sent, m);
  }

  lemma AddingBefore(s: State, w: Want, m: BP.Presence, picks: map<Want, Peer>)
    requires w !in s.wants
    ensures var b := Adding(w, m, picks);
            && w in Before(s, b).wants && w !in Reported(s, b) && !Before(s, b).wants[w].exhausted
            && Before(s, b).wants[w].beliefs == Tracking(s.peers, m, w.cid).beliefs
  {
    var b := Adding(w, m, picks);
    AddingOnly(s, w, m, picks);
    var s1 := ApplyChange(s, b.changes[0], m);
    assert s1.wants[w] == Tracking(s.peers, m, w.cid);
    AddedBefore(s, s1, w, m);
  }

  /** A want that starts to be tracked when every session peer is already known not to have the
      block is neither sent nor reported: the report only comes with a refusal or a departure. */
  lemma SilentlyExhausted(s: State, w: Want, m: BP.Presence, picks: map<Want, Peer>)
    requires w !in s.wants && NO_PEER !in s.peers && BP.AllDontHave(m, s.peers, w.cid)
    requires Enabled(s, Adding(w, m, picks))
    ensures var b := Adding(w, m, picks);
            && !ChosenIn(s, b, w) && w !in Reported(s, b)
            && w in Next(s, b).wants && !Next(s, b).wants[w].exhausted
            && forall p :: p in Next(s, b).wants[w].beliefs ==> Next(s, b).wants[w].beliefs[p] == DontHave
  {
    var b := Adding(w, m, picks);
    AddingBefore(s, w, m, picks);
    SendOutcome(s, b, w);
    AllKnown(s.peers, m, w.cid, Before(s, b).wants[w].beliefs, b.picks[w]);
  }

  lemma SendOutcome(s: State, b: Batch, w: Want)
    requires Enabled(s, b) && w in Before(s, b).wants
    ensures w in b.picks && IsBest(Before(s, b).wants[w].beliefs, b.picks[w]) &&
            (ChosenIn(s, b, w) ==> b.picks[w] != NO_PEER)
    ensures w in Next(s, b).wants && Next(s, b).wants[w].beliefs == Before(s, b).wants[w].beliefs
    ensures Next(s, b).wants[w].exhausted == Before(s, b).wants[w].exhausted
  {
    SentIs(Before(s, b), b.picks, w);
  }

  lemma SentIs(s: State, picks: map<Want, Peer>, w: Want)
    requires Picks(s, picks) && w in s.wants
    ensures var s' := SendIfPeers(s, picks);
            w in s'.wants && s'.wants[w].beliefs == s.wants[w].beliefs && s'.wants[w].exhausted == s.wants[w].exhausted
  {
    SendIs(s, picks, w);
  }

  lemma AllKnown(peers: set<Peer>, m: BP.Presence, c: Cid, beliefs: map<Peer, Belief>, pick: Peer)
    requires BP.AllDontHave(m, peers, c) && beliefs == Tracking(peers, m, c).beliefs && IsBest(beliefs, pick)
    ensures pick == NO_PEER && forall p :: p in beliefs ==> beliefs[p] == DontHave
  {
  }

  // ---- how often a want is sent ----

  /** The peers to which the want could be sent: they are not known to lack the block, and do not
      have the want-block already. */
  function Triable(i: Info): set<Peer> {
    set p | p in i.beliefs && i.beliefs[p] != DontHave && p != i.sentTo && p != NO_PEER
  }

  /** The peers that join or answer in the batch and are not on record as lacking the block. */
  function Renewed(s: State, b: Batch, w: Want): set<Peer> {
    set p | p in Joined(s, b) + Refusers(b, w) + Havers(b, w) && Look(b.presence, p, w.cid) != DontHave
  }

  lemma SubsetCount<T>(a: set<T>, b: set<T>)
    requires a <= b
    ensures |a| <= |b|
  {
    assert b == a + (b - a);
  }

  lemma UnionCount<T>(a: set<T>, b: set<T>, c: set<T>)
    requires a <= b + c
    ensures |a| <= |b| + |c|
  {
    SubsetCount(a, b + c);
    assert b + c == b + (c - b);
    SubsetCount(c - b, c);
  }

  lemma AnsweredTriable(i: Info, w: Want, joined: set<Peer>, left: set<Peer>, refused: set<Peer>, had: set<Peer>,
                        sent: set<(Peer, Want)>, m: BP.Presence)
    ensures Triable(Answered(Forget(Learn(i, joined, m, w.cid), left), w, refused, had, sent, m)) <=
            Triable(i) + set p | p in joined + refused + had && Look(m, p, w.cid) != DontHave
  {
  }

  /** Sending uses up a peer. */
  lemma SendUsesUp(e: Info, n: Info, p: Peer, chosen: bool)
    requires n.beliefs == e.beliefs && n.sentTo == if chosen then p else e.sentTo
    requires chosen ==> e.sentTo == NO_PEER && p != NO_PEER && IsBest(e.beliefs, p)
    ensures |Triable(n)| + (if chosen then 1 else 0) <= |Triable(e)|
  {
    if chosen {
      assert p in Triable(e);
      assert Triable(n) <= Triable(e) - {p};
      SubsetCount(Triable(n), Triable(e) - {p});
    } else {
      assert Triable(n) == Triable(e);
    }
  }

  lemma ProcessedIs(s: State, av: map<Peer, bool>, us: set<Update>, m: BP.Presence, w: Want)
    requires w in ProcessUpdates(ProcessAvailability(s, av, m), us, m).wants
    ensures w in s.wants
    ensures ProcessUpdates(ProcessAvailability(s, av, m), us, m).wants[w] ==
            Answered(Forget(Learn(s.wants[w], Joining(s, av), m, w.cid), Leaving(s, av)), w,
                     RefusedBy(us, w), HadBy(us, w), s.sent, m)
  {
  }

  lemma ProcessedTriable(s: State, av: map<Peer, bool>, us: set<Update>, m: BP.Presence, w: Want, joined: set<Peer>)
    requires w in ProcessUpdates(ProcessAvailability(s, av, m), us, m).wants && joined == Joining(s, av)
    ensures w in s.wants
    ensures Triable(ProcessUpdates(ProcessAvailability(s, av, m), us, m).wants[w]) <=
            Triable(s.wants[w]) + set p | p in joined + RefusedBy(us, w) + HadBy(us, w) && Look(m, p, w.cid) != DontHave
  {
    ProcessedIs(s, av, us, m, w);
    AnsweredTriable(s.wants[w], w, Joining(s, av), Leaving(s, av), RefusedBy(us, w), HadBy(us, w), s.sent, m);
  }

  lemma UpdatedTriable(s: State, b: Batch, w: Want, s1: State)
    requires w in Updated(s, b).wants && s1 == ApplyChanges(s, b.changes, b.presence)
    ensures w in s1.wants && Triable(Updated(s, b).wants[w]) <= Triable(s1.wants[w]) + Renewed(s, b, w)
  {
    SamePeers(s, b.changes, b.presence);
    assert Joined(s, b) == Joining(s1, Availability(b.changes));
    ProcessedTriable(s1, Availability(b.changes), UpdatesOf(b.changes), b.presence, w, Joined(s, b));
  }

  lemma SentInBatch(s: State, b: Batch, w: Want, i: Info)
    requires Enabled(s, b) && w in Before(s, b).wants
    requires var s1 := ApplyChanges(s, b.changes, b.presence); w in s1.wants && s1.wants[w] == i
    ensures w in Next(s, b).wants
    ensures |Triable(Next(s, b).wants[w])| + (if ChosenIn(s, b, w) then 1 else 0) <= |Triable(i)| + |Renewed(s, b, w)|
  {
    var e, n := Before(s, b).wants[w], Next(s, b).wants[w];
    SendIs(Before(s, b), b.picks, w);
    SendUsesUp(e, n, if ChosenIn(s, b, w) then b.picks[w] else NO_PEER, ChosenIn(s, b, w));
    UpdatedTriable(s, b, w, ApplyChanges(s, b.changes, b.presence));
    assert Triable(e) == Triable(Updated(s, b).wants[w]);
    UnionCount(Triable(e), Triable(i), Renewed(s, b, w));
  }

  function Renewals(s: State, bs: seq<Batch>, w: Want): nat
    requires Legal(s, bs)
    decreases |bs|
  {
    if bs == [] then 0 else |Renewed(s, bs[0], w)| + Renewals(Next(s, bs[0]), bs[1..], w)
  }

  /** Over any run that tracks a want, every sending uses up a peer it could be sent to, and only peers
      that join or answer without being on record as lacking the block are added to those. */
  lemma {:induction false} SendsAccounted(s: State, bs: seq<Batch>, w: Want)
    requires Legal(s, bs) && Tracked(s, bs, w)
    ensures w in Run(s, bs).wants
    ensures Choices(s, bs, w) + |Triable(Run(s, bs).wants[w])| <= |Triable(s.wants[w])| + Renewals(s, bs, w)
    decreases |bs|
  {
    if bs != [] {
      ContinuesOrStarts(s, bs[0], w);
      ApplyKeeps(s, bs[0].changes, bs[0].presence, w);
      SentInBatch(s, bs[0], w, s.wants[w]);
      SendsAccounted(Next(s, bs[0]), bs[1..], w);
    }
  }

  lemma TrackingTriable(peers: set<Peer>, m: BP.Presence, c: Cid)
    ensures |Triable(Tracking(peers, m, c))| <= |peers|
  {
    SubsetCount(Triable(Tracking(peers, m, c)), peers);
  }

  /** From the batch that starts tracking a want on, it is sent at most once for each session peer
      there was, and once for each renewal. */
  lemma SendsFromStart(s: State, b: Batch, bs: seq<Batch>, w: Want)
    requires Enabled(s, b) && Starts(s, b, w) && Legal(Next(s, b), bs) && Tracked(Next(s, b), bs, w)
    ensures (if ChosenIn(s, b, w) then 1 else 0) + Choices(Next(s, b), bs, w) <=
            |s.peers| + |Renewed(s, b, w)| + Renewals(Next(s, b), bs, w)
  {
    ApplyStarts(s, b.changes, b.presence, w);
    TrackingTriable(s.peers, b.presence, w.cid);
    SentInBatch(s, b, w, Tracking(s.peers, b.presence, w.cid));
    SendsAccounted(Next(s, b), bs, w);
  }
}
