/** A session together with the manager of block presence it shares with other sessions
    (internal/sessionmanager/sessionmanager.go): a message is put on record before the sessions hear
    of it, and a session processes what it has heard later, in batches. */
module SessionPresence {
  import opened Basics
  import BP = BlockPresence
  import opened WantSender

  /** `heard` holds all refusals that were ever put on record, `refused` and `had` what was put on
      record since the block's record was last removed. The session's changes wait in `mailbox`. */
  datatype Joint = Joint(
    presence: BP.Presence,
    heard: set<(Peer, Cid)>,
    refused: set<(Peer, Cid)>,
    had: set<(Peer, Cid)>,
    mailbox: seq<Change>,
    session: State)

  const START := Joint(map[], {}, {}, {}, [], NEW)

  datatype Event =
    | Record(from: Peer, haves: seq<Want>, dontHaves: seq<Want>)
    | Post(change: Change)
    | Remove(ws: seq<Want>)
    | Process(n: nat, picks: map<Want, Peer>)

  function By(p: Peer, ws: seq<Want>): set<(Peer, Cid)> { set c | c in BP.Cids(ws) :: (p, c) }

  function About(cs: set<Cid>, said: set<(Peer, Cid)>): set<(Peer, Cid)> { set x | x in said && x.1 in cs }

  /** The batch of the first changes in the mailbox. */
  function BatchOf(j: Joint, n: nat, picks: map<Want, Peer>): Batch
    requires n <= |j.mailbox|
  {
    Batch(j.mailbox[..n], j.presence, picks)
  }

  predicate ChangeHeard(heard: set<(Peer, Cid)>, c: Change) {
    c.update.from != NO_PEER ==> forall w :: w in c.update.dontHaves ==> (c.update.from, w.cid) in heard
  }

  /** A session hears of a refusal only after it was put on record. */
  predicate Possible(j: Joint, e: Event) {
    match e
    case Post(c) => ChangeHeard(j.heard, c)
    case Process(n, picks) => 0 < n <= |j.mailbox| && Enabled(j.session, BatchOf(j, n, picks))
    case _ => true
  }

  function Step(j: Joint, e: Event): Joint
    requires Possible(j, e)
  {
    match e
    case Record(from, haves, dontHaves) =>
      j.(presence := BP.Received(j.presence, from, haves, dontHaves),
         heard := j.heard + By(from, dontHaves),
         refused := j.refused + By(from, dontHaves),
         had := j.had + By(from, haves))
    case Post(c) => j.(mailbox := j.mailbox + [c])
    case Remove(ws) =>
      j.(presence := j.presence - BP.Cids(ws),
         refused := j.refused - About(BP.Cids(ws), j.refused),
         had := j.had - About(BP.Cids(ws), j.had))
    case Process(n, picks) =>
      j.(mailbox := j.mailbox[n..], session := Next(j.session, BatchOf(j, n, picks)))
  }

  predicate PossibleRun(j: Joint, es: seq<Event>)
    decreases |es|
  {
    es == [] || (Possible(j, es[0]) && PossibleRun(Step(j, es[0]), es[1..]))
  }

  function JointRun(j: Joint, es: seq<Event>): Joint
    requires PossibleRun(j, es)
    decreases |es|
  {
    if es == [] then j else JointRun(Step(j, es[0]), es[1..])
  }

  // ---------------------------------------------------------------------------------------
  // What is on record
  // ---------------------------------------------------------------------------------------

  /** Block presence is exactly what was put on record, where a HAVE outweighs refusals. */
  ghost predicate Exact(j: Joint) {
    forall p: Peer, c: Cid ::
      && (BP.PeerHasBlock(j.presence, p, c) <==> (p, c) in j.had)
      && (BP.PeerDoesNotHaveBlock(j.presence, p, c) <==> (p, c) in j.refused && (p, c) !in j.had)
  }

  predicate MailHeard(j: Joint) { forall c :: c in j.mailbox ==> ChangeHeard(j.heard, c) }

  ghost predicate Recorded(j: Joint) { Exact(j) && MailHeard(j) && j.refused <= j.heard && Covered(j.session) }

  lemma RecordExact(j: Joint, e: Event)
    requires Exact(j) && e.Record?
    ensures Exact(Step(j, e))
  {
    var j' := Step(j, e);
    forall p: Peer, c: Cid
      ensures BP.PeerHasBlock(j'.presence, p, c) <==> (p, c) in j'.had
      ensures BP.PeerDoesNotHaveBlock(j'.presence, p, c) <==> (p, c) in j'.refused && (p, c) !in j'.had
    {
      BP.ReceivedMeans(j.presence, e.from, e.haves, e.dontHaves, p, c);
    }
  }

  lemma RemoveExact(j: Joint, e: Event)
    requires Exact(j) && e.Remove?
    ensures Exact(Step(j, e))
  {
    var j' := Step(j, e);
    forall p: Peer, c: Cid
      ensures BP.PeerHasBlock(j'.presence, p, c) <==> (p, c) in j'.had
      ensures BP.PeerDoesNotHaveBlock(j'.presence, p, c) <==> (p, c) in j'.refused && (p, c) !in j'.had
    {
      assert c in BP.Cids(e.ws) || (BP.Known(j'.presence, p, c) <==> BP.Known(j.presence, p, c));
    }
  }

  lemma StepRecorded(j: Joint, e: Event)
    requires Recorded(j) && Possible(j, e)
    ensures Recorded(Step(j, e))
  {
    match e
    case Record(from, haves, dontHaves) => RecordExact(j, e);
    case Post(c) =>
    case Remove(ws) => RemoveExact(j, e);
    case Process(n, picks) => BatchSettles(j.session, BatchOf(j, n, picks));
  }

  /** In every joint run block presence is exactly what was put on record, and every refusal that
      waits for the session was. */
  lemma {:induction false} RunRecorded(j: Joint, es: seq<Event>)
    requires Recorded(j) && PossibleRun(j, es)
    ensures Recorded(JointRun(j, es))
    decreases |es|
  {
    if es != [] {
      StepRecorded(j, es[0]);
      RunRecorded(Step(j, es[0]), es[1..]);
    }
  }

  /** What the session looks up for a peer, in terms of what was put on record. */
  lemma LookExactly(j: Joint, p: Peer, c: Cid)
    requires Exact(j)
    ensures Look(j.presence, p, c) ==
            if (p, c) in j.had then Have else if (p, c) in j.refused then DontHave else Unknown
  {
    assert BP.PeerHasBlock(j.presence, p, c) <==> (p, c) in j.had;
    assert BP.PeerDoesNotHaveBlock(j.presence, p, c) <==> (p, c) in j.refused && (p, c) !in j.had;
  }

  /** The peer has refused the block since its record was last removed, and never said to have it. */
  predicate HasRefused(j: Joint, p: Peer, c: Cid) { (p, c) in j.refused && (p, c) !in j.had }

  /** A tracked want that is not marked as reported any more is reported as exhausted exactly if a
      peer has left or somebody refused it, and either nobody is left or the block is on record and
      every session peer has indeed refused it. */
  lemma ReportedExactly(j: Joint, n: nat, picks: map<Want, Peer>, w: Want)
    requires Recorded(j) && n <= |j.mailbox|
    ensures var s, b := j.session, BatchOf(j, n, picks);
            var peers := s.peers + Joined(s, b) - Left(s, b);
            w in Reported(s, b) <==>
            && w in Before(s, b).wants && !StillFlagged(s, b, w)
            && (Left(s, b) != {} || w in Refused(UpdatesOf(b.changes)))
            && ((Left(s, b) != {} && peers == {}) ||
                (w.cid in j.presence && forall p :: p in peers ==> HasRefused(j, p, w.cid)))
  {
    var b := BatchOf(j, n, picks);
    ReportedIff(j.session, b, w);
    forall p: Peer ensures BP.PeerDoesNotHaveBlock(j.presence, p, w.cid) <==> HasRefused(j, p, w.cid) {
    }
  }

  // ---------------------------------------------------------------------------------------
  // The session's part of a joint run
  // ---------------------------------------------------------------------------------------

  function Batches(j: Joint, es: seq<Event>): seq<Batch>
    requires PossibleRun(j, es)
    decreases |es|
  {
    if es == [] then []
    else (if es[0].Process? then [BatchOf(j, es[0].n, es[0].picks)] else []) + Batches(Step(j, es[0]), es[1..])
  }

  /** The session goes through the batches as it does alone. */
  lemma {:induction false} Projects(j: Joint, es: seq<Event>)
    requires PossibleRun(j, es)
    ensures Legal(j.session, Batches(j, es)) && Run(j.session, Batches(j, es)) == JointRun(j, es).session
    decreases |es|
  {
    if es != [] {
      Projects(Step(j, es[0]), es[1..]);
      if es[0].Process? {
        assert Batches(j, es)[1..] == Batches(Step(j, es[0]), es[1..]);
      } else {
        assert Batches(j, es) == Batches(Step(j, es[0]), es[1..]);
      }
    }
  }

  // ---- how often a want is sent ----

  /** Exactly the peers that join or answer without having refused on record renew a want. */
  lemma RenewedExactly(j: Joint, n: nat, picks: map<Want, Peer>, w: Want, p: Peer)
    requires Recorded(j) && n <= |j.mailbox|
    ensures var s, b := j.session, BatchOf(j, n, picks);
            p in Renewed(s, b, w) <==>
            p in Joined(s, b) + Refusers(b, w) + Havers(b, w) && !HasRefused(j, p, w.cid)
  {
    LookExactly(j, p, w.cid);
  }

  /** Nobody says to have the block, and its record is not removed. */
  predicate Unoffered(es: seq<Event>, c: Cid) {
    forall e :: e in es ==> (e.Record? ==> c !in BP.Cids(e.haves)) && (e.Remove? ==> c !in BP.Cids(e.ws))
  }

  /** Nobody has said to have the block, and no refusal of it has been forgotten. */
  ghost predicate OnlyRefused(j: Joint, c: Cid) {
    forall p: Peer :: (p, c) !in j.had && ((p, c) in j.heard ==> (p, c) in j.refused)
  }

  lemma StepOnlyRefused(j: Joint, e: Event, c: Cid)
    requires OnlyRefused(j, c) && Possible(j, e) && Unoffered([e], c)
    ensures OnlyRefused(Step(j, e), c)
  {
    assert e in [e];
  }

  /** In the batches nobody joins and nobody says to have the block. */
  predicate NobodyNew(s: State, bs: seq<Batch>, w: Want)
    requires Legal(s, bs)
    decreases |bs|
  {
    bs == [] || (Joined(s, bs[0]) == {} && Havers(bs[0], w) == {} && NobodyNew(Next(s, bs[0]), bs[1..], w))
  }

  lemma NobodyRenewed(j: Joint, n: nat, picks: map<Want, Peer>, w: Want)
    requires Recorded(j) && OnlyRefused(j, w.cid) && n <= |j.mailbox|
    requires var b := BatchOf(j, n, picks); Joined(j.session, b) == {} && Havers(b, w) == {}
    ensures Renewed(j.session, BatchOf(j, n, picks), w) == {}
  {
    var b := BatchOf(j, n, picks);
    forall p | p in Refusers(b, w) ensures Look(j.presence, p, w.cid) == DontHave {
      var c :| c in b.changes && c.update.from == p && p != NO_PEER && w in c.update.dontHaves;
      assert c in j.mailbox;
      LookExactly(j, p, w.cid);
    }
  }

  lemma {:induction false} NoRenewals(j: Joint, es: seq<Event>, w: Want)
    requires Recorded(j) && OnlyRefused(j, w.cid) && PossibleRun(j, es) && Unoffered(es, w.cid)
    requires Legal(j.session, Batches(j, es)) && NobodyNew(j.session, Batches(j, es), w)
    ensures Renewals(j.session, Batches(j, es), w) == 0
    decreases |es|
  {
    if es != [] {
      var e, j' := es[0], Step(j, es[0]);
      assert e in es && forall x :: x in es[1..] ==> x in es;
      StepRecorded(j, e);
      StepOnlyRefused(j, e, w.cid);
      if e.Process? {
        assert Batches(j, es)[1..] == Batches(j', es[1..]);
        NobodyRenewed(j, e.n, e.picks, w);
      } else {
        assert Batches(j, es) == Batches(j', es[1..]);
      }
      NoRenewals(j', es[1..], w);
    }
  }

  /** While nobody joins, nobody says to have the block and its record is not removed, a refusal that
      the session hears of is always on record. So no peer is asked twice: the want is sent at most as
      often as there were peers it could be sent to. */
  lemma FinitelyManySends(j: Joint, es: seq<Event>, w: Want)
    requires Recorded(j) && OnlyRefused(j, w.cid) && PossibleRun(j, es) && Unoffered(es, w.cid)
    requires Legal(j.session, Batches(j, es)) && Tracked(j.session, Batches(j, es), w)
    requires NobodyNew(j.session, Batches(j, es), w)
    ensures var s := JointRun(j, es).session;
            && w in s.wants
            && Choices(j.session, Batches(j, es), w) + |Triable(s.wants[w])| <= |Triable(j.session.wants[w])|
  {
    Projects(j, es);
    NoRenewals(j, es, w);
    SendsAccounted(j.session, Batches(j, es), w);
  }
}
