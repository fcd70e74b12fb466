/** Which peers have said that they have, or do not have, a block
    (internal/blockpresencemanager/blockpresencemanager.go). */
module BlockPresence {
  import opened Basics

  type Presence = map<Cid, map<Peer, bool>>

  predicate Known(m: Presence, p: Peer, c: Cid) { c in m && p in m[c] }

  predicate PeerHasBlock(m: Presence, p: Peer, c: Cid) { Known(m, p, c) && m[c][p] }

  predicate PeerDoesNotHaveBlock(m: Presence, p: Peer, c: Cid) { Known(m, p, c) && !m[c][p] }

  /** `updateBlockPresence`: a HAVE is never changed to a DONT_HAVE. */
  function Record(m: Presence, p: Peer, c: Cid, present: bool): Presence {
    var ps := if c in m then m[c] else map[];
    if p in ps && ps[p] then m else m[c := ps[p := present]]
  }

  function RecordAll(m: Presence, p: Peer, ws: seq<Want>, present: bool): Presence {
    if ws == [] then m else Record(RecordAll(m, p, ws[..|ws| - 1], present), p, ws[|ws| - 1].cid, present)
  }

  function Received(m: Presence, p: Peer, haves: seq<Want>, dontHaves: seq<Want>): Presence {
    RecordAll(RecordAll(m, p, haves, true), p, dontHaves, false)
  }

  function Cids(ws: seq<Want>): set<Cid> { set w | w in ws :: w.cid }

  lemma CidsSnoc(ws: seq<Want>)
    requires ws != []
    ensures Cids(ws) == Cids(ws[..|ws| - 1]) + {ws[|ws| - 1].cid}
  {
    assert ws == ws[..|ws| - 1] + [ws[|ws| - 1]];
  }

  lemma {:induction false} RecordAllMeans(m: Presence, p: Peer, ws: seq<Want>, present: bool, q: Peer, c: Cid)
    ensures var r := RecordAll(m, p, ws, present);
            && (PeerHasBlock(r, q, c) <==> PeerHasBlock(m, q, c) || (present && q == p && c in Cids(ws)))
            && (Known(r, q, c) <==> Known(m, q, c) || (q == p && c in Cids(ws)))
  {
    if ws != [] {
      RecordAllMeans(m, p, ws[..|ws| - 1], present, q, c);
      CidsSnoc(ws);
    }
  }

  /** After a message a peer is known to have a block if it was, or says so; to not have it if it
      says so or was, unless it is known to have it. Nothing changes for other peers. */
  lemma ReceivedMeans(m: Presence, p: Peer, haves: seq<Want>, dontHaves: seq<Want>, q: Peer, c: Cid)
    ensures var r := Received(m, p, haves, dontHaves);
            && (PeerHasBlock(r, q, c) <==> PeerHasBlock(m, q, c) || (q == p && c in Cids(haves)))
            && (PeerDoesNotHaveBlock(r, q, c) <==>
                  !PeerHasBlock(r, q, c) && (PeerDoesNotHaveBlock(m, q, c) || (q == p && c in Cids(dontHaves))))
  {
    var r1 := RecordAll(m, p, haves, true);
    RecordAllMeans(m, p, haves, true, q, c);
    RecordAllMeans(r1, p, dontHaves, false, q, c);
  }

  /** Something is known of the block, and every given peer has said that it does not have it. */
  predicate AllDontHave(m: Presence, peers: set<Peer>, c: Cid) {
    c in m && forall p :: p in peers ==> PeerDoesNotHaveBlock(m, p, c)
  }

  class BlockPresenceManager {
    var presence: Presence

    constructor ()
      ensures presence == map[]
    {
      presence := map[];
    }

    method ReceiveFrom(p: Peer, haves: seq<Want>, dontHaves: seq<Want>)
      modifies this
      ensures presence == Received(old(presence), p, haves, dontHaves)
    {
      UpdateAll(p, haves, true);
      UpdateAll(p, dontHaves, false);
    }

    method UpdateAll(p: Peer, ws: seq<Want>, present: bool)
      modifies this
      ensures presence == RecordAll(old(presence), p, ws, present)
    {
      for i := 0 to |ws|
        invariant presence == RecordAll(old(presence), p, ws[..i], present)
      {
        assert ws[..i + 1][..i] == ws[..i];
        UpdateBlockPresence(p, ws[i].cid, present);
      }
      assert ws[..|ws|] == ws;
    }

    method UpdateBlockPresence(p: Peer, c: Cid, present: bool)
      modifies this
      ensures presence == Record(old(presence), p, c, present)
    {
      var ps: map<Peer, bool> := if c in presence then presence[c] else map[];
      if p in ps && ps[p] { return; }
      presence := presence[c := ps[p := present]];
    }

    /** Those of the wants whose block none of the peers has. */
    method AllPeersDoNotHaveBlock(peers: set<Peer>, ws: seq<Want>) returns (r: seq<Want>)
      ensures forall w :: w in r <==> w in ws && AllDontHave(presence, peers, w.cid)
    {
      r := [];
      for i := 0 to |ws|
        invariant forall w :: w in r <==> w in ws[..i] && AllDontHave(presence, peers, w.cid)
      {
        assert ws[..i + 1] == ws[..i] + [ws[i]];
        var all := NoneHas(peers, ws[i].cid);
        if all {
          r := r + [ws[i]];
        }
      }
      assert ws[..|ws|] == ws;
    }

    method NoneHas(peers: set<Peer>, c: Cid) returns (all: bool)
      ensures all <==> AllDontHave(presence, peers, c)
    {
      if c !in presence { return false; }
      var todo := peers;
      while todo != {}
        invariant todo <= peers && forall p :: p in peers - todo ==> PeerDoesNotHaveBlock(presence, p, c)
        decreases todo
      {
        var p :| p in todo;
        if p !in presence[c] || presence[c][p] { return false; }
        todo := todo - {p};
      }
      all := true;
    }

    method RemoveKeys(ws: seq<Want>)
      modifies this
      ensures presence == old(presence) - Cids(ws)
    {
      ghost var was := presence;
      assert was - Cids([]) == was;
      for i := 0 to |ws|
        invariant presence == was - Cids(ws[..i])
      {
        assert ws[..i + 1][..i] == ws[..i];
        CidsSnoc(ws[..i + 1]);
        assert was - Cids(ws[..i]) - {ws[i].cid} == was - Cids(ws[..i + 1]);
        presence := presence - {ws[i].cid};
      }
      assert ws[..|ws|] == ws;
    }
  }
}
