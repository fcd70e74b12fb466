/** The manager object itself: its methods change maps, sets and gauges one key at a time, and are
    proved against the functions of module PeerWants. */
module PeerWantObject {
  import opened Basics
  import PW = PeerWants

  // ---------------------------------------------------------------------------------------
  // Filters, one element at a time
  // ---------------------------------------------------------------------------------------

  lemma SetSnoc(ws: seq<Want>, w: Want)
    ensures PW.Set(ws + [w]) == PW.Set(ws) + {w}
  {
  }

  lemma SetEmpty(ws: seq<Want>)
    ensures ws == [] <==> PW.Set(ws) == {}
  {
    if ws != [] { assert ws[0] in PW.Set(ws); }
  }

  lemma OnlySnoc(ws: seq<Want>, w: Want, keep: set<Want>)
    ensures PW.Only(ws + [w], keep) == if w in keep then PW.Only(ws, keep) + [w] else PW.Only(ws, keep)
  {
    assert (ws + [w])[..|ws|] == ws;
  }

  lemma {:induction false} OnlyWithin(ws: seq<Want>, all: set<Want>, keep: set<Want>)
    requires PW.Set(ws) <= all
    ensures PW.Only(ws, all * keep) == PW.Only(ws, keep)
  {
    if ws != [] {
      var n := |ws| - 1;
      assert ws[n] in PW.Set(ws);
      OnlyWithin(ws[..n], all, keep);
    }
  }

  lemma UnseenSnoc(ws: seq<Want>, w: Want, seen: set<Want>)
    ensures PW.Unseen(ws + [w], seen) ==
            if w in seen + PW.Set(ws) then PW.Unseen(ws, seen) else PW.Unseen(ws, seen) + [w]
  {
    assert (ws + [w])[..|ws|] == ws;
  }

  method Keep(ws: seq<Want>, keep: set<Want>) returns (r: seq<Want>)
    ensures r == PW.Only(ws, keep)
  {
    r := [];
    for i := 0 to |ws|
      invariant r == PW.Only(ws[..i], keep)
    {
      assert ws[..i + 1] == ws[..i] + [ws[i]];
      OnlySnoc(ws[..i], ws[i], keep);
      if ws[i] in keep {
        r := r + [ws[i]];
      }
    }
    assert ws[..|ws|] == ws;
  }

  /** The elements of a set in some order. */
  method Elements(s: set<Want>) returns (ks: seq<Want>)
    ensures PW.Enumerates(ks, s)
  {
    ks := [];
    var todo := s;
    while todo != {}
      invariant PW.Set(ks) + todo == s && PW.Set(ks) !! todo
      invariant forall i, j :: 0 <= i < j < |ks| ==> ks[i] != ks[j]
      decreases todo
    {
      var k :| k in todo;
      SetSnoc(ks, k);
      ks, todo := ks + [k], todo - {k};
    }
  }

  // ---------------------------------------------------------------------------------------
  // One key
  // ---------------------------------------------------------------------------------------

  /** The peers that `wantPeerCounts` counts among some. */
  function WithBlock(s: PW.State, w: Want, ps: set<Peer>): set<Peer> {
    set p | p in ps && p in s.peers && w in s.peers[p].blocks
  }

  function WithHave(s: PW.State, w: Want, ps: set<Peer>): set<Peer> {
    set p | p in ps && p in s.peers && w !in s.peers[p].blocks && w in s.peers[p].haves
  }

  function BlockPeers(s: PW.State, w: Want): set<Peer> { WithBlock(s, w, PW.IndexOf(s, w)) }

  function HavePeers(s: PW.State, w: Want): set<Peer> { WithHave(s, w, PW.IndexOf(s, w)) }

  lemma CountOne(s: PW.State, w: Want, ps: set<Peer>, p: Peer)
    requires p !in ps
    ensures |WithBlock(s, w, ps + {p})| ==
            |WithBlock(s, w, ps)| + if p in s.peers && w in s.peers[p].blocks then 1 else 0
    ensures |WithHave(s, w, ps + {p})| ==
            |WithHave(s, w, ps)| +
            if p in s.peers && w !in s.peers[p].blocks && w in s.peers[p].haves then 1 else 0
  {
    var b, h := WithBlock(s, w, ps), WithHave(s, w, ps);
    assert WithBlock(s, w, ps + {p}) == if p in s.peers && w in s.peers[p].blocks then b + {p} else b;
    assert WithHave(s, w, ps + {p}) ==
           if p in s.peers && w !in s.peers[p].blocks && w in s.peers[p].haves then h + {p} else h;
  }

  /** What the counts tell if the index is exact. */
  lemma CountsMean(s: PW.State, w: Want)
    requires PW.Indexed(s)
    ensures BlockPeers(s, w) != {} <==> w in PW.Blocks(s)
    ensures BlockPeers(s, w) + HavePeers(s, w) != {} <==> w in s.index
  {
    if p :| p in s.peers && w in s.peers[p].blocks {
      assert p in PW.IndexOf(s, w);
      assert p in BlockPeers(s, w);
    }
    if w in s.index {
      var p :| p in s.index[w];
      assert p in PW.IndexOf(s, w);
      assert p in BlockPeers(s, w) + HavePeers(s, w);
    }
  }

  /** How many of the keys are not counted yet. */
  function Fresh(ws: seq<Want>, counted: set<Want>): nat {
    if ws == [] then 0 else Fresh(ws[..|ws| - 1], counted) + if ws[|ws| - 1] in counted then 0 else 1
  }

  lemma FreshSnoc(ws: seq<Want>, w: Want, counted: set<Want>)
    ensures Fresh(ws + [w], counted) == Fresh(ws, counted) + if w in counted then 0 else 1
  {
    assert (ws + [w])[..|ws|] == ws;
  }

  lemma FreshStep(ws: set<Want>, w: Want, counted: set<Want>)
    requires w !in ws
    ensures |ws + {w} - counted| == |ws - counted| + if w in counted then 0 else 1
  {
    if w in counted {
      assert ws + {w} - counted == ws - counted;
    } else {
      assert ws + {w} - counted == (ws - counted) + {w};
    }
  }

  lemma LastNew(ws: seq<Want>, init: seq<Want>, w: Want)
    requires PW.NoRepeat(ws) && ws != [] && init == ws[..|ws| - 1] && w == ws[|ws| - 1]
    ensures PW.NoRepeat(init) && w !in PW.Set(init) && PW.Set(ws) == PW.Set(init) + {w}
  {
    assert ws == init + [w];
    SetSnoc(init, w);
  }

  lemma {:induction false} FreshCount(ws: seq<Want>, counted: set<Want>)
    requires PW.NoRepeat(ws)
    ensures Fresh(ws, counted) == |PW.Set(ws) - counted|
  {
    if ws == [] {
      assert PW.Set(ws) - counted == {};
    } else {
      var init, w := ws[..|ws| - 1], ws[|ws| - 1];
      LastNew(ws, init, w);
      FreshCount(init, counted);
      FreshStep(PW.Set(init), w, counted);
    }
  }

  lemma ReindexStep(s: PW.State, s': PW.State, p: Peer, ws: set<Want>, w: Want)
    requires s'.index == PW.Reindex(s, p, ws)
    ensures s'.index[w := PW.IndexOf(s', w) + {p}] == PW.Reindex(s, p, ws + {w})
  {
    var a, b := s'.index[w := PW.IndexOf(s', w) + {p}], PW.Reindex(s, p, ws + {w});
    assert a.Keys == b.Keys;
    forall v | v in a ensures a[v] == b[v] {
      if v == w { assert PW.IndexOf(s', w) + {p} == PW.IndexOf(s, w) + {p}; }
    }
  }

  /** The peer's own wants after some turns of the loops of `sendWants`. */
  function Growing(pw: PW.PeerWant, blocks: set<Want>, haves: set<Want>): PW.PeerWant {
    PW.PeerWant(pw.blocks + blocks, pw.haves - blocks + haves, pw.calls)
  }

  lemma GrowBlock(pw: PW.PeerWant, blocks: set<Want>, w: Want)
    ensures var g := Growing(pw, blocks, {});
            PW.PeerWant(g.blocks + {w}, g.haves - {w}, g.calls) == Growing(pw, blocks + {w}, {})
  {
    assert pw.blocks + blocks + {w} == pw.blocks + (blocks + {w});
    assert pw.haves - blocks + {} - {w} == pw.haves - (blocks + {w}) + {};
  }

  lemma GrowHave(pw: PW.PeerWant, blocks: set<Want>, haves: set<Want>, w: Want)
    ensures var g := Growing(pw, blocks, haves);
            PW.PeerWant(g.blocks, g.haves + {w}, g.calls) == Growing(pw, blocks, haves + {w})
  {
    assert pw.haves - blocks + haves + {w} == pw.haves - blocks + (haves + {w});
  }

  /** The state in the loops of `sendWants`: the peer's wants and the index have grown. */
  ghost predicate Asking(s: PW.State, s': PW.State, p: Peer, blocks: set<Want>, haves: set<Want>)
    requires p in s.peers
  {
    && s'.bcst == s.bcst
    && s'.peers == s.peers[p := Growing(s.peers[p], blocks, haves)]
    && s'.index == PW.Reindex(s, p, blocks + haves)
  }

  /** What the counts tell then. */
  lemma AskingCounts(s: PW.State, s': PW.State, p: Peer, blocks: set<Want>, haves: set<Want>, w: Want)
    requires PW.Indexed(s) && p in s.peers && Asking(s, s', p, blocks, haves)
    ensures BlockPeers(s', w) != {} <==> w in PW.Blocks(s) + blocks
    ensures BlockPeers(s', w) + HavePeers(s', w) != {} || w in s'.bcst <==> w in PW.Wanted(s) + (blocks + haves)
  {
    assert PW.Targeted(s'.peers[p]) == PW.Targeted(s.peers[p]) + (blocks + haves);
    PW.ReindexIndexed(s, s', p, blocks + haves);
    CountsMean(s', w);
    PW.UpdateBlocks(s, s', p, blocks);
  }

  lemma AskBlock(s: PW.State, c: PW.State, c': PW.State, p: Peer, blocks: set<Want>, w: Want)
    requires p in s.peers && Asking(s, c, p, blocks, {})
    requires var pw := c.peers[p]; c'.peers == c.peers[p := PW.PeerWant(pw.blocks + {w}, pw.haves - {w}, pw.calls)]
    requires c'.index == c.index[w := PW.IndexOf(c, w) + {p}] && c'.bcst == c.bcst
    ensures Asking(s, c', p, blocks + {w}, {})
  {
    assert blocks + {} == blocks && blocks + {w} + {} == blocks + {w};
    ReindexStep(s, c, p, blocks, w);
    GrowBlock(s.peers[p], blocks, w);
  }

  lemma AskHave(s: PW.State, c: PW.State, c': PW.State, p: Peer, blocks: set<Want>, haves: set<Want>, w: Want)
    requires p in s.peers && Asking(s, c, p, blocks, haves)
    requires var pw := c.peers[p]; c'.peers == c.peers[p := PW.PeerWant(pw.blocks, pw.haves + {w}, pw.calls)]
    requires c'.index == c.index[w := PW.IndexOf(c, w) + {p}] && c'.bcst == c.bcst
    ensures Asking(s, c', p, blocks, haves + {w})
  {
    assert blocks + (haves + {w}) == blocks + haves + {w};
    ReindexStep(s, c, p, blocks + haves, w);
    GrowHave(s.peers[p], blocks, haves, w);
  }

  // ---------------------------------------------------------------------------------------
  // The object
  // ---------------------------------------------------------------------------------------

  lemma ApartCount(a: set<Want>, b: set<Want>, counted: set<Want>)
    requires a !! b
    ensures |a + b - counted| == |a - counted| + |b - counted|
  {
    assert a + b - counted == (a - counted) + (b - counted);
  }

  /** What the gauges have been raised by when `sendWants` is done. */
  lemma AskedGauges(s: PW.State, blocks: seq<Want>, haves: seq<Want>)
    requires PW.NoRepeat(blocks) && PW.NoRepeat(haves) && PW.Set(blocks) !! PW.Set(haves)
    ensures Fresh(blocks, PW.Wanted(s)) + Fresh(haves, PW.Wanted(s)) == |PW.Set(blocks) + PW.Set(haves) - PW.Wanted(s)|
    ensures Fresh(blocks, PW.Blocks(s)) == |PW.Set(blocks) - PW.Blocks(s)|
  {
    FreshCount(blocks, PW.Wanted(s));
    FreshCount(haves, PW.Wanted(s));
    FreshCount(blocks, PW.Blocks(s));
    ApartCount(PW.Set(blocks), PW.Set(haves), PW.Wanted(s));
  }

  /** After some turns of the first loop of `sendWants`. */
  ghost predicate BlocksAsked(s: PW.State, c: PW.State, p: Peer, bs: seq<Want>, blocks: seq<Want>) {
    && p in s.peers && blocks == PW.NewBlocks(s.peers[p], bs) && Asking(s, c, p, PW.Set(blocks), {})
    && c.wants == s.wants + Fresh(blocks, PW.Wanted(s))
    && c.wantBlocks == s.wantBlocks + Fresh(blocks, PW.Blocks(s))
  }

  /** After some turns of the second. */
  ghost predicate HavesAsked(s: PW.State, c: PW.State, p: Peer, bs: seq<Want>, blocks: seq<Want>, hs: seq<Want>,
                             haves: seq<Want>) {
    && p in s.peers && blocks == PW.NewBlocks(s.peers[p], bs) && haves == PW.NewHaves(s, s.peers[p], bs, hs)
    && Asking(s, c, p, PW.Set(blocks), PW.Set(haves))
    && c.wants == s.wants + Fresh(blocks, PW.Wanted(s)) + Fresh(haves, PW.Wanted(s))
    && c.wantBlocks == s.wantBlocks + Fresh(blocks, PW.Blocks(s))
  }

  lemma StartAsking(s: PW.State, p: Peer)
    requires p in s.peers && PW.Indexed(s)
    ensures Asking(s, s, p, {}, {})
  {
    var pw := s.peers[p];
    assert pw.blocks + {} == pw.blocks && pw.haves - {} + {} == pw.haves;
    var r := PW.Reindex(s, p, {});
    assert r.Keys == s.index.Keys;
    forall w | w in r ensures r[w] == s.index[w] {
      assert PW.IndexOf(s, w) + {} == s.index[w];
    }
  }

  /** The calls are added last. */
  lemma AskedLast(s: PW.State, c: PW.State, p: Peer, blocks: seq<Want>, haves: seq<Want>)
    requires p in s.peers && Asking(s, c, p, PW.Set(blocks), PW.Set(haves))
    ensures c.peers[p := c.peers[p].(calls := c.peers[p].calls + [PW.AddWants(blocks, haves)])]
            == s.peers[p := PW.Asked(s.peers[p], blocks, haves)]
  {
  }

  lemma AskedApart(s: PW.State, pw: PW.PeerWant, bs: seq<Want>, hs: seq<Want>)
    ensures var blocks, haves := PW.NewBlocks(pw, bs), PW.NewHaves(s, pw, bs, hs);
            PW.NoRepeat(blocks) && PW.NoRepeat(haves) && PW.Set(blocks) !! PW.Set(haves)
  {
    PW.UnseenSet(bs, pw.blocks);
    PW.UnseenOnce(bs, pw.blocks);
    PW.UnseenSet(hs, s.bcst + PW.Targeted(pw) + PW.Set(bs));
    PW.UnseenOnce(hs, s.bcst + PW.Targeted(pw) + PW.Set(bs));
  }

  lemma AskedIs(s: PW.State, c: PW.State, p: Peer, bs: seq<Want>, hs: seq<Want>, blocks: seq<Want>, haves: seq<Want>)
    requires p in s.peers && blocks == PW.NewBlocks(s.peers[p], bs) && haves == PW.NewHaves(s, s.peers[p], bs, hs)
    requires c.peers == s.peers[p := PW.Asked(s.peers[p], blocks, haves)]
    requires c.index == PW.Reindex(s, p, PW.Set(blocks) + PW.Set(haves)) && c.bcst == s.bcst
    requires c.wants == s.wants + |PW.Set(blocks) + PW.Set(haves) - PW.Wanted(s)|
    requires c.wantBlocks == s.wantBlocks + |PW.Set(blocks) - PW.Blocks(s)|
    ensures c == PW.SendWants(s, p, bs, hs)
  {
  }

  /** The keys for which the second loop of `sendWants` asks are those that were not asked for yet. */
  lemma NotAsked(s: PW.State, c: PW.State, p: Peer, bs: seq<Want>, hs: seq<Want>, w: Want)
    requires p in s.peers
    requires Asking(s, c, p, PW.Set(PW.NewBlocks(s.peers[p], bs)), PW.Set(PW.NewHaves(s, s.peers[p], bs, hs)))
    ensures w !in c.bcst && w !in c.peers[p].blocks && w !in c.peers[p].haves <==>
            w !in s.bcst + PW.Targeted(s.peers[p]) + PW.Set(bs) + PW.Set(hs)
  {
    PW.UnseenSet(bs, s.peers[p].blocks);
    PW.UnseenSet(hs, s.bcst + PW.Targeted(s.peers[p]) + PW.Set(bs));
  }

  lemma NoBlockAsked(s: PW.State, c: PW.State, p: Peer, bs: seq<Want>, w: Want)
    requires p in s.peers && Asking(s, c, p, PW.Set(PW.NewBlocks(s.peers[p], bs)), {})
    ensures w !in c.peers[p].blocks <==> w !in s.peers[p].blocks + PW.Set(bs)
  {
    PW.UnseenSet(bs, s.peers[p].blocks);
  }

  lemma AskedAll(s: PW.State, c: PW.State, p: Peer, bs: seq<Want>, hs: seq<Want>, blocks: seq<Want>, haves: seq<Want>)
    requires HavesAsked(s, c, p, bs, blocks, hs, haves)
    ensures c.(peers := c.peers[p := c.peers[p].(calls := c.peers[p].calls + [PW.AddWants(blocks, haves)])])
            == PW.SendWants(s, p, bs, hs)
  {
    AskedLast(s, c, p, blocks, haves);
    AskedApart(s, s.peers[p], bs, hs);
    AskedGauges(s, blocks, haves);
    var c' := c.(peers := c.peers[p := c.peers[p].(calls := c.peers[p].calls + [PW.AddWants(blocks, haves)])]);
    AskedIs(s, c', p, bs, hs, blocks, haves);
  }

  // ---- broadcastWantHaves ----

  /** After some turns of the first loop of `broadcastWantHaves`. */
  ghost predicate Collected(s: PW.State, c: PW.State, ws: seq<Want>, unsent: seq<Want>) {
    && unsent == PW.Unseen(ws, s.bcst)
    && c == s.(bcst := s.bcst + PW.Set(ws), wants := s.wants + Fresh(unsent, s.index.Keys))
  }

  /** The wants of each peer when only `todo` is left to be told. */
  ghost predicate Telling(was: map<Peer, PW.PeerWant>, now: map<Peer, PW.PeerWant>, unsent: seq<Want>,
                          todo: set<Peer>) {
    && now.Keys == was.Keys
    && forall p :: p in was ==> now[p] == if p in todo then was[p] else PW.Broadcast(was[p], unsent)
  }

  lemma CollectedAll(s: PW.State, c: PW.State, ws: seq<Want>, unsent: seq<Want>)
    requires Collected(s, c, ws, unsent)
    ensures c.(peers := map p | p in s.peers :: PW.Broadcast(s.peers[p], unsent)) == PW.BroadcastWantHaves(s, ws)
  {
    PW.UnseenOnce(ws, s.bcst);
    FreshCount(unsent, s.index.Keys);
  }

  lemma NothingToTell(was: map<Peer, PW.PeerWant>)
    ensures (map p | p in was :: PW.Broadcast(was[p], [])) == was
  {
  }

  /** The keys not yet sent to the peer. */
  method PeerUnsent(pw: PW.PeerWant, unsent: seq<Want>) returns (r: seq<Want>)
    ensures r == PW.Only(unsent, PW.Set(unsent) - PW.Targeted(pw))
  {
    r := [];
    for i := 0 to |unsent|
      invariant r == PW.Only(unsent[..i], PW.Set(unsent) - PW.Targeted(pw))
    {
      var w := unsent[i];
      assert unsent[..i + 1] == unsent[..i] + [w];
      OnlySnoc(unsent[..i], w, PW.Set(unsent) - PW.Targeted(pw));
      if w !in pw.blocks && w !in pw.haves {
        r := r + [w];
      }
    }
    assert unsent[..|unsent|] == unsent;
  }

  // ---- sendCancels ----

  /** What a peer's wants are after some turns of the loop of `send`, and what it is told. */
  ghost predicate Sending(s: PW.State, pw: PW.PeerWant, ks: seq<Want>, seen: set<Want>, blocks: set<Want>,
                          haves: set<Want>, told: seq<Want>) {
    && blocks == pw.blocks - PW.Set(ks) && haves == pw.haves - PW.Set(ks)
    && told == PW.Unseen(ks, seen)
  }

  lemma SendTurn(s: PW.State, pw: PW.PeerWant, ks: seq<Want>, w: Want, all: set<Want>, blocks: set<Want>,
                 haves: set<Want>, told: seq<Want>)
    requires w in all
    requires var seen := all - PW.Targeted(pw) + s.bcst; Sending(s, pw, ks, seen, blocks, haves, told)
    ensures var seen := all - PW.Targeted(pw) + s.bcst;
            && Sending(s, pw, ks + [w], seen, blocks - {w}, haves - {w},
                       if (w in blocks || w in haves) && w !in s.bcst then told + [w] else told)
  {
    SetSnoc(ks, w);
    UnseenSnoc(ks, w, all - PW.Targeted(pw) + s.bcst);
  }

  /** `send` for one peer: its wants are cleared, and what it is told to cancel starts with the
      broadcast wants. */
  method CancelFor(pw: PW.PeerWant, ks: seq<Want>, bcst: set<Want>, broadcastCancels: seq<Want>, ghost s: PW.State)
    returns (r: PW.PeerWant)
    requires bcst == s.bcst && broadcastCancels == PW.Only(ks, s.bcst)
    ensures r == PW.Cancel(s, pw, ks)
  {
    var blocks, haves, told := pw.blocks, pw.haves, [];
    ghost var seen := PW.Set(ks) - PW.Targeted(pw) + s.bcst;
    assert PW.Set([]) == {};
    for i := 0 to |ks|
      invariant Sending(s, pw, ks[..i], seen, blocks, haves, told)
    {
      var w := ks[i];
      assert ks[..i + 1] == ks[..i] + [w];
      SendTurn(s, pw, ks[..i], w, PW.Set(ks), blocks, haves, told);
      if w in blocks || w in haves {
        blocks, haves := blocks - {w}, haves - {w};
        if w !in bcst {
          told := told + [w];
        }
      } else {
        assert blocks - {w} == blocks && haves - {w} == haves;
      }
    }
    assert ks[..|ks|] == ks;
    var toCancel := broadcastCancels + told;
    r := PW.PeerWant(blocks, haves, if toCancel != [] then pw.calls + [PW.AddCancels(toCancel)] else pw.calls);
  }

  /** The wants of each peer when only `todo` is left to be told to cancel. */
  ghost predicate Cancelling(s: PW.State, now: map<Peer, PW.PeerWant>, ks: seq<Want>, todo: set<Peer>) {
    && now.Keys == s.peers.Keys
    && forall p :: p in s.peers ==> now[p] == if p in todo then s.peers[p] else PW.Cancel(s, s.peers[p], ks)
  }

  /** A peer whose view has none of the keys is left as it is. */
  lemma NothingToCancel(s: PW.State, pw: PW.PeerWant, ks: seq<Want>)
    requires PW.Set(ks) !! PW.View(s, pw)
    ensures PW.Cancel(s, pw, ks) == pw
  {
    PW.CancelsExactly(s, pw, ks);
    var ws := PW.CancelsFor(s, pw, ks);
    SetEmpty(ws);
    assert pw.blocks - PW.Set(ks) == pw.blocks && pw.haves - PW.Set(ks) == pw.haves;
  }

  lemma NotReached(s: PW.State, p: Peer, ks: seq<Want>)
    requires PW.Indexed(s) && p in s.peers && PW.Only(ks, s.bcst) == []
    requires forall i :: 0 <= i < |ks| ==> p !in PW.IndexOf(s, ks[i])
    ensures PW.Set(ks) !! PW.View(s, s.peers[p])
  {
    PW.OnlySet(ks, s.bcst);
    assert PW.Set(PW.Only(ks, s.bcst)) == {};
    forall w | w in ks ensures w !in PW.View(s, s.peers[p]) {
      assert w !in PW.Set(ks) * s.bcst;
      var i :| 0 <= i < |ks| && ks[i] == w;
      assert p !in PW.IndexOf(s, w);
    }
  }

  /** Peers in `todo` received no want for any of the keys. */
  lemma CancelledAll(s: PW.State, now: map<Peer, PW.PeerWant>, ks: seq<Want>, todo: set<Peer>)
    requires PW.Indexed(s) && Cancelling(s, now, ks, todo)
    requires todo != {} ==> PW.Only(ks, s.bcst) == []
    requires forall p, i :: p in todo && 0 <= i < |ks| ==> p !in PW.IndexOf(s, ks[i])
    ensures now == map p | p in s.peers :: PW.Cancel(s, s.peers[p], ks)
  {
    forall p | p in s.peers ensures now[p] == PW.Cancel(s, s.peers[p], ks) {
      if p in todo {
        NotReached(s, p, ks);
        NothingToCancel(s, s.peers[p], ks);
      }
    }
  }

  // ---- removePeer ----

  /** The index with the peer taken out for some keys. */
  function UnindexSome(s: PW.State, p: Peer, done: set<Want>): map<Want, set<Peer>> {
    map w | w in s.index && (w in done ==> s.index[w] - {p} != {}) :: if w in done then s.index[w] - {p} else s.index[w]
  }

  function Unindexed(index: map<Want, set<Peer>>, w: Want, p: Peer): map<Want, set<Peer>> {
    if w !in index then index
    else if index[w] - {p} == {} then index - {w}
    else index[w := index[w] - {p}]
  }

  lemma UnindexStep(s: PW.State, p: Peer, done: set<Want>, w: Want)
    requires w !in done
    ensures Unindexed(UnindexSome(s, p, done), w, p) == UnindexSome(s, p, done + {w})
  {
    var a, b := Unindexed(UnindexSome(s, p, done), w, p), UnindexSome(s, p, done + {w});
    assert a.Keys == b.Keys;
    assert forall v :: v in a ==> a[v] == b[v];
  }

  lemma UnindexDone(s: PW.State, p: Peer, done: set<Want>)
    requires PW.Indexed(s) && p in s.peers && done == PW.Targeted(s.peers[p])
    ensures UnindexSome(s, p, done) == PW.Unindex(s, p)
  {
    var a, b := UnindexSome(s, p, done), PW.Unindex(s, p);
    forall w | w in s.index ensures w in done <==> p in s.index[w] {
      assert p in PW.IndexOf(s, w) <==> w in done;
    }
    assert a.Keys == b.Keys;
    forall w | w in a ensures a[w] == b[w] {
      if w !in done { assert s.index[w] - {p} == s.index[w]; }
    }
  }

  /** The peer is gone, whatever the gauges. */
  predicate Gone(s: PW.State, s': PW.State, p: Peer) {
    s'.peers == s.peers - {p} && s'.index == PW.Unindex(s, p) && s'.bcst == s.bcst
  }

  /** What the counts tell for a key for which the peer is out of the index. */
  lemma RemovedCounts(s: PW.State, s': PW.State, c: PW.State, p: Peer, done: set<Want>, w: Want)
    requires PW.Indexed(s) && p in s.peers && w in done && c.index == UnindexSome(s, p, done) && c.peers == s.peers
    requires Gone(s, s', p)
    ensures BlockPeers(c, w) != {} <==> w in PW.Blocks(s')
    ensures BlockPeers(c, w) + HavePeers(c, w) != {} || w in s.bcst <==> w in PW.Wanted(s')
  {
    PW.UnindexIndexed(s, s', p);
    CountsMean(s', w);
    assert PW.IndexOf(c, w) == PW.IndexOf(s', w);
    assert p !in PW.IndexOf(s', w);
    assert BlockPeers(c, w) == BlockPeers(s', w) && HavePeers(c, w) == HavePeers(s', w);
  }

  /** The state in the loops of `removePeer`, for the blocks and haves already taken out. */
  ghost predicate Removing(s: PW.State, s': PW.State, c: PW.State, p: Peer, blocks: seq<Want>, haves: seq<Want>) {
    && c.peers == s.peers && c.bcst == s.bcst && c.index == UnindexSome(s, p, PW.Set(blocks) + PW.Set(haves))
    && c.wants == s.wants - Fresh(blocks, PW.Wanted(s')) - Fresh(haves, PW.Wanted(s'))
    && c.wantBlocks == s.wantBlocks - Fresh(blocks, PW.Blocks(s'))
  }

  lemma RemovedGauges(s': PW.State, pw: PW.PeerWant, blocks: seq<Want>, haves: seq<Want>)
    requires pw.blocks !! pw.haves && PW.Enumerates(blocks, pw.blocks) && PW.Enumerates(haves, pw.haves)
    ensures Fresh(blocks, PW.Wanted(s')) + Fresh(haves, PW.Wanted(s')) == |pw.blocks + pw.haves - PW.Wanted(s')|
    ensures Fresh(blocks, PW.Blocks(s')) == |pw.blocks - PW.Blocks(s')|
  {
    AskedGauges(s', blocks, haves);
  }

  lemma RemovedAll(s: PW.State, s': PW.State, c: PW.State, p: Peer, blocks: seq<Want>, haves: seq<Want>)
    requires PW.Indexed(s) && p in s.peers && s.peers[p].blocks !! s.peers[p].haves && Gone(s, s', p)
    requires var pw := s.peers[p];
             && s'.wants == s.wants - |pw.blocks + pw.haves - PW.Wanted(s')|
             && s'.wantBlocks == s.wantBlocks - |pw.blocks - PW.Blocks(s')|
    requires PW.Enumerates(blocks, s.peers[p].blocks) && PW.Enumerates(haves, s.peers[p].haves)
    requires Removing(s, s', c, p, blocks, haves)
    ensures c.(peers := c.peers - {p}) == s'
  {
    RemovedGauges(s', s.peers[p], blocks, haves);
    UnindexDone(s, p, PW.Set(blocks) + PW.Set(haves));
  }

  lemma RemovedIs(s: PW.State, s': PW.State, p: Peer, pw: PW.PeerWant)
    requires p in s.peers && s' == PW.RemovePeer(s, p) && pw == s.peers[p]
    ensures Gone(s, s', p)
    ensures s'.wants == s.wants - |pw.blocks + pw.haves - PW.Wanted(s')| &&
            s'.wantBlocks == s.wantBlocks - |pw.blocks - PW.Blocks(s')|
  {
    var s1 := s.(peers := s.peers - {p}, index := PW.Unindex(s, p));
    assert PW.Wanted(s1) == PW.Wanted(s') && PW.Blocks(s1) == PW.Blocks(s');
  }

  lemma StartRemoving(s: PW.State, s': PW.State, p: Peer)
    ensures Removing(s, s', s, p, [], [])
  {
    assert PW.Set([]) + PW.Set([]) == {};
    assert UnindexSome(s, p, {}) == s.index;
  }

  /** What `sendCancels` leaves. */
  lemma CancelledIs(s: PW.State, c: PW.State, ks: seq<Want>)
    requires c.peers == map p | p in s.peers :: PW.Cancel(s, s.peers[p], ks)
    requires c.index == s.index - PW.Set(ks) && c.bcst == s.bcst - PW.Set(PW.Only(ks, s.bcst))
    requires c.wants == s.wants - |PW.Only(ks, PW.Wanted(s))| &&
             c.wantBlocks == s.wantBlocks - |PW.Only(ks, PW.Blocks(s))|
    ensures c == PW.SendCancels(s, ks)
  {
    PW.OnlySet(ks, s.bcst);
    assert c.bcst == s.bcst - PW.Set(ks);
  }

  class PeerWantManager {
    var peerWants: map<Peer, PW.PeerWant>
    var wantPeers: map<Want, set<Peer>>
    var broadcastWants: set<Want>
    var wantGauge: int
    var wantBlockGauge: int

    function State(): PW.State
      reads this
    {
      PW.State(peerWants, wantPeers, broadcastWants, wantGauge, wantBlockGauge)
    }

    constructor ()
      ensures State() == PW.NEW
    {
      peerWants, wantPeers, broadcastWants, wantGauge, wantBlockGauge := map[], map[], {}, 0, 0;
    }

    /** `wantPeerCounts`: how many peers have a want-block and how many a want-have. */
    method WantPeerCounts(w: Want) returns (blocks: nat, haves: nat)
      ensures blocks == |BlockPeers(State(), w)| && haves == |HavePeers(State(), w)|
    {
      blocks, haves := 0, 0;
      var todo := PW.IndexOf(State(), w);
      ghost var done: set<Peer> := {};
      assert WithBlock(State(), w, done) == {} && WithHave(State(), w, done) == {};
      while todo != {}
        invariant done + todo == PW.IndexOf(State(), w) && done !! todo
        invariant blocks == |WithBlock(State(), w, done)| && haves == |WithHave(State(), w, done)|
        decreases todo
      {
        var p :| p in todo;
        CountOne(State(), w, done, p);
        if p in peerWants {
          if w in peerWants[p].blocks {
            blocks := blocks + 1;
          } else if w in peerWants[p].haves {
            haves := haves + 1;
          }
        }
        todo, done := todo - {p}, done + {p};
      }
      assert done == PW.IndexOf(State(), w);
    }

    /** Whether some peer has a want-block for the key, and whether it is wanted at all. */
    method Counted(w: Want) returns (block: bool, wanted: bool)
      ensures block <==> BlockPeers(State(), w) != {}
      ensures wanted <==> BlockPeers(State(), w) + HavePeers(State(), w) != {} || w in broadcastWants
    {
      var blocks, haves := WantPeerCounts(w);
      block, wanted := blocks > 0, blocks > 0 || haves > 0 || w in broadcastWants;
      assert blocks > 0 <==> BlockPeers(State(), w) != {};
      assert haves > 0 <==> HavePeers(State(), w) != {};
    }

    method AddPeer(p: Peer) returns (ghost order: seq<Want>)
      modifies this
      ensures PW.Enumerates(order, old(broadcastWants)) && State() == PW.AddPeer(old(State()), p, order)
    {
      var wants := Elements(broadcastWants);
      order := wants;
      if p in peerWants { return; }
      peerWants := peerWants[p := PW.PeerWant({}, {}, [])];
      if wants != [] {
        peerWants := peerWants[p := PW.PeerWant({}, {}, [PW.AddBroadcastWantHaves(wants)])];
      }
    }

    method SendWants(p: Peer, bs: seq<Want>, hs: seq<Want>)
      requires PW.Valid(State())
      modifies this
      ensures State() == PW.SendWants(old(State()), p, bs, hs)
    {
      if p in peerWants {
        ghost var s := State();
        var blocks, haves := Ask(p, bs, hs);
        AskedAll(s, State(), p, bs, hs, blocks, haves);
        peerWants := peerWants[p := peerWants[p].(calls := peerWants[p].calls + [PW.AddWants(blocks, haves)])];
      }
    }

    /** Both loops of `sendWants`. */
    method Ask(p: Peer, bs: seq<Want>, hs: seq<Want>) returns (blocks: seq<Want>, haves: seq<Want>)
      requires PW.Indexed(State()) && p in peerWants
      modifies this
      ensures HavesAsked(old(State()), State(), p, bs, blocks, hs, haves)
    {
      ghost var s := State();
      blocks := AskBlocks(p, bs);
      haves := AskHaves(p, hs, bs, blocks, s);
    }

    /** The loop over the requested want-blocks. */
    method AskBlocks(p: Peer, bs: seq<Want>) returns (blocks: seq<Want>)
      requires PW.Indexed(State()) && p in peerWants
      modifies this
      ensures BlocksAsked(old(State()), State(), p, bs, blocks)
    {
      ghost var s := State();
      blocks := [];
      StartAsking(s, p);
      assert PW.Set(blocks) == {};
      for i := 0 to |bs|
        invariant BlocksAsked(s, State(), p, bs[..i], blocks)
      {
        assert bs[..i + 1] == bs[..i] + [bs[i]];
        blocks := TryBlock(p, bs[i], blocks, s, bs[..i]);
      }
      assert bs[..|bs|] == bs;
    }

    method TryBlock(p: Peer, w: Want, blocks: seq<Want>, ghost s: PW.State, ghost bs: seq<Want>) returns (r: seq<Want>)
      requires PW.Indexed(s) && BlocksAsked(s, State(), p, bs, blocks)
      modifies this
      ensures BlocksAsked(s, State(), p, bs + [w], r)
    {
      UnseenSnoc(bs, w, s.peers[p].blocks);
      NoBlockAsked(s, State(), p, bs, w);
      if w in peerWants[p].blocks { return blocks; }
      AskingCounts(s, State(), p, PW.Set(blocks), {}, w);
      FreshSnoc(blocks, w, PW.Wanted(s));
      FreshSnoc(blocks, w, PW.Blocks(s));
      SetSnoc(blocks, w);
      PW.UnseenSet(bs, s.peers[p].blocks);
      AskOneBlock(p, w, s, PW.Set(blocks));
      r := blocks + [w];
    }

    method AskOneBlock(p: Peer, w: Want, ghost s: PW.State, ghost blocks: set<Want>)
      requires p in s.peers && Asking(s, State(), p, blocks, {})
      modifies this
      ensures Asking(s, State(), p, blocks + {w}, {})
      ensures wantGauge ==
              old(wantGauge) + if BlockPeers(old(State()), w) + HavePeers(old(State()), w) != {} ||
                                  w in old(broadcastWants) then 0 else 1
      ensures wantBlockGauge == old(wantBlockGauge) + if BlockPeers(old(State()), w) != {} then 0 else 1
    {
      ghost var c := State();
      var block, wanted := Counted(w);
      if !block { wantBlockGauge := wantBlockGauge + 1; }
      if !wanted { wantGauge := wantGauge + 1; }
      var pw := peerWants[p];
      peerWants := peerWants[p := PW.PeerWant(pw.blocks + {w}, pw.haves - {w}, pw.calls)];
      ReverseIndexAdd(w, p);
      AskBlock(s, c, State(), p, blocks, w);
    }

    method ReverseIndexAdd(w: Want, p: Peer)
      modifies this`wantPeers
      ensures wantPeers == old(wantPeers)[w := PW.IndexOf(old(State()), w) + {p}]
    {
      if w !in wantPeers {
        wantPeers := wantPeers[w := {}];
      }
      wantPeers := wantPeers[w := wantPeers[w] + {p}];
    }

    /** The loop over the requested want-haves. */
    method AskHaves(p: Peer, hs: seq<Want>, ghost bs: seq<Want>, ghost blocks: seq<Want>, ghost s: PW.State)
      returns (haves: seq<Want>)
      requires PW.Indexed(s) && BlocksAsked(s, State(), p, bs, blocks)
      modifies this
      ensures HavesAsked(s, State(), p, bs, blocks, hs, haves)
    {
      haves := [];
      assert PW.Set(haves) == {};
      for i := 0 to |hs|
        invariant HavesAsked(s, State(), p, bs, blocks, hs[..i], haves)
      {
        assert hs[..i + 1] == hs[..i] + [hs[i]];
        haves := TryHave(p, hs[i], haves, s, bs, blocks, hs[..i]);
      }
      assert hs[..|hs|] == hs;
    }

    method TryHave(p: Peer, w: Want, haves: seq<Want>, ghost s: PW.State, ghost bs: seq<Want>,
                   ghost blocks: seq<Want>, ghost hs: seq<Want>)
      returns (r: seq<Want>)
      requires PW.Indexed(s) && HavesAsked(s, State(), p, bs, blocks, hs, haves)
      modifies this
      ensures HavesAsked(s, State(), p, bs, blocks, hs + [w], r)
    {
      UnseenSnoc(hs, w, s.bcst + PW.Targeted(s.peers[p]) + PW.Set(bs));
      NotAsked(s, State(), p, bs, hs, w);
      if w in broadcastWants || w in peerWants[p].blocks || w in peerWants[p].haves { return haves; }
      AskingCounts(s, State(), p, PW.Set(blocks), PW.Set(haves), w);
      FreshSnoc(haves, w, PW.Wanted(s));
      SetSnoc(haves, w);
      AskOneHave(p, w, s, PW.Set(blocks), PW.Set(haves));
      r := haves + [w];
    }

    method AskOneHave(p: Peer, w: Want, ghost s: PW.State, ghost blocks: set<Want>, ghost haves: set<Want>)
      requires p in s.peers && Asking(s, State(), p, blocks, haves)
      modifies this
      ensures Asking(s, State(), p, blocks, haves + {w})
      ensures wantGauge ==
              old(wantGauge) + if BlockPeers(old(State()), w) + HavePeers(old(State()), w) != {} ||
                                  w in old(broadcastWants) then 0 else 1
      ensures wantBlockGauge == old(wantBlockGauge)
    {
      ghost var c := State();
      var block, wanted := Counted(w);
      if !wanted { wantGauge := wantGauge + 1; }
      var pw := peerWants[p];
      peerWants := peerWants[p := PW.PeerWant(pw.blocks, pw.haves + {w}, pw.calls)];
      ReverseIndexAdd(w, p);
      AskHave(s, c, State(), p, blocks, haves, w);
    }

    method BroadcastWantHaves(ws: seq<Want>)
      modifies this
      ensures State() == PW.BroadcastWantHaves(old(State()), ws)
    {
      ghost var s := State();
      var unsent := Collect(ws);
      CollectedAll(s, State(), ws, unsent);
      if unsent == [] {
        NothingToTell(s.peers);
      } else {
        Tell(unsent);
      }
    }

    /** Which keys are new broadcast wants. */
    method Collect(ws: seq<Want>) returns (unsent: seq<Want>)
      modifies this
      ensures Collected(old(State()), State(), ws, unsent)
    {
      ghost var s := State();
      unsent := [];
      assert s.bcst + PW.Set([]) == s.bcst;
      for i := 0 to |ws|
        invariant Collected(s, State(), ws[..i], unsent)
      {
        assert ws[..i + 1] == ws[..i] + [ws[i]];
        unsent := TryBroadcast(ws[i], unsent, s, ws[..i]);
      }
      assert ws[..|ws|] == ws;
    }

    method TryBroadcast(w: Want, unsent: seq<Want>, ghost s: PW.State, ghost ws: seq<Want>) returns (r: seq<Want>)
      requires Collected(s, State(), ws, unsent)
      modifies this
      ensures Collected(s, State(), ws + [w], r)
    {
      SetSnoc(ws, w);
      UnseenSnoc(ws, w, s.bcst);
      FreshSnoc(unsent, w, s.index.Keys);
      assert s.bcst + PW.Set(ws + [w]) == broadcastWants + {w};
      r := unsent;
      if w in broadcastWants {
        assert broadcastWants + {w} == broadcastWants;
      } else {
        broadcastWants := broadcastWants + {w};
        r := r + [w];
        if w !in wantPeers {
          wantGauge := wantGauge + 1;
        }
      }
    }

    /** The loop over the peers of a broadcast. */
    method Tell(unsent: seq<Want>)
      modifies this`peerWants
      ensures peerWants == map p | p in old(peerWants) :: PW.Broadcast(old(peerWants)[p], unsent)
    {
      ghost var was := peerWants;
      var todo := peerWants.Keys;
      while todo != {}
        invariant todo <= was.Keys && Telling(was, peerWants, unsent, todo)
        decreases todo
      {
        var p :| p in todo;
        todo := todo - {p};
        var pw := peerWants[p];
        var ws := PeerUnsent(pw, unsent);
        if ws != [] {
          peerWants := peerWants[p := pw.(calls := pw.calls + [PW.AddBroadcastWantHaves(ws)])];
        }
      }
    }

    /** Sends the cancels to the given peers. */
    method CancelAt(ps: set<Peer>, ks: seq<Want>, broadcastCancels: seq<Want>, ghost s: PW.State)
      requires s == State() && broadcastCancels == PW.Only(ks, s.bcst)
      modifies this`peerWants
      ensures Cancelling(s, peerWants, ks, s.peers.Keys - ps)
    {
      var todo := ps;
      while todo != {}
        invariant todo <= ps && Cancelling(s, peerWants, ks, s.peers.Keys - ps + todo)
        decreases todo
      {
        var p :| p in todo;
        todo := todo - {p};
        if p in peerWants {
          var pw := CancelFor(peerWants[p], ks, broadcastWants, broadcastCancels, s);
          peerWants := peerWants[p := pw];
        }
      }
      assert s.peers.Keys - ps + {} == s.peers.Keys - ps;
    }

    /** The peers that received a want for one of the keys. */
    method CancelPeers(ks: seq<Want>) returns (ps: set<Peer>)
      ensures forall p :: p in ps <==> exists i :: 0 <= i < |ks| && p in PW.IndexOf(State(), ks[i])
    {
      ps := {};
      for i := 0 to |ks|
        invariant forall p :: p in ps <==> exists j :: 0 <= j < i && p in PW.IndexOf(State(), ks[j])
      {
        if ks[i] in wantPeers {
          ps := ps + wantPeers[ks[i]];
        }
      }
    }

    /** Sends a cancel to each peer to which a corresponding want was sent. */
    method SendCancels(ks: seq<Want>)
      requires PW.Valid(State())
      modifies this
      ensures State() == PW.SendCancels(old(State()), ks)
    {
      ghost var s := State();
      var blocks, wanted := CountAll(ks);
      var broadcastCancels := Keep(ks, broadcastWants);
      CancelEverywhere(ks, broadcastCancels);
      Decrement(ks, blocks, wanted);
      Unbroadcast(broadcastCancels);
      Deindex(ks);
      OnlyWithin(ks, PW.Set(ks), PW.Wanted(s));
      OnlyWithin(ks, PW.Set(ks), PW.Blocks(s));
      CancelledIs(s, State(), ks);
    }

    /** Which of the keys have a want-block, and which are wanted. */
    method CountAll(ks: seq<Want>) returns (blocks: set<Want>, wanted: set<Want>)
      requires PW.Indexed(State())
      ensures blocks == PW.Set(ks) * PW.Blocks(State()) && wanted == PW.Set(ks) * PW.Wanted(State())
    {
      blocks, wanted := {}, {};
      for i := 0 to |ks|
        invariant blocks == PW.Set(ks[..i]) * PW.Blocks(State()) && wanted == PW.Set(ks[..i]) * PW.Wanted(State())
      {
        var w := ks[i];
        assert ks[..i + 1] == ks[..i] + [w];
        SetSnoc(ks[..i], w);
        CountsMean(State(), w);
        var block, want := Counted(w);
        if block { blocks := blocks + {w}; }
        if want { wanted := wanted + {w}; }
      }
      assert ks[..|ks|] == ks;
    }

    /** Sends the cancels to all peers if a broadcast want is cancelled, otherwise to those in the
        index. */
    method CancelEverywhere(ks: seq<Want>, broadcastCancels: seq<Want>)
      requires PW.Indexed(State()) && broadcastCancels == PW.Only(ks, broadcastWants)
      modifies this`peerWants
      ensures var s := old(State()); peerWants == map p | p in s.peers :: PW.Cancel(s, s.peers[p], ks)
    {
      ghost var s := State();
      var ps := peerWants.Keys;
      if broadcastCancels == [] {
        ps := CancelPeers(ks);
      }
      CancelAt(ps, ks, broadcastCancels, s);
      CancelledAll(s, peerWants, ks, s.peers.Keys - ps);
    }

    method Decrement(ks: seq<Want>, blocks: set<Want>, wanted: set<Want>)
      modifies this`wantGauge, this`wantBlockGauge
      ensures wantGauge == old(wantGauge) - |PW.Only(ks, wanted)| &&
              wantBlockGauge == old(wantBlockGauge) - |PW.Only(ks, blocks)|
    {
      for i := 0 to |ks|
        invariant wantGauge == old(wantGauge) - |PW.Only(ks[..i], wanted)|
        invariant wantBlockGauge == old(wantBlockGauge) - |PW.Only(ks[..i], blocks)|
      {
        assert ks[..i + 1] == ks[..i] + [ks[i]];
        OnlySnoc(ks[..i], ks[i], wanted);
        OnlySnoc(ks[..i], ks[i], blocks);
        if ks[i] in blocks { wantBlockGauge := wantBlockGauge - 1; }
        if ks[i] in wanted { wantGauge := wantGauge - 1; }
      }
      assert ks[..|ks|] == ks;
    }

    method Unbroadcast(ks: seq<Want>)
      modifies this`broadcastWants
      ensures broadcastWants == old(broadcastWants) - PW.Set(ks)
    {
      assert PW.Set([]) == {};
      for i := 0 to |ks|
        invariant broadcastWants == old(broadcastWants) - PW.Set(ks[..i])
      {
        assert ks[..i + 1] == ks[..i] + [ks[i]];
        SetSnoc(ks[..i], ks[i]);
        broadcastWants := broadcastWants - {ks[i]};
      }
      assert ks[..|ks|] == ks;
    }

    method Deindex(ks: seq<Want>)
      modifies this`wantPeers
      ensures wantPeers == old(wantPeers) - PW.Set(ks)
    {
      ghost var was := wantPeers;
      assert PW.Set([]) == {} && was - {} == was;
      for i := 0 to |ks|
        invariant wantPeers == was - PW.Set(ks[..i])
      {
        assert ks[..i + 1] == ks[..i] + [ks[i]];
        SetSnoc(ks[..i], ks[i]);
        assert was - PW.Set(ks[..i]) - {ks[i]} == was - PW.Set(ks[..i + 1]);
        wantPeers := wantPeers - {ks[i]};
      }
      assert ks[..|ks|] == ks;
    }

    /** Removes a peer and its wants from tracking. */
    method RemovePeer(p: Peer)
      requires PW.Valid(State())
      modifies this
      ensures State() == PW.RemovePeer(old(State()), p)
    {
      if p in peerWants {
        ghost var s, s' := State(), PW.RemovePeer(State(), p);
        var blocks := Elements(peerWants[p].blocks);
        var haves := Elements(peerWants[p].haves);
        RemovedIs(s, s', p, s.peers[p]);
        RemoveWants(p, blocks, haves, s, s');
        RemovedAll(s, s', State(), p, blocks, haves);
        peerWants := peerWants - {p};
      }
    }

    /** The two loops of `removePeer`. */
    method RemoveWants(p: Peer, blocks: seq<Want>, haves: seq<Want>, ghost s: PW.State, ghost s': PW.State)
      requires s == State() && PW.Indexed(s) && p in s.peers && s.peers[p].blocks !! s.peers[p].haves && Gone(s, s', p)
      requires PW.Enumerates(blocks, s.peers[p].blocks) && PW.Enumerates(haves, s.peers[p].haves)
      modifies this
      ensures Removing(s, s', State(), p, blocks, haves)
    {
      StartRemoving(s, s', p);
      for i := 0 to |blocks|
        invariant Removing(s, s', State(), p, blocks[..i], [])
      {
        assert blocks[..i + 1] == blocks[..i] + [blocks[i]];
        assert blocks[i] !in blocks[..i];
        RemoveBlock(p, blocks[i], s, s', blocks[..i]);
      }
      assert blocks[..|blocks|] == blocks;
      for i := 0 to |haves|
        invariant Removing(s, s', State(), p, blocks, haves[..i])
      {
        assert haves[..i + 1] == haves[..i] + [haves[i]];
        assert haves[i] !in haves[..i];
        assert haves[i] in PW.Set(haves);
        RemoveHave(p, haves[i], s, s', blocks, haves[..i]);
      }
      assert haves[..|haves|] == haves;
    }

    method RemoveBlock(p: Peer, w: Want, ghost s: PW.State, ghost s': PW.State, ghost blocks: seq<Want>)
      requires PW.Indexed(s) && p in s.peers && Gone(s, s', p) && w !in blocks
      requires Removing(s, s', State(), p, blocks, [])
      modifies this
      ensures Removing(s, s', State(), p, blocks + [w], [])
    {
      ghost var done := PW.Set(blocks) + PW.Set([]);
      SetSnoc(blocks, w);
      assert PW.Set(blocks + [w]) + PW.Set([]) == done + {w};
      UnindexStep(s, p, done, w);
      FreshSnoc(blocks, w, PW.Wanted(s'));
      FreshSnoc(blocks, w, PW.Blocks(s'));
      ReverseIndexRemove(w, p);
      RemovedCounts(s, s', State(), p, done + {w}, w);
      var block, wanted := Counted(w);
      if !block { wantBlockGauge := wantBlockGauge - 1; }
      if !wanted { wantGauge := wantGauge - 1; }
    }

    method RemoveHave(p: Peer, w: Want, ghost s: PW.State, ghost s': PW.State, ghost blocks: seq<Want>,
                      ghost haves: seq<Want>)
      requires PW.Indexed(s) && p in s.peers && Gone(s, s', p) && w !in blocks && w !in haves
      requires Removing(s, s', State(), p, blocks, haves)
      modifies this
      ensures Removing(s, s', State(), p, blocks, haves + [w])
    {
      ghost var done := PW.Set(blocks) + PW.Set(haves);
      SetSnoc(haves, w);
      assert PW.Set(blocks) + PW.Set(haves + [w]) == done + {w};
      UnindexStep(s, p, done, w);
      FreshSnoc(haves, w, PW.Wanted(s'));
      ReverseIndexRemove(w, p);
      RemovedCounts(s, s', State(), p, done + {w}, w);
      var block, wanted := Counted(w);
      if !wanted { wantGauge := wantGauge - 1; }
    }

    method ReverseIndexRemove(w: Want, p: Peer)
      modifies this`wantPeers
      ensures wantPeers == Unindexed(old(wantPeers), w, p)
    {
      if w in wantPeers {
        wantPeers := wantPeers[w := wantPeers[w] - {p}];
        if wantPeers[w] == {} {
          wantPeers := wantPeers - {w};
        }
      }
    }
  }
}
