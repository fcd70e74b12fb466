/** The queue object itself: its methods update the lists in place, in loops over their arguments,
    and are proved against the functions of module MessageQueue. */
module QueueObject {
  import opened Basics
  import opened BitswapMessage
  import opened Wantlists
  import MQ = MessageQueue
  import opened Draining

  // ---------------------------------------------------------------------------------------
  // Cutting a message
  // ---------------------------------------------------------------------------------------

  /** The message is full after at least one entry. */
  predicate Full(es: seq<Entry>, load: MQ.Load, limits: MQ.Limits) {
    es != [] && MQ.Fill(es, load, limits).size >= limits.max
  }

  lemma {:induction false} FillConcat(a: seq<Entry>, b: seq<Entry>, load: MQ.Load, limits: MQ.Limits)
    ensures MQ.Fill(a + b, load, limits) ==
            if Full(a, load, limits) then MQ.Fill(a, load, limits) else MQ.Fill(b, MQ.Fill(a, load, limits), limits)
    decreases |a|
  {
    if a == [] {
      assert a + b == b;
    } else {
      var next := MQ.Loaded(load, a[0], limits);
      assert (a + b)[0] == a[0] && (a + b)[1..] == a[1..] + b;
      if next.size < limits.max {
        FillConcat(a[1..], b, next, limits);
      }
    }
  }

  /** Adds entries one by one and stops when the message is full. */
  method AddUntilFull(es: seq<Entry>, load: MQ.Load, limits: MQ.Limits) returns (r: MQ.Load, full: bool)
    ensures r == MQ.Fill(es, load, limits) && full == Full(es, load, limits)
  {
    r := load;
    var i := 0;
    while i < |es|
      invariant 0 <= i <= |es|
      invariant MQ.Fill(es, load, limits) == MQ.Fill(es[i..], r, limits)
      invariant i > 0 ==> r.size < limits.max
    {
      assert es[i..][0] == es[i] && es[i..][1..] == es[i + 1..];
      r := MQ.Loaded(r, es[i], limits);
      i := i + 1;
      if r.size >= limits.max {
        return r, true;
      }
    }
    full := false;
  }

  lemma PartLength(es: seq<Entry>, load: MQ.Load, limits: MQ.Limits)
    ensures var n := MQ.Fill(es, load, limits).count - load.count;
            0 <= n <= |es| && (!Full(es, load, limits) ==> n == |es|)
  {
    MQ.FillTakesPrefix(es, load, limits);
    if !Full(es, load, limits) { WholeLength(es, load, limits); }
  }

  lemma {:induction false} WholeLength(es: seq<Entry>, load: MQ.Load, limits: MQ.Limits)
    requires !Full(es, load, limits)
    ensures MQ.Fill(es, load, limits).count == load.count + |es|
    decreases |es|
  {
    if es != [] {
      WholeLength(es[1..], MQ.Loaded(load, es[0], limits), limits);
    }
  }

  /** `es` are the entries of the list, in the order of the keys. */
  ghost predicate Listing(wl: Wantlist, ks: seq<Want>, es: seq<Listed>) {
    Lists(ks, wl) && es == List(wl, ks)
  }

  /** Sorts the entries of a list if they may not fit into the message. */
  method SortIfTight(es: seq<Listed>, size: nat, limits: MQ.Limits, ghost before: seq<Entry>) returns (r: seq<Listed>)
    requires size == Total(before, limits).size
    ensures multiset(r) == multiset(es) && SortedIfTight(before, r, limits)
  {
    r := es;
    if size + |es| * MQ.MAX_ENTRY_SIZE > limits.max {
      r := SortEntries(es);
    }
  }

  lemma {:induction false} TotalGrows(es: seq<Entry>, k: nat, limits: MQ.Limits)
    requires k <= |es|
    ensures Total(es[..k], limits).size <= Total(es, limits).size
    decreases |es|
  {
    if k == |es| {
      assert es[..k] == es;
    } else {
      var init := es[..|es| - 1];
      TotalGrows(init, k, limits);
      assert init[..k] == es[..k];
    }
  }

  /** A part that does not fill the message is in it as a whole. */
  lemma FullOrTotal(es: seq<Entry>, limits: MQ.Limits)
    ensures Full(es, MQ.NO_LOAD, limits) <==> !Reached(es, limits)
    ensures Reached(es, limits) ==> MQ.Fill(es, MQ.NO_LOAD, limits) == Total(es, limits)
  {
    CutExactly(es, limits);
    var n := MQ.Fill(es, MQ.NO_LOAD, limits).count;
    TotalGrows(es, n, limits);
    if n == |es| { assert es[..n] == es; }
  }

  /** The message after the three loops, each of which is skipped if the one before filled it. */
  lemma ThreeLoops(cs: seq<Entry>, ps: seq<Entry>, bs: seq<Entry>, limits: MQ.Limits)
    ensures var r1 := MQ.Fill(cs, MQ.NO_LOAD, limits);
            var r2 := MQ.Fill(ps, r1, limits);
            MQ.Fill(cs + ps + bs, MQ.NO_LOAD, limits) ==
            if Full(cs, MQ.NO_LOAD, limits) then r1 else if Full(ps, r1, limits) then r2 else MQ.Fill(bs, r2, limits)
  {
    var r1 := MQ.Fill(cs, MQ.NO_LOAD, limits);
    assert cs + ps + bs == cs + (ps + bs);
    FillConcat(cs, ps + bs, MQ.NO_LOAD, limits);
    FillConcat(ps, bs, r1, limits);
  }

  /** What the second loop is entered with, and the third. */
  lemma TwoLoops(cs: seq<Entry>, ps: seq<Entry>, limits: MQ.Limits)
    ensures var r1 := MQ.Fill(cs, MQ.NO_LOAD, limits);
            && (Reached(cs, limits) <==> !Full(cs, MQ.NO_LOAD, limits))
            && (Reached(cs, limits) ==> Total(cs, limits) == r1)
            && (Reached(cs + ps, limits) ==> Reached(cs, limits))
            && (Reached(cs, limits) ==> (Reached(cs + ps, limits) <==> !Full(ps, r1, limits)))
            && (Reached(cs + ps, limits) ==> Total(cs + ps, limits) == MQ.Fill(ps, r1, limits))
  {
    var r1 := MQ.Fill(cs, MQ.NO_LOAD, limits);
    FullOrTotal(cs, limits);
    FullOrTotal(cs + ps, limits);
    FillConcat(cs, ps, MQ.NO_LOAD, limits);
    if Reached(cs + ps, limits) {
      TotalGrows(cs + ps, |cs|, limits);
      assert (cs + ps)[..|cs|] == cs;
    }
  }

  /** Adds the entries of a list, sorted if they may not fit, until the message is full. */
  method AddList(ghost before: seq<Entry>, es: seq<Listed>, entries: seq<Listed> -> seq<Entry>, load: MQ.Load,
                 limits: MQ.Limits)
    returns (r: seq<Listed>, next: MQ.Load, n: nat, full: bool)
    requires load == Total(before, limits)
    ensures multiset(r) == multiset(es) && SortedIfTight(before, r, limits)
    ensures next == MQ.Fill(entries(r), load, limits) && next.count == load.count + n &&
            full == Full(entries(r), load, limits)
  {
    r := SortIfTight(es, load.size, limits, before);
    PartLength(entries(r), load, limits);
    next, full := AddUntilFull(entries(r), load, limits);
    n := next.count - load.count;
  }

  /** What the three loops leave: the message and the number of entries of each part in it. */
  ghost predicate Looped(cs: seq<Entry>, ps: seq<Entry>, bs: seq<Entry>, limits: MQ.Limits, load: MQ.Load, nc: nat,
                         np: nat, nb: nat) {
    && load == MQ.Fill(cs + ps + bs, MQ.NO_LOAD, limits)
    && nc == MQ.Min(load.count, |cs|)
    && np == MQ.Min(load.count - nc, |ps|)
    && nb == MQ.Min(load.count - nc - np, |bs|)
  }

  /** Each loop is skipped if the one before it filled the message. */
  ghost predicate Chain(cs: seq<Entry>, ps: seq<Entry>, bs: seq<Entry>, limits: MQ.Limits, load: MQ.Load) {
    var r1 := MQ.Fill(cs, MQ.NO_LOAD, limits);
    var r2 := MQ.Fill(ps, r1, limits);
    load == if Full(cs, MQ.NO_LOAD, limits) then r1 else if Full(ps, r1, limits) then r2 else MQ.Fill(bs, r2, limits)
  }

  lemma ChainLooped(cs: seq<Entry>, ps: seq<Entry>, bs: seq<Entry>, limits: MQ.Limits, load: MQ.Load)
    requires Chain(cs, ps, bs, limits, load)
    ensures var n1, n2 := MQ.Fill(cs, MQ.NO_LOAD, limits).count,
                          MQ.Fill(ps, MQ.Fill(cs, MQ.NO_LOAD, limits), limits).count;
            if Full(cs, MQ.NO_LOAD, limits) then Looped(cs, ps, bs, limits, load, n1, 0, 0)
            else if Full(ps, MQ.Fill(cs, MQ.NO_LOAD, limits), limits) then
              n1 <= n2 && Looped(cs, ps, bs, limits, load, n1, n2 - n1, 0)
            else n1 <= n2 <= load.count && Looped(cs, ps, bs, limits, load, n1, n2 - n1, load.count - n2)
  {
    ThreeLoops(cs, ps, bs, limits);
    var r1 := MQ.Fill(cs, MQ.NO_LOAD, limits);
    PartLength(cs, MQ.NO_LOAD, limits);
    PartLength(ps, r1, limits);
    PartLength(bs, MQ.Fill(ps, r1, limits), limits);
  }

  /** The loops over cancels, the wants of the peer and broadcast wants, with the sorting between
      them. */
  method Loops(cs: seq<Entry>, peerEntries: seq<Listed>, bcstEntries: seq<Listed>, supportsHave: bool,
               limits: MQ.Limits)
    returns (load: MQ.Load, nc: nat, np: nat, nb: nat, pl: seq<Listed>, bl: seq<Listed>)
    ensures multiset(pl) == multiset(peerEntries) && multiset(bl) == multiset(bcstEntries)
    ensures SortedIfTight(cs, pl, limits) && SortedIfTight(cs + MQ.PeerEntries(pl), bl, limits)
    ensures Looped(cs, MQ.PeerEntries(pl), MQ.BroadcastEntries(bl, supportsHave), limits, load, nc, np, nb)
  {
    var full;
    pl, bl := peerEntries, bcstEntries;
    load, full := AddUntilFull(cs, MQ.NO_LOAD, limits);
    nc, np, nb := load.count, 0, 0;
    TwoLoops(cs, MQ.PeerEntries(pl), limits);
    if !full {
      pl, load, np, full := AddList(cs, pl, MQ.PeerEntries, load, limits);
      TwoLoops(cs, MQ.PeerEntries(pl), limits);
      if !full {
        var entries := es => MQ.BroadcastEntries(es, supportsHave);
        bl, load, nb, full := AddList(cs + MQ.PeerEntries(pl), bl, entries, load, limits);
      }
    }
    ChainLooped(cs, MQ.PeerEntries(pl), MQ.BroadcastEntries(bl, supportsHave), limits, load);
  }

  function WantsOf(es: seq<Listed>): seq<Want> { seq(|es|, i requires 0 <= i < |es| => es[i].want) }

  lemma SameDraft(q: MQ.Queue, v: MQ.Visit, supportsHave: bool, limits: MQ.Limits, pl: seq<Listed>, bl: seq<Listed>,
                  load: MQ.Load, nc: nat, np: nat, nb: nat)
    requires MQ.Visits(q, v) && pl == List(q.peer.pending, v.peer) && bl == List(q.bcst.pending, v.bcst)
    requires Looped(MQ.CancelEntries(v.cancels), MQ.PeerEntries(pl), MQ.BroadcastEntries(bl, supportsHave), limits,
                    load, nc, np, nb)
    ensures MQ.Draft(load.entries, v.cancels[..nc], pl[..np], bl[..nb]) == MQ.MakeDraft(q, v, supportsHave, limits)
  {
  }

  /** The unlocked part of `extractOutgoingMessage`. */
  method Cut(cancels: seq<Want>, peerEntries: seq<Listed>, bcstEntries: seq<Listed>, supportsHave: bool,
             limits: MQ.Limits,
             ghost q: MQ.Queue, ghost v: MQ.Visit)
    returns (d: MQ.Draft, ghost order: MQ.Visit)
    requires MQ.Visits(q, v) && cancels == v.cancels
    requires Listing(q.peer.pending, v.peer, peerEntries) && Listing(q.bcst.pending, v.bcst, bcstEntries)
    ensures MQ.Visits(q, order) && PriorityOrder(q, order, limits)
    ensures d == MQ.MakeDraft(q, order, supportsHave, limits)
  {
    var load, nc, np, nb, pl, bl := Loops(MQ.CancelEntries(cancels), peerEntries, bcstEntries, supportsHave, limits);
    order := MQ.Visit(cancels, WantsOf(pl), WantsOf(bl));
    Reordered(q.peer.pending, v.peer, peerEntries, pl, WantsOf(pl));
    Reordered(q.bcst.pending, v.bcst, bcstEntries, bl, WantsOf(bl));
    assert MQ.Visits(q, order);
    d := MQ.Draft(load.entries, cancels[..nc], pl[..np], bl[..nb]);
    SameDraft(q, order, supportsHave, limits, pl, bl, load, nc, np, nb);
  }

  function SentHaves(r: MQ.Recall, ks: set<Want>): set<Want> {
    set w | w in r.sent && w in ks && r.sent[w].wantType != BLOCK
  }

  /** A list without the given want-haves. */
  function Without(r: MQ.Recall, ks: set<Want>): MQ.Recall {
    var sent := r.sent - SentHaves(r, ks);
    MQ.Recall(r.pending - ks, sent, r.sentAt - (ks - sent.Keys))
  }

  lemma ForgetStep(r: MQ.Recall, ks: set<Want>, w: Want)
    ensures MQ.Forget(MQ.Forget(r, ks), {w}) == MQ.Forget(r, ks + {w})
  {
    assert r.pending - ks - {w} == r.pending - (ks + {w});
    assert r.sent - ks - {w} == r.sent - (ks + {w});
    assert r.sentAt - ks - {w} == r.sentAt - (ks + {w});
  }

  /** `recallWantlist.RemoveType`. */
  function RemoveHave(r: MQ.Recall, w: Want): MQ.Recall {
    var sent := RemoveType(r.sent, w, HAVE);
    MQ.Recall(RemoveType(r.pending, w, HAVE), sent, if w in sent then r.sentAt else r.sentAt - {w})
  }

  lemma WithoutNone(r: MQ.Recall)
    ensures Without(r, {}) == r
  {
    assert SentHaves(r, {}) == {};
    assert r.sent - {} == r.sent && r.pending - {} == r.pending && r.sentAt - {} == r.sentAt;
  }

  lemma WithoutMore(r: MQ.Recall, w: Want, ks: set<Want>)
    requires w in r.pending && r.pending[w].wantType == HAVE
    ensures Without(RemoveHave(r, w), ks) == Without(r, ks + {w})
  {
    var a, b := Without(RemoveHave(r, w), ks), Without(r, ks + {w});
    assert a.pending == b.pending;
    assert a.sent == b.sent;
    assert a.sentAt == b.sentAt;
  }

  function DropEach(r: MQ.Recall, es: seq<Listed>): MQ.Recall
    decreases |es|
  {
    if es == [] then r
    else DropEach(if es[0].item.wantType == HAVE then RemoveHave(r, es[0].want) else r, es[1..])
  }

  function NotHaves(es: seq<Listed>): seq<Listed> {
    if es == [] then [] else (if es[0].item.wantType == HAVE then [] else [es[0]]) + NotHaves(es[1..])
  }

  /** The loop over the peer's pending entries for a peer without HAVE support: want-haves are
      dropped, the others collected. */
  method FilterHaves(r: MQ.Recall, es: seq<Listed>) returns (left: MQ.Recall, kept: seq<Listed>)
    ensures left == DropEach(r, es) && kept == NotHaves(es)
  {
    left, kept := r, [];
    for i := 0 to |es|
      invariant DropEach(left, es[i..]) == DropEach(r, es)
      invariant kept + NotHaves(es[i..]) == NotHaves(es)
    {
      assert es[i..][0] == es[i] && es[i..][1..] == es[i + 1..];
      if es[i].item.wantType == HAVE {
        left := RemoveHave(left, es[i].want);
      } else {
        kept := kept + [es[i]];
      }
    }
  }

  function HaveWants(es: seq<Listed>): set<Want> { set e | e in es && e.item.wantType == HAVE :: e.want }

  lemma {:induction false} DropsHaves(r: MQ.Recall, es: seq<Listed>)
    requires MQ.AsPending(r.pending, es)
    ensures DropEach(r, es) == Without(r, HaveWants(es))
    decreases |es|
  {
    if es == [] {
      WithoutNone(r);
      assert HaveWants(es) == {};
    } else {
      var e, rest := es[0], es[1..];
      assert es == [e] + rest;
      forall x | x in rest ensures x.want != e.want {
        var i :| 0 <= i < |rest| && rest[i] == x;
        assert es[i + 1] == x;
      }
      if e.item.wantType == HAVE {
        WithoutMore(r, e.want, HaveWants(rest));
        DropsHaves(RemoveHave(r, e.want), rest);
        assert HaveWants(es) == HaveWants(rest) + {e.want};
      } else {
        DropsHaves(r, rest);
        assert HaveWants(es) == HaveWants(rest);
      }
    }
  }

  lemma {:induction false} KeepsOthers(es: seq<Listed>)
    requires Distinct(es)
    ensures Distinct(NotHaves(es)) && forall e :: e in NotHaves(es) <==> e in es && e.item.wantType != HAVE
  {
    if es != [] {
      var e, rest := es[0], es[1..];
      assert es == [e] + rest;
      KeepsOthers(rest);
      forall x | x in rest ensures x.want != e.want {
        var i :| 0 <= i < |rest| && rest[i] == x;
        assert es[i + 1] == x;
      }
    }
  }

  lemma IsListing(wl: Wantlist, es: seq<Listed>)
    requires MQ.AsPending(wl, es) && forall k :: k in wl ==> Listed(k, wl[k]) in es
    ensures Listing(wl, WantsOf(es), es)
  {
    var ks := WantsOf(es);
    forall i | 0 <= i < |es| ensures ks[i] in wl && es[i] == Listed(ks[i], wl[ks[i]]) {
      assert es[i] in es;
    }
    forall k | k in wl ensures k in ks {
      var i :| 0 <= i < |es| && es[i] == Listed(k, wl[k]);
      assert ks[i] == k;
    }
  }

  /** What the loop leaves is the list without its want-haves, and the entries of what is left. */
  lemma Filtered(r: MQ.Recall, es: seq<Listed>, haves: set<Want>)
    requires MQ.AsPending(r.pending, es) && forall k :: k in r.pending ==> Listed(k, r.pending[k]) in es
    requires haves == set w | w in r.pending && r.pending[w].wantType == HAVE
    ensures DropEach(r, es) == Without(r, haves)
    ensures Listing(Without(r, haves).pending, WantsOf(NotHaves(es)), NotHaves(es))
  {
    DropsHaves(r, es);
    assert HaveWants(es) == haves;
    KeepsOthers(es);
    IsListing(Without(r, haves).pending, NotHaves(es));
  }

  lemma ListingMembers(wl: Wantlist, ks: seq<Want>, es: seq<Listed>)
    requires Listing(wl, ks, es)
    ensures MQ.AsPending(wl, es) && forall k :: k in wl ==> Listed(k, wl[k]) in es
  {
    assert es[..|es|] == es;
    MQ.ListAsPending(wl, ks, |es|);
    forall k | k in wl ensures Listed(k, wl[k]) in es {
      var i :| 0 <= i < |ks| && ks[i] == k;
      assert es[i] == Listed(k, wl[k]);
    }
  }

  /** `MarkSent` in a loop over the entries of the message. */
  method MarkSent(r: MQ.Recall, es: seq<Listed>, m: Entries) returns (list: MQ.Recall, entries: Entries)
    ensures MQ.Marked(list, entries) == MQ.MarkAll(r, es, m)
  {
    list, entries := r, m;
    for i := 0 to |es|
      invariant MQ.MarkAll(list, es[i..], entries) == MQ.MarkAll(r, es, m)
    {
      var e := es[i];
      assert es[i..][0] == e && es[i..][1..] == es[i + 1..];
      if Removable(list.pending, e.want, e.item.wantType) {
        list := list.(pending := list.pending - {e.want},
                      sent := Add(list.sent, e.want, e.item.priority, e.item.wantType));
      } else {
        entries := entries - {e.want};
      }
    }
  }

  /** The elements of a set, in some order. */
  method Keys(s: set<Want>) returns (ks: seq<Want>)
    ensures MQ.Set(ks) == s && forall i, j :: 0 <= i < j < |ks| ==> ks[i] != ks[j]
  {
    ks := [];
    var todo := s;
    while todo != {}
      invariant MQ.Set(ks) + todo == s && MQ.Set(ks) !! todo
      invariant forall i, j :: 0 <= i < j < |ks| ==> ks[i] != ks[j]
      decreases todo
    {
      var k :| k in todo;
      assert MQ.Set(ks + [k]) == MQ.Set(ks) + {k};
      ks, todo := ks + [k], todo - {k};
    }
  }

  class MessageQueue {
    var bcst: MQ.Recall
    var peer: MQ.Recall
    var cancels: set<Want>
    var priority: int32
    const limits: MQ.Limits

    function State(): MQ.Queue
      reads this
    {
      MQ.Queue(bcst, peer, cancels, priority)
    }

    constructor (limits: MQ.Limits)
      ensures State() == MQ.NEW && this.limits == limits
    {
      bcst, peer, cancels, priority := MQ.NO_RECALL, MQ.NO_RECALL, {}, MQ.MAX_PRIORITY;
      this.limits := limits;
    }

    method AddBroadcastWantHaves(ws: seq<Want>)
      modifies this
      ensures State() == MQ.AddBroadcastWantHaves(old(State()), ws)
    {
      AddEach(MQ.Broadcast, ws, HAVE);
    }

    /** Want-haves come before want-blocks, and so get the higher priorities. */
    method AddWants(blocks: seq<Want>, haves: seq<Want>)
      modifies this
      ensures State() == MQ.AddWants(old(State()), blocks, haves)
    {
      AddEach(MQ.Peer, haves, HAVE);
      AddEach(MQ.Peer, blocks, BLOCK);
    }

    method AddEach(to: MQ.Target, ws: seq<Want>, wantType: int32)
      modifies this
      ensures State() == MQ.AddAll(old(State()), to, ws, wantType)
    {
      for i := 0 to |ws|
        invariant MQ.AddAll(State(), to, ws[i..], wantType) == MQ.AddAll(old(State()), to, ws, wantType)
      {
        assert ws[i..][0] == ws[i] && ws[i..][1..] == ws[i + 1..];
        if to.Broadcast? {
          bcst := bcst.(pending := Add(bcst.pending, ws[i], priority, wantType));
        } else {
          peer := peer.(pending := Add(peer.pending, ws[i], priority, wantType));
        }
        priority := MQ.Lower(priority);
        cancels := cancels - {ws[i]};
      }
    }

    method AddCancels(ws: seq<Want>)
      modifies this
      ensures State() == MQ.AddCancels(old(State()), ws)
    {
      ghost var q := State();
      for i := 0 to |ws|
        invariant State() == MQ.AddCancels(q, ws[..i])
      {
        var w := ws[i];
        assert ws[..i + 1] == ws[..i] + [w];
        var wasSent := w in bcst.sent || w in peer.sent;
        ForgetStep(q.bcst, MQ.Set(ws[..i]), w);
        ForgetStep(q.peer, MQ.Set(ws[..i]), w);
        assert MQ.Set(ws[..i + 1]) == MQ.Set(ws[..i]) + {w};
        bcst, peer := MQ.Forget(bcst, {w}), MQ.Forget(peer, {w});
        if wasSent {
          cancels := cancels + {w};
        }
      }
      assert ws[..|ws|] == ws;
    }

    method TransferRebroadcastWants() returns (any: bool)
      modifies this
      ensures State() == MQ.TransferRebroadcastWants(old(State()))
      ensures any <==> MQ.SentKeys(old(State())) != {}
    {
      any := bcst.sent != map[] || peer.sent != map[];
      assert bcst.sent != map[] ==> bcst.sent.Keys != {};
      assert peer.sent != map[] ==> peer.sent.Keys != {};
      var b := AbsorbAll(bcst.pending, bcst.sent);
      var p := AbsorbAll(peer.pending, peer.sent);
      if any {
        bcst, peer := bcst.(pending := b), peer.(pending := p);
      }
    }

    method PendingWorkCount() returns (n: nat)
      ensures n == MQ.Work(State())
    {
      n := |bcst.pending| + |peer.pending| + |cancels|;
    }

    /** The first locked section of `extractOutgoingMessage`. */
    method Begin(supportsHave: bool)
      returns (cs: seq<Want>, peerEntries: seq<Listed>, bcstEntries: seq<Listed>, ghost v: MQ.Visit)
      modifies this
      ensures State() == MQ.DropHaves(old(State()), supportsHave)
      ensures MQ.Visits(State(), v) && cs == v.cancels
      ensures Listing(peer.pending, v.peer, peerEntries) && Listing(bcst.pending, v.bcst, bcstEntries)
    {
      ghost var pk, bk;
      peerEntries, pk := Wantlists.Entries(peer.pending);
      bcstEntries, bk := Wantlists.Entries(bcst.pending);
      cs := Keys(cancels);
      if !supportsHave {
        ListingMembers(peer.pending, pk, peerEntries);
        Filtered(peer, peerEntries, MQ.Unsupported(State()));
        peer, peerEntries := FilterHaves(peer, peerEntries);
        pk := WantsOf(peerEntries);
      }
      v := MQ.Visit(cs, pk, bk);
    }

    /** The second: what is still as it was is marked as sent, the rest taken out of the message. */
    method Finish(d: MQ.Draft) returns (entries: Entries)
      requires forall i, j :: 0 <= i < j < |d.cancels| ==> d.cancels[i] != d.cancels[j]
      modifies this
      ensures MQ.Extracted(State(), entries) == MQ.Commit(old(State()), d)
    {
      peer, entries := MarkSent(peer, d.peer, d.entries);
      bcst, entries := MarkSent(bcst, d.bcst, entries);
      ghost var q, es := State(), entries;
      for i := 0 to |d.cancels|
        invariant bcst == q.bcst && peer == q.peer && priority == q.priority
        invariant cancels == q.cancels - MQ.Set(d.cancels[..i])
        invariant entries == es - (MQ.Set(d.cancels[..i]) - q.cancels)
      {
        var w := d.cancels[i];
        assert d.cancels[..i + 1] == d.cancels[..i] + [w];
        assert MQ.Set(d.cancels[..i + 1]) == MQ.Set(d.cancels[..i]) + {w};
        assert w !in MQ.Set(d.cancels[..i]);
        if w !in cancels {
          assert MQ.Set(d.cancels[..i + 1]) - q.cancels == (MQ.Set(d.cancels[..i]) - q.cancels) + {w};
          entries := entries - {w};
        } else {
          assert MQ.Set(d.cancels[..i + 1]) - q.cancels == MQ.Set(d.cancels[..i]) - q.cancels;
          cancels := cancels - {w};
        }
      }
      assert d.cancels[..|d.cancels|] == d.cancels;
    }

    /** Convert the lists of wants into a message, with no other call between the sections. */
    method ExtractOutgoingMessage(supportsHave: bool) returns (entries: Entries, ghost v: MQ.Visit)
      modifies this
      ensures var q := MQ.DropHaves(old(State()), supportsHave);
              MQ.Visits(q, v) && PriorityOrder(q, v, limits)
      ensures MQ.Extracted(State(), entries) == MQ.Extract(old(State()), v, supportsHave, limits)
    {
      var cs, peerEntries, bcstEntries, order := Begin(supportsHave);
      var d;
      d, v := Cut(cs, peerEntries, bcstEntries, supportsHave, limits, State(), order);
      entries := Finish(d);
    }
  }
}
