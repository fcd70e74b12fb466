/** The engine and index objects, proved against the functions of module Engine. */
module EngineObject {
  import opened Basics
  import opened BitswapMessage
  import opened Wantlists
  import E = Engine
  import TM = TaskMerger
  import RV = RemoteView

  // ---------------------------------------------------------------------------------------
  // Entries in a list
  // ---------------------------------------------------------------------------------------

  /** The entries of a message, by key; the keys differ. */
  function AsMap(es: seq<Entry>): Entries {
    if es == [] then map[] else AsMap(es[..|es| - 1])[es[|es| - 1].want := es[|es| - 1]]
  }

  predicate OnePerKey(es: seq<Entry>) { forall i, j :: 0 <= i < j < |es| ==> es[i].want != es[j].want }

  function KeysIn(es: seq<Entry>): set<Want> { set e | e in es :: e.want }

  lemma KeysSnoc(es: seq<Entry>, e: Entry)
    ensures KeysIn(es + [e]) == KeysIn(es) + {e.want}
  {
  }

  lemma {:induction false} AsMapMeans(es: seq<Entry>)
    requires OnePerKey(es)
    ensures AsMap(es).Keys == KeysIn(es) && forall e :: e in es ==> e.want in AsMap(es) && AsMap(es)[e.want] == e
  {
    if es != [] {
      var n := |es| - 1;
      AsMapMeans(es[..n]);
      assert es == es[..n] + [es[n]];
      KeysSnoc(es[..n], es[n]);
    }
  }

  function WantsIn(es: seq<Entry>, cancel: bool): seq<Entry> {
    if es == [] then []
    else
      var n := |es| - 1;
      if es[n].cancel == cancel then WantsIn(es[..n], cancel) + [es[n]] else WantsIn(es[..n], cancel)
  }

  /** `splitWantsCancels`. */
  method SplitWantsCancels(es: seq<Entry>) returns (wants: seq<Entry>, cancels: seq<Entry>)
    ensures wants == WantsIn(es, false) && cancels == WantsIn(es, true)
  {
    wants, cancels := [], [];
    for i := 0 to |es|
      invariant wants == WantsIn(es[..i], false) && cancels == WantsIn(es[..i], true)
    {
      assert es[..i + 1][..i] == es[..i];
      if es[i].cancel {
        cancels := cancels + [es[i]];
      } else {
        wants := wants + [es[i]];
      }
    }
    assert es[..|es|] == es;
  }

  lemma {:induction false} SplitMeans(es: seq<Entry>, cancel: bool)
    ensures forall e :: e in WantsIn(es, cancel) <==> e in es && e.cancel == cancel
    ensures OnePerKey(es) ==> OnePerKey(WantsIn(es, cancel))
  {
    if es != [] {
      var n := |es| - 1;
      SplitMeans(es[..n], cancel);
      assert es == es[..n] + [es[n]];
      var r := WantsIn(es[..n], cancel);
      assert forall i :: 0 <= i < |r| ==> r[i] in r;
    }
  }

  /** The two parts have the keys that the message wants and cancels. */
  lemma SplitKeys(es: seq<Entry>)
    requires OnePerKey(es)
    ensures KeysIn(WantsIn(es, false)) == E.Wanted(AsMap(es)) && KeysIn(WantsIn(es, true)) == E.Cancelled(AsMap(es))
    ensures OnePerKey(WantsIn(es, false))
    ensures forall e :: e in WantsIn(es, false) ==> e.want in AsMap(es) && AsMap(es)[e.want] == e
  {
    AsMapMeans(es);
    SplitMeans(es, false);
    SplitMeans(es, true);
    forall w ensures w in E.Wanted(AsMap(es)) <==> w in KeysIn(WantsIn(es, false)) {
      if w in E.Wanted(AsMap(es)) {
        var e :| e in es && e.want == w;
        assert e in WantsIn(es, false);
      }
    }
    forall w ensures w in E.Cancelled(AsMap(es)) <==> w in KeysIn(WantsIn(es, true)) {
      if w in E.Cancelled(AsMap(es)) {
        var e :| e in es && e.want == w;
        assert e in WantsIn(es, true);
      }
    }
  }

  // ---------------------------------------------------------------------------------------
  // The index
  // ---------------------------------------------------------------------------------------

  type Index = map<Want, set<Peer>>

  lemma SameIndex(a: Index, b: Index)
    requires a.Keys == b.Keys && forall w :: w in a ==> a[w] == b[w]
    ensures a == b
  {
  }

  lemma AddNone(index: Index, p: Peer)
    ensures E.IndexAdd(index, p, {}) == index
  {
    SameIndex(E.IndexAdd(index, p, {}), index);
  }

  lemma AddOne(index: Index, p: Peer, w: Want)
    ensures E.IndexAdd(index, p, {w}) == index[w := E.Listing(index, w) + {p}]
  {
    SameIndex(E.IndexAdd(index, p, {w}), index[w := E.Listing(index, w) + {p}]);
  }

  lemma AddMore(index: Index, p: Peer, ws: set<Want>, w: Want)
    ensures E.IndexAdd(E.IndexAdd(index, p, ws), p, {w}) == E.IndexAdd(index, p, ws + {w})
  {
    SameIndex(E.IndexAdd(E.IndexAdd(index, p, ws), p, {w}), E.IndexAdd(index, p, ws + {w}));
  }

  lemma RemoveNone(index: Index, p: Peer)
    ensures E.IndexRemove(index, p, {}) == index
  {
    SameIndex(E.IndexRemove(index, p, {}), index);
  }

  lemma RemoveOne(index: Index, p: Peer, w: Want)
    ensures E.IndexRemove(index, p, {w}) ==
            if w !in index then index else if index[w] - {p} == {} then index - {w} else index[w := index[w] - {p}]
  {
    var r := E.IndexRemove(index, p, {w});
    if w !in index {
      SameIndex(r, index);
    } else if index[w] - {p} == {} {
      SameIndex(r, index - {w});
    } else {
      SameIndex(r, index[w := index[w] - {p}]);
    }
  }

  lemma RemoveMore(index: Index, p: Peer, ws: set<Want>, w: Want)
    requires w !in ws
    ensures E.IndexRemove(E.IndexRemove(index, p, ws), p, {w}) == E.IndexRemove(index, p, ws + {w})
  {
    SameIndex(E.IndexRemove(E.IndexRemove(index, p, ws), p, {w}), E.IndexRemove(index, p, ws + {w}));
  }

  class PeerLedger {
    var cids: map<Want, set<Peer>>

    constructor ()
      ensures cids == map[]
    {
      cids := map[];
    }

    method Wants(p: Peer, w: Want)
      modifies this
      ensures cids == E.IndexAdd(old(cids), p, {w})
    {
      AddOne(cids, p, w);
      if w !in cids {
        cids := cids[w := {}];
      }
      cids := cids[w := cids[w] + {p}];
    }

    method CancelWant(p: Peer, w: Want)
      modifies this
      ensures cids == E.IndexRemove(old(cids), p, {w})
    {
      RemoveOne(cids, p, w);
      if w !in cids { return; }
      cids := cids[w := cids[w] - {p}];
      if cids[w] == {} {
        cids := cids - {w};
      }
    }

    method Peers(w: Want) returns (ps: set<Peer>)
      ensures ps == E.Listing(cids, w)
    {
      if w !in cids { return {}; }
      ps := cids[w];
    }

    method WantsAll(p: Peer, es: seq<Entry>)
      modifies this
      ensures cids == E.IndexAdd(old(cids), p, KeysIn(es))
    {
      ghost var was := cids;
      AddNone(was, p);
      for i := 0 to |es|
        invariant cids == E.IndexAdd(was, p, KeysIn(es[..i]))
      {
        assert es[..i + 1] == es[..i] + [es[i]];
        KeysSnoc(es[..i], es[i]);
        AddMore(was, p, KeysIn(es[..i]), es[i].want);
        Wants(p, es[i].want);
      }
      assert es[..|es|] == es;
    }

    method CancelAll(p: Peer, ws: set<Want>)
      modifies this
      ensures cids == E.IndexRemove(old(cids), p, ws)
    {
      ghost var was, done := cids, {};
      RemoveNone(was, p);
      var todo := ws;
      while todo != {}
        invariant done + todo == ws && done !! todo && cids == E.IndexRemove(was, p, done)
        decreases todo
      {
        var w :| w in todo;
        RemoveMore(was, p, done, w);
        CancelWant(p, w);
        todo, done := todo - {w}, done + {w};
      }
      assert done == ws;
    }
  }

  // ---------------------------------------------------------------------------------------
  // Ledgers and tasks
  // ---------------------------------------------------------------------------------------

  /** What the ledger records of an entry. */
  function Record(es: seq<Entry>): (r: seq<Listed>)
    ensures |r| == |es|
  {
    seq(|es|, i requires 0 <= i < |es| => Listed(es[i].want, Item(es[i].priority, es[i].wantType)))
  }

  lemma NewLedgerAt(was: Wantlist, left: Wantlist, es: seq<Entry>, full: bool, w: Want)
    requires OnePerKey(es) && left == if full then map[] else was - E.Cancelled(AsMap(es))
    ensures var l, goal := AddListed(left, Record(WantsIn(es, false))), E.NewLedger(was, AsMap(es), full);
            (w in l <==> w in goal) && (w in l ==> l[w] == goal[w])
  {
    SplitKeys(es);
    var ws := WantsIn(es, false);
    if w in KeysIn(ws) {
      var e :| e in ws && e.want == w;
      var j :| 0 <= j < |ws| && ws[j] == e;
      AddListedAt(left, Record(ws), j);
    } else {
      assert forall j :: 0 <= j < |ws| ==> ws[j] in ws && Record(ws)[j].want == ws[j].want;
      AddListedOther(left, Record(ws), w);
    }
  }

  lemma NewLedgerIs(was: Wantlist, left: Wantlist, es: seq<Entry>, full: bool)
    requires OnePerKey(es) && left == if full then map[] else was - E.Cancelled(AsMap(es))
    ensures AddListed(left, Record(WantsIn(es, false))) == E.NewLedger(was, AsMap(es), full)
  {
    var l, goal := AddListed(left, Record(WantsIn(es, false))), E.NewLedger(was, AsMap(es), full);
    forall w ensures (w in l <==> w in goal) && (w in l ==> l[w] == goal[w]) {
      NewLedgerAt(was, left, es, full, w);
    }
  }

  /** The task for an entry, if there is one. */
  function TasksFor(config: E.Config, e: Entry, sizes: map<Want, nat>): set<TM.Task> {
    if e.want in sizes then {E.FoundTask(config, e.want, e.priority, e.wantType, sizes[e.want], e.sendDontHave)}
    else if config.sendDontHaves && e.sendDontHave then {E.MissingTask(e)}
    else {}
  }

  function TasksOf(config: E.Config, es: seq<Entry>, sizes: map<Want, nat>): set<TM.Task> {
    set e, t | e in es && t in TasksFor(config, e, sizes) :: t
  }

  lemma TasksSnoc(config: E.Config, es: seq<Entry>, e: Entry, sizes: map<Want, nat>)
    ensures TasksOf(config, es + [e], sizes) == TasksOf(config, es, sizes) + TasksFor(config, e, sizes)
  {
    forall t ensures t in TasksOf(config, es + [e], sizes) <==>
      t in TasksOf(config, es, sizes) + TasksFor(config, e, sizes) {
      if x :| x in es && t in TasksFor(config, x, sizes) { assert x in es + [e]; }
      if t in TasksFor(config, e, sizes) { assert e in es + [e]; }
    }
  }

  lemma MessageTasksIs(config: E.Config, es: seq<Entry>, sizes: map<Want, nat>)
    requires OnePerKey(es)
    ensures TasksOf(config, WantsIn(es, false), sizes) == E.MessageTasks(config, AsMap(es), sizes)
  {
    AsMapMeans(es);
    SplitMeans(es, false);
    var m, ws := AsMap(es), WantsIn(es, false);
    forall t ensures t in TasksOf(config, ws, sizes) <==> t in E.MessageTasks(config, m, sizes) {
      if e :| e in ws && t in TasksFor(config, e, sizes) {
        assert e.want in m && m[e.want] == e;
      }
      if w :| w in m && !m[w].cancel && (w in sizes || (config.sendDontHaves && m[w].sendDontHave)) &&
              t == if w in sizes
                   then E.FoundTask(config, w, m[w].priority, m[w].wantType, sizes[w], m[w].sendDontHave)
                   else E.MissingTask(m[w]) {
        assert exists e :: e in es && e.want == w;
        var e :| e in es && e.want == w;
        assert e in ws && t in TasksFor(config, e, sizes);
      }
    }
  }

  // ---- received blocks ----

  function BlockKeys(blks: seq<E.Block>): set<Want> { E.Keys(blks) }

  lemma KeysOfBlocks(blks: seq<E.Block>, b: E.Block)
    ensures BlockKeys(blks + [b]) == BlockKeys(blks) + {b.want}
  {
  }

  /** The size of each block; of two for the same key, the last. */
  method BlockSizes(blks: seq<E.Block>) returns (sizes: map<Want, nat>)
    ensures sizes.Keys == BlockKeys(blks) && forall w :: w in sizes ==> sizes[w] == E.SizeOf(blks, w)
  {
    sizes := map[];
    for i := 0 to |blks|
      invariant sizes.Keys == BlockKeys(blks[..i]) && forall w :: w in sizes ==> sizes[w] == E.SizeOf(blks[..i], w)
    {
      assert blks[..i + 1] == blks[..i] + [blks[i]] && blks[..i + 1][..i] == blks[..i];
      KeysOfBlocks(blks[..i], blks[i]);
      sizes := sizes[blks[i].want := blks[i].size];
    }
    assert blks[..|blks|] == blks;
  }

  /** Whether the index is right about a peer and a key. */
  predicate Right(s: E.State, p: Peer, w: Want) { p in s.ledgers && w in s.ledgers[p] }

  function MissingFor(s: E.State, ws: set<Want>): set<(Peer, Want)> {
    set w, p | w in ws && p in E.IndexOf(s, w) && !Right(s, p, w) :: (p, w)
  }

  lemma MissingMore(s: E.State, ws: set<Want>, w: Want)
    ensures MissingFor(s, ws + {w}) == MissingFor(s, ws) + MissingAt(s, w, E.IndexOf(s, w))
  {
  }

  /** The index without some pairs. */
  function Without(index: Index, pairs: set<(Peer, Want)>): Index {
    map w | w in index && (Named(pairs, w) == {} || index[w] - Named(pairs, w) != {}) :: index[w] - Named(pairs, w)
  }

  function Named(pairs: set<(Peer, Want)>, w: Want): set<Peer> { set x | x in pairs && x.1 == w :: x.0 }

  lemma NamedMore(pairs: set<(Peer, Want)>, p: Peer, w: Want, v: Want)
    ensures Named(pairs + {(p, w)}, v) == Named(pairs, v) + if v == w then {p} else {}
  {
    var more := pairs + {(p, w)};
    forall q ensures q in Named(more, v) <==> q in Named(pairs, v) + if v == w then {p} else {} {
      if q in Named(pairs, v) { assert (q, v) in more; }
      if v == w && q == p { assert (p, w) in more; }
    }
  }

  lemma WithoutMore(index: Index, pairs: set<(Peer, Want)>, p: Peer, w: Want)
    ensures E.IndexRemove(Without(index, pairs), p, {w}) == Without(index, pairs + {(p, w)})
  {
    var a, b := E.IndexRemove(Without(index, pairs), p, {w}), Without(index, pairs + {(p, w)});
    forall v ensures Named(pairs + {(p, w)}, v) == Named(pairs, v) + if v == w then {p} else {} {
      NamedMore(pairs, p, w, v);
    }
    forall v | v in index ensures v in a <==> v in b {
      assert index[v] - Named(pairs, v) - {p} == index[v] - (Named(pairs, v) + {p});
    }
    SameIndex(a, b);
  }

  lemma WithoutNothing(index: Index)
    ensures Without(index, {}) == index
  {
    forall w | w in index ensures index[w] - Named({}, w) == index[w] {
      assert Named({}, w) == {};
    }
    SameIndex(Without(index, {}), index);
  }

  lemma NamedMissing(s: E.State, ks: set<Want>, w: Want)
    requires w in s.index
    ensures s.index[w] - Named(MissingFor(s, ks), w) == if w in ks then s.index[w] * E.Scan(s, w) else s.index[w]
  {
    var named := Named(MissingFor(s, ks), w);
    forall p | p in s.index[w] ensures p in named <==> w in ks && !Right(s, p, w) {
      if w in ks && !Right(s, p, w) { assert (p, w) in MissingFor(s, ks); }
    }
  }

  /** Taking out the pairs for which the index is wrong prunes it. */
  lemma WithoutMissing(s: E.State, ks: set<Want>)
    requires E.Complete(s)
    ensures Without(s.index, MissingFor(s, ks)) == E.Pruned(s, ks)
  {
    var a, b := Without(s.index, MissingFor(s, ks)), E.Pruned(s, ks);
    forall w | w in s.index ensures (w in a <==> w in b) && (w in a ==> a[w] == b[w]) {
      NamedMissing(s, ks, w);
      if Named(MissingFor(s, ks), w) == {} { assert s.index[w] - {} == s.index[w] && s.index[w] != {}; }
    }
    SameIndex(a, b);
  }

  // ---------------------------------------------------------------------------------------
  // The engine
  // ---------------------------------------------------------------------------------------

  method RemoveSent(was: Wantlist, blocks: set<Want>, haves: set<Want>) returns (l: Wantlist)
    ensures var left := was - blocks; l == left - set w | w in left && w in haves && left[w].wantType != BLOCK
  {
    l := was;
    var todo := blocks;
    while todo != {}
      invariant todo <= blocks && l == was - (blocks - todo)
      decreases todo
    {
      var w :| w in todo;
      todo := todo - {w};
      l := RemoveType(l, w, BLOCK);
    }
    ghost var left := l;
    assert left == was - blocks;
    todo := haves;
    while todo != {}
      invariant todo <= haves
      invariant l == left - set w | w in left && w in haves - todo && left[w].wantType != BLOCK
      decreases todo
    {
      var w :| w in todo;
      todo := todo - {w};
      l := RemoveType(l, w, HAVE);
    }
  }

  /** The peers among the given ones that do not want the block. */
  function MissingAt(s: E.State, w: Want, ps: set<Peer>): set<(Peer, Want)> {
    set p | p in ps && !Right(s, p, w) :: (p, w)
  }

  lemma TasksAtMore(config: E.Config, s: E.State, w: Want, ps: set<Peer>, p: Peer, size: nat)
    requires p !in ps
    ensures multiset(E.TasksAt(config, s, w, ps + {p}, size)) ==
            multiset(E.TasksAt(config, s, w, ps, size)) +
            if Right(s, p, w) then multiset{TaskOf(config, s, p, w, size)} else multiset{}
    ensures MissingAt(s, w, ps + {p}) == MissingAt(s, w, ps) + if Right(s, p, w) then {} else {(p, w)}
  {
    var a, b := E.TasksAt(config, s, w, ps, size), E.TasksAt(config, s, w, ps + {p}, size);
    if Right(s, p, w) {
      assert TaskOf(config, s, p, w, size) !in a;
      assert b == a + {TaskOf(config, s, p, w, size)};
    } else {
      assert b == a;
    }
  }

  /** The task that a received block makes for a peer that wants it. */
  function TaskOf(config: E.Config, s: E.State, p: Peer, w: Want, size: nat): (Peer, TM.Task)
    requires Right(s, p, w)
  {
    (p, E.FoundTask(config, w, s.ledgers[p][w].priority, s.ledgers[p][w].wantType, size, false))
  }

  class Engine {
    const config: E.Config
    const peerLedger: PeerLedger
    var ledgerMap: map<Peer, Wantlist>

    function State(): E.State
      reads this, peerLedger
    {
      E.State(ledgerMap, peerLedger.cids)
    }

    constructor (config: E.Config)
      ensures State() == E.NEW && this.config == config && fresh(peerLedger)
    {
      this.config := config;
      peerLedger := new PeerLedger();
      ledgerMap := map[];
    }

    /** The entries of the message go into the index and the ledger, and tasks are made for them. The
        keys in `removed` are taken out of the request queue. */
    method MessageReceived(p: Peer, es: seq<Entry>, full: bool, sizes: Option<map<Want, nat>>)
      returns (pushed: set<TM.Task>, removed: set<Want>)
      requires OnePerKey(es)
      modifies this, peerLedger
      ensures State() == E.MessageReceived(old(State()), p, AsMap(es), full, sizes)
      ensures pushed == if sizes.None? then {} else E.MessageTasks(config, AsMap(es), sizes.value)
      ensures removed == if sizes.None? || full then {} else E.Cancelled(AsMap(es)) * E.Ledger(old(State()), p).Keys
    {
      pushed, removed := {}, {};
      if sizes.None? { return; }
      var wants, cancels := SplitWantsCancels(es);
      SplitKeys(es);
      var keys := set e | e in cancels :: e.want;
      peerLedger.WantsAll(p, wants);
      peerLedger.CancelAll(p, keys);
      ghost var was := E.Ledger(old(State()), p);
      var l := if full then map[] else if p in ledgerMap then ledgerMap[p] else map[];
      removed := keys * l.Keys;
      NewLedgerIs(was, l - keys, es, full);
      l, pushed := AddWants(l - keys, wants, sizes.value);
      MessageTasksIs(config, es, sizes.value);
      ledgerMap := ledgerMap[p := l];
    }

    /** The loop over want-haves and want-blocks. */
    method AddWants(was: Wantlist, wants: seq<Entry>, sizes: map<Want, nat>) returns (l: Wantlist, pushed: set<TM.Task>)
      ensures l == AddListed(was, Record(wants)) && pushed == TasksOf(config, wants, sizes)
    {
      l, pushed := was, {};
      for i := 0 to |wants|
        invariant l == AddListed(was, Record(wants[..i])) && pushed == TasksOf(config, wants[..i], sizes)
      {
        var e := wants[i];
        assert wants[..i + 1] == wants[..i] + [e];
        assert Record(wants[..i + 1])[..i] == Record(wants[..i]);
        TasksSnoc(config, wants[..i], e, sizes);
        l := Add(l, e.want, e.priority, e.wantType);
        if e.want in sizes {
          pushed := pushed + {E.FoundTask(config, e.want, e.priority, e.wantType, sizes[e.want], e.sendDontHave)};
        } else if config.sendDontHaves && e.sendDontHave {
          pushed := pushed + {E.MissingTask(e)};
        }
      }
      assert wants[..|wants|] == wants;
    }

    method PeerConnected(p: Peer)
      modifies this
      ensures State() == E.PeerConnected(old(State()), p)
    {
      if p !in ledgerMap {
        ledgerMap := ledgerMap[p := map[]];
      }
    }

    method PeerDisconnected(p: Peer)
      modifies this, peerLedger
      ensures State() == E.PeerDisconnected(old(State()), p)
    {
      if p in ledgerMap {
        peerLedger.CancelAll(p, ledgerMap[p].Keys);
      }
      ledgerMap := ledgerMap - {p};
    }

    method MessageSent(p: Peer, blocks: set<Want>, haves: set<Want>)
      modifies this
      ensures State() == E.MessageSent(old(State()), p, blocks, haves)
    {
      var l: Wantlist := if p in ledgerMap then ledgerMap[p] else map[];
      l := RemoveSent(l, blocks, haves);
      ledgerMap := ledgerMap[p := l];
    }

    /** Queues tasks for the peers that want one of the received blocks, and removes from the index
        the peers that do not. */
    method ReceiveFrom(from: Peer, blks: seq<E.Block>) returns (queued: seq<(Peer, TM.Task)>)
      requires E.Complete(State())
      modifies this, peerLedger
      ensures State() == E.ReceiveFrom(old(State()), from, blks)
      ensures forall p, t ::
        multiset(queued)[(p, t)] == E.Due(config, E.Greet(old(State()), from), E.Sizes(blks), blks, p, t)
    {
      queued := [];
      if blks == [] { return; }
      ghost var s := State();
      if from != NO_PEER && from !in ledgerMap {
        ledgerMap := ledgerMap[from := map[]];
      }
      assert State() == E.Greet(s, from);
      E.FewerComplete(s, State());
      var sizes := BlockSizes(blks);
      var missing;
      queued, missing := Match(blks, sizes);
      forall p, t ensures multiset(queued)[(p, t)] == E.Due(config, State(), E.Sizes(blks), blks, p, t) {
        E.QueuedDue(config, State(), sizes, blks, p, t);
      }
      WithoutMissing(State(), E.Keys(blks));
      Prune(missing);
    }

    /** The loop over the received blocks and the peers that the index has for them. */
    method Match(blks: seq<E.Block>, sizes: map<Want, nat>)
      returns (queued: seq<(Peer, TM.Task)>, missing: set<(Peer, Want)>)
      requires BlockKeys(blks) <= sizes.Keys
      ensures multiset(queued) == E.Queued(config, State(), sizes, blks) &&
              missing == MissingFor(State(), BlockKeys(blks))
    {
      queued, missing := [], {};
      for i := 0 to |blks|
        invariant BlockKeys(blks[..i]) <= sizes.Keys && multiset(queued) == E.Queued(config, State(), sizes, blks[..i])
        invariant missing == MissingFor(State(), BlockKeys(blks[..i]))
      {
        var w := blks[i].want;
        assert blks[..i + 1] == blks[..i] + [blks[i]] && blks[..i + 1][..i] == blks[..i];
        KeysOfBlocks(blks[..i], blks[i]);
        assert w in BlockKeys(blks) by { assert blks[i] in blks; }
        MissingMore(State(), BlockKeys(blks[..i]), w);
        var q, m := MatchOne(w, sizes[w]);
        queued, missing := queued + q, missing + m;
      }
      assert blks[..|blks|] == blks;
    }

    method MatchOne(w: Want, size: nat) returns (queued: seq<(Peer, TM.Task)>, missing: set<(Peer, Want)>)
      ensures multiset(queued) == multiset(E.TasksAt(config, State(), w, E.IndexOf(State(), w), size))
      ensures missing == MissingAt(State(), w, E.IndexOf(State(), w))
    {
      queued, missing := [], {};
      var todo := peerLedger.Peers(w);
      ghost var done: set<Peer> := {};
      while todo != {}
        invariant done + todo == E.IndexOf(State(), w) && done !! todo
        invariant multiset(queued) == multiset(E.TasksAt(config, State(), w, done, size)) &&
                  missing == MissingAt(State(), w, done)
        decreases todo
      {
        var p :| p in todo;
        TasksAtMore(config, State(), w, done, p, size);
        if p in ledgerMap && w in ledgerMap[p] {
          var entry := ledgerMap[p][w];
          queued := queued + [(p, E.FoundTask(config, w, entry.priority, entry.wantType, size, false))];
        } else {
          missing := missing + {(p, w)};
        }
        todo, done := todo - {p}, done + {p};
      }
      assert done == E.IndexOf(State(), w);
    }

    /** Takes pairs for which the index is wrong out of it. */
    method Prune(missing: set<(Peer, Want)>)
      requires forall x :: x in missing ==> !Right(State(), x.0, x.1)
      modifies peerLedger
      ensures peerLedger.cids == Without(old(peerLedger.cids), missing)
    {
      ghost var was, done: set<(Peer, Want)> := peerLedger.cids, {};
      WithoutNothing(was);
      var todo := missing;
      while todo != {}
        invariant done + todo == missing && done !! todo && peerLedger.cids == Without(was, done)
        decreases todo
      {
        var x :| x in todo;
        WithoutMore(was, done, x.0, x.1);
        if !(x.0 in ledgerMap && x.1 in ledgerMap[x.0]) {
          peerLedger.CancelWant(x.0, x.1);
        }
        assert x == (x.0, x.1);
        todo, done := todo - {x}, done + {x};
      }
      assert done == missing;
    }
  }
}
