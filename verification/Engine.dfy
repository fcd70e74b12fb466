/** The serving side (internal/decision/engine.go): a ledger of wants for each peer, and an index from
    wants to peers that is kept complete but not exact, so that received blocks reach every peer that
    wants them. */
module Engine {
  import opened Basics
  import opened BitswapMessage
  import opened Wantlists
  import TM = TaskMerger
  import RV = RemoteView

  datatype Config = Config(sendDontHaves: bool, maxReplaceSize: int)

  datatype State = State(ledgers: map<Peer, Wantlist>, index: map<Want, set<Peer>>)

  const NEW := State(map[], map[])

  function IndexOf(s: State, w: Want): set<Peer> { if w in s.index then s.index[w] else {} }

  /** The peers whose ledger has the want, found by looking at all of them. */
  function Scan(s: State, w: Want): set<Peer> { set p | p in s.ledgers && w in s.ledgers[p] }

  // ---------------------------------------------------------------------------------------
  // The index
  // ---------------------------------------------------------------------------------------

  function Listing(index: map<Want, set<Peer>>, w: Want): set<Peer> { if w in index then index[w] else {} }

  function IndexAdd(index: map<Want, set<Peer>>, p: Peer, ws: set<Want>): map<Want, set<Peer>> {
    map w | w in index.Keys + ws :: Listing(index, w) + if w in ws then {p} else {}
  }

  /** Entries that become empty are deleted. */
  function IndexRemove(index: map<Want, set<Peer>>, p: Peer, ws: set<Want>): map<Want, set<Peer>> {
    map w | w in index && (w in ws ==> index[w] - {p} != {}) :: if w in ws then index[w] - {p} else index[w]
  }

  lemma IndexAddMeans(index: map<Want, set<Peer>>, p: Peer, ws: set<Want>, w: Want, q: Peer)
    ensures q in Listing(IndexAdd(index, p, ws), w) <==> q in Listing(index, w) || (q == p && w in ws)
  {
  }

  lemma IndexRemoveMeans(index: map<Want, set<Peer>>, p: Peer, ws: set<Want>, w: Want, q: Peer)
    ensures q in Listing(IndexRemove(index, p, ws), w) <==> q in Listing(index, w) && !(q == p && w in ws)
  {
  }

  // ---------------------------------------------------------------------------------------
  // Messages
  // ---------------------------------------------------------------------------------------

  function Ledger(s: State, p: Peer): Wantlist { if p in s.ledgers then s.ledgers[p] else map[] }

  function Wanted(entries: Entries): set<Want> { RV.Wanted(entries) }

  function Cancelled(entries: Entries): set<Want> { RV.Cancelled(entries) }

  /** The ledger after a message: emptied first if the message has a full wantlist; then cancels,
      then wants. */
  function NewLedger(was: Wantlist, entries: Entries, full: bool): Wantlist {
    var left := if full then map[] else was - Cancelled(entries);
    map w | w in left.Keys + Wanted(entries) ::
      if w in Wanted(entries) then Add(left, w, entries[w].priority, entries[w].wantType)[w] else left[w]
  }

  /** `sendAsBlock`. */
  predicate SendAsBlock(config: Config, wantType: int32, size: nat) {
    wantType == BLOCK || size <= config.maxReplaceSize
  }

  /** The task for a want whose block is there. */
  function FoundTask(config: Config, w: Want, priority: int32, wantType: int32, size: nat,
                     sendDontHave: bool): TM.Task {
    var block := SendAsBlock(config, wantType, size);
    TM.Task(w, priority, if block then size else TM.PresenceSize(w), TM.Data(block, sendDontHave, size, true))
  }

  /** The task for a want whose block is not there. */
  function MissingTask(e: Entry): TM.Task {
    TM.Task(e.want, e.priority, TM.PresenceSize(e.want), TM.Data(e.wantType == BLOCK, e.sendDontHave, 0, false))
  }

  /** Every task that the engine makes can be merged. */
  lemma TasksMergeable(config: Config, e: Entry, size: nat, priority: int32, wantType: int32, sendDontHave: bool)
    ensures TM.EngineMade(FoundTask(config, e.want, priority, wantType, size, sendDontHave), e.want, size)
    ensures TM.EngineMade(MissingTask(e), e.want, size)
  {
  }

  /** The tasks that a message makes: for every want whose block is there, and for every other want
      that asks for a DONT_HAVE. */
  function MessageTasks(config: Config, entries: Entries, sizes: map<Want, nat>): set<TM.Task> {
    set w | w in entries && !entries[w].cancel && (w in sizes || (config.sendDontHaves && entries[w].sendDontHave)) ::
      if w in sizes then
        FoundTask(config, w, entries[w].priority, entries[w].wantType, sizes[w], entries[w].sendDontHave)
      else MissingTask(entries[w])
  }

  /** A message whose block sizes cannot be looked up is dropped. */
  function MessageReceived(s: State, p: Peer, entries: Entries, full: bool, sizes: Option<map<Want, nat>>): State {
    if sizes.None? then s
    else State(s.ledgers[p := NewLedger(Ledger(s, p), entries, full)],
               IndexRemove(IndexAdd(s.index, p, Wanted(entries)), p, Cancelled(entries)))
  }

  /** Sent blocks and HAVEs are no longer wanted, except that a HAVE does not serve a want-block. */
  function MessageSent(s: State, p: Peer, blocks: set<Want>, haves: set<Want>): State {
    var left := Ledger(s, p) - blocks;
    s.(ledgers := s.ledgers[p := left - set w | w in left && w in haves && left[w].wantType != BLOCK])
  }

  function PeerConnected(s: State, p: Peer): State { s.(ledgers := s.ledgers[p := Ledger(s, p)]) }

  function PeerDisconnected(s: State, p: Peer): State {
    if p !in s.ledgers then s else State(s.ledgers - {p}, IndexRemove(s.index, p, s.ledgers[p].Keys))
  }

  datatype Block = Block(want: Want, size: nat)

  function Keys(blks: seq<Block>): set<Want> { set b | b in blks :: b.want }

  /** The size of the last block for the key. */
  function SizeOf(blks: seq<Block>, w: Want): nat
    requires w in Keys(blks)
  {
    var n := |blks| - 1;
    if blks[n].want == w then blks[n].size
    else
      assert w in Keys(blks[..n]) by { assert blks == blks[..n] + [blks[n]]; }
      SizeOf(blks[..n], w)
  }

  /** The peer that sent the blocks gets a ledger. */
  function Greet(s: State, from: Peer): State { if from == NO_PEER then s else PeerConnected(s, from) }

  /** Peers that the index has for a received key although they do not want it are taken out. */
  function Pruned(s: State, ks: set<Want>): map<Want, set<Peer>> {
    map w | w in s.index && (w in ks ==> s.index[w] * Scan(s, w) != {}) ::
      if w in ks then s.index[w] * Scan(s, w) else s.index[w]
  }

  function ReceiveFrom(s: State, from: Peer, blks: seq<Block>): State {
    if blks == [] then s
    else
      var s1 := Greet(s, from);
      s1.(index := Pruned(s1, Keys(blks)))
  }

  function Sizes(blks: seq<Block>): map<Want, nat> { map w | w in Keys(blks) :: SizeOf(blks, w) }

  /** The tasks that a block makes for those of the given peers whose ledger has its key. */
  function TasksAt(config: Config, s: State, w: Want, ps: set<Peer>, size: nat): set<(Peer, TM.Task)> {
    set p | p in ps && p in s.ledgers && w in s.ledgers[p] ::
      (p, FoundTask(config, w, s.ledgers[p][w].priority, s.ledgers[p][w].wantType, size, false))
  }

  /** What is queued for the peers that the index names, block by block: a block that is listed twice
      is queued twice. */
  function Queued(config: Config, s: State, sizes: map<Want, nat>, blks: seq<Block>): multiset<(Peer, TM.Task)>
    requires Keys(blks) <= sizes.Keys
  {
    if blks == [] then multiset{}
    else
      var n := |blks| - 1;
      var w := blks[n].want;
      assert Keys(blks[..n]) <= Keys(blks) && blks[n] in blks;
      Queued(config, s, sizes, blks[..n]) + multiset(TasksAt(config, s, w, IndexOf(s, w), sizes[w]))
  }

  function Times(blks: seq<Block>, w: Want): nat {
    if blks == [] then 0 else Times(blks[..|blks| - 1], w) + if blks[|blks| - 1].want == w then 1 else 0
  }

  /** How often a task should be queued for a peer: once for each time its key is listed, if a look
      at every ledger finds that the peer wants the key and the task is the one for it. */
  function Due(config: Config, s: State, sizes: map<Want, nat>, blks: seq<Block>, p: Peer, t: TM.Task): nat {
    if t.topic in sizes && (p, t) in TasksAt(config, s, t.topic, Scan(s, t.topic), sizes[t.topic])
    then Times(blks, t.topic) else 0
  }

  datatype Step =
    | StepReceived(p: Peer, entries: Entries, full: bool, sizes: Option<map<Want, nat>>)
    | StepSent(p: Peer, blocks: set<Want>, haves: set<Want>)
    | StepConnected(p: Peer)
    | StepDisconnected(p: Peer)
    | StepBlocks(from: Peer, blks: seq<Block>)

  function Next(s: State, step: Step): State {
    match step
    case StepReceived(p, entries, full, sizes) => MessageReceived(s, p, entries, full, sizes)
    case StepSent(p, blocks, haves) => MessageSent(s, p, blocks, haves)
    case StepConnected(p) => PeerConnected(s, p)
    case StepDisconnected(p) => PeerDisconnected(s, p)
    case StepBlocks(from, blks) => ReceiveFrom(s, from, blks)
  }

  // ---------------------------------------------------------------------------------------
  // Completeness
  // ---------------------------------------------------------------------------------------

  /** Every want in a ledger has its peer in the index, and no index entry is empty. */
  ghost predicate Complete(s: State) {
    && (forall p, w :: p in Scan(s, w) ==> p in IndexOf(s, w))
    && (forall w :: w in s.index ==> s.index[w] != {})
  }

  lemma ReceivedComplete(s: State, p: Peer, entries: Entries, full: bool, sizes: Option<map<Want, nat>>)
    requires Complete(s)
    ensures Complete(MessageReceived(s, p, entries, full, sizes))
  {
    if sizes.Some? {
      var s' := MessageReceived(s, p, entries, full, sizes);
      var added := IndexAdd(s.index, p, Wanted(entries));
      forall q, w | q in Scan(s', w) ensures q in IndexOf(s', w) {
        IndexAddMeans(s.index, p, Wanted(entries), w, q);
        IndexRemoveMeans(added, p, Cancelled(entries), w, q);
        assert q in Scan(s, w) ==> q in IndexOf(s, w);
      }
    }
  }

  /** Ledgers that lose wants keep the index complete. */
  lemma FewerComplete(s: State, s': State)
    requires Complete(s) && s'.index == s.index
    requires forall p :: p in s'.ledgers ==> s'.ledgers[p].Keys <= Ledger(s, p).Keys
    ensures Complete(s')
  {
    forall p, w | p in Scan(s', w) ensures p in IndexOf(s', w) {
      assert p in Scan(s, w);
    }
  }

  lemma DisconnectedComplete(s: State, p: Peer)
    requires Complete(s)
    ensures Complete(PeerDisconnected(s, p))
  {
    if p in s.ledgers {
      var s' := PeerDisconnected(s, p);
      forall q, w | q in Scan(s', w) ensures q in IndexOf(s', w) {
        assert q in Scan(s, w);
        IndexRemoveMeans(s.index, p, s.ledgers[p].Keys, w, q);
      }
    }
  }

  lemma PrunedComplete(s: State, ks: set<Want>)
    requires Complete(s)
    ensures Complete(s.(index := Pruned(s, ks)))
    ensures forall w :: w in ks ==> IndexOf(s.(index := Pruned(s, ks)), w) == Scan(s, w)
  {
    var s' := s.(index := Pruned(s, ks));
    forall p, w ensures p in IndexOf(s', w) <==> p in IndexOf(s, w) && (w in ks ==> p in Scan(s, w)) {
    }
    forall w ensures Scan(s', w) == Scan(s, w) {
    }
    forall w | w in ks ensures IndexOf(s', w) == Scan(s, w) {
      assert forall p :: p in Scan(s, w) ==> p in IndexOf(s, w);
    }
  }

  lemma NextComplete(s: State, step: Step)
    requires Complete(s)
    ensures Complete(Next(s, step))
  {
    match step
    case StepReceived(p, entries, full, sizes) => ReceivedComplete(s, p, entries, full, sizes);
    case StepSent(p, blocks, haves) => FewerComplete(s, MessageSent(s, p, blocks, haves));
    case StepConnected(p) => FewerComplete(s, PeerConnected(s, p));
    case StepDisconnected(p) => DisconnectedComplete(s, p);
    case StepBlocks(from, blks) =>
      FewerComplete(s, Greet(s, from));
      PrunedComplete(Greet(s, from), Keys(blks));
  }

  function Run(s: State, steps: seq<Step>): State
    decreases |steps|
  {
    if steps == [] then s else Run(Next(s, steps[0]), steps[1..])
  }

  /** In every run the index is complete. */
  lemma {:induction false} RunComplete(s: State, steps: seq<Step>)
    requires Complete(s)
    ensures Complete(Run(s, steps))
    decreases |steps|
  {
    if steps != [] {
      NextComplete(s, steps[0]);
      RunComplete(Next(s, steps[0]), steps[1..]);
    }
  }

  lemma GreetScan(s: State, from: Peer, w: Want)
    ensures Scan(Greet(s, from), w) == Scan(s, w)
  {
  }

  lemma KeysSnoc(blks: seq<Block>)
    requires blks != []
    ensures Keys(blks) == Keys(blks[..|blks| - 1]) + {blks[|blks| - 1].want}
  {
    assert blks == blks[..|blks| - 1] + [blks[|blks| - 1]];
  }

  /** With a complete index every task is queued exactly as often as a look at every ledger says. */
  lemma {:induction false} QueuedDue(config: Config, s: State, sizes: map<Want, nat>, blks: seq<Block>, p: Peer,
                                     t: TM.Task)
    requires Complete(s) && Keys(blks) <= sizes.Keys
    ensures Queued(config, s, sizes, blks)[(p, t)] == Due(config, s, sizes, blks, p, t)
  {
    if blks != [] {
      var n := |blks| - 1;
      var w := blks[n].want;
      KeysSnoc(blks);
      QueuedDue(config, s, sizes, blks[..n], p, t);
      assert (p, t) in TasksAt(config, s, w, IndexOf(s, w), sizes[w]) <==>
             (p, t) in TasksAt(config, s, w, Scan(s, w), sizes[w]);
      assert (p, t) in TasksAt(config, s, w, Scan(s, w), sizes[w]) ==> t.topic == w;
    }
  }

  /** So received blocks are queued, once for each time they are listed, for exactly the peers that a
      scan of all ledgers would find, and the index is exact for the received keys afterwards. */
  lemma BlocksReachEveryone(config: Config, s: State, from: Peer, blks: seq<Block>, p: Peer, t: TM.Task)
    requires Complete(s) && blks != []
    ensures var s1 := Greet(s, from);
            Queued(config, s1, Sizes(blks), blks)[(p, t)] == Due(config, s1, Sizes(blks), blks, p, t)
    ensures forall w :: w in Keys(blks) ==> IndexOf(ReceiveFrom(s, from, blks), w) == Scan(s, w)
  {
    var s1 := Greet(s, from);
    FewerComplete(s, s1);
    PrunedComplete(s1, Keys(blks));
    forall w | w in Keys(blks) ensures IndexOf(ReceiveFrom(s, from, blks), w) == Scan(s, w) {
      GreetScan(s, from, w);
    }
    QueuedDue(config, s1, Sizes(blks), blks, p, t);
  }

  // ---- the ledger of a peer ----

  /** The keys of a peer's ledger after one of its messages: cancels, then wants. */
  lemma LedgerReplays(s: State, p: Peer, entries: Entries, full: bool, sizes: map<Want, nat>)
    ensures var s' := MessageReceived(s, p, entries, full, Some(sizes));
            s'.ledgers[p].Keys == RV.Replay(if full then {} else Ledger(s, p).Keys, entries)
  {
  }

  /** What a peer asks for: its messages replayed since it connected, less what was sent to it. */
  function AskedAfter(asked: set<Want>, step: Step, p: Peer, served: bool): set<Want> {
    match step
    case StepReceived(q, entries, full, sizes) =>
      if q != p || sizes.None? then asked else RV.Replay(if full then {} else asked, entries)
    case StepSent(q, blocks, haves) =>
      if q != p then asked else if served then asked - blocks - haves else asked - blocks
    case StepDisconnected(q) => if q != p then asked else {}
    case _ => asked
  }

  function Asked(asked: set<Want>, steps: seq<Step>, p: Peer, served: bool): set<Want>
    decreases |steps|
  {
    if steps == [] then asked else Asked(AskedAfter(asked, steps[0], p, served), steps[1..], p, served)
  }

  lemma LedgerStep(s: State, step: Step, p: Peer, least: set<Want>, most: set<Want>)
    requires least <= Ledger(s, p).Keys <= most
    ensures AskedAfter(least, step, p, true) <= Ledger(Next(s, step), p).Keys <= AskedAfter(most, step, p, false)
  {
    if step.StepReceived? && step.p == p && step.sizes.Some? {
      LedgerReplays(s, p, step.entries, step.full, step.sizes.value);
    }
  }

  /** In every run the ledger of a peer lies between what its messages add up to if a HAVE serves every
      want and if it serves none. Without HAVEs to the peer it is exactly that. */
  lemma {:induction false} LedgerRun(s: State, steps: seq<Step>, p: Peer, least: set<Want>, most: set<Want>)
    requires least <= Ledger(s, p).Keys <= most
    ensures Asked(least, steps, p, true) <= Ledger(Run(s, steps), p).Keys <= Asked(most, steps, p, false)
    decreases |steps|
  {
    if steps != [] {
      LedgerStep(s, steps[0], p, least, most);
      LedgerRun(Next(s, steps[0]), steps[1..], p, AskedAfter(least, steps[0], p, true),
                AskedAfter(most, steps[0], p, false));
    }
  }

  lemma {:induction false} NoHaves(asked: set<Want>, steps: seq<Step>, p: Peer)
    requires forall i :: 0 <= i < |steps| && steps[i].StepSent? && steps[i].p == p ==> steps[i].haves == {}
    ensures Asked(asked, steps, p, true) == Asked(asked, steps, p, false)
    decreases |steps|
  {
    if steps != [] {
      assert AskedAfter(asked, steps[0], p, true) == AskedAfter(asked, steps[0], p, false);
      NoHaves(AskedAfter(asked, steps[0], p, true), steps[1..], p);
    }
  }

  /** So in a run from the start in which the peer is sent blocks and no HAVEs, its ledger is exactly
      what its messages add up to, less the blocks. */
  lemma LedgerExactly(steps: seq<Step>, p: Peer)
    requires forall i :: 0 <= i < |steps| && steps[i].StepSent? && steps[i].p == p ==> steps[i].haves == {}
    ensures Ledger(Run(NEW, steps), p).Keys == Asked({}, steps, p, false)
  {
    LedgerRun(NEW, steps, p, {}, {});
    NoHaves({}, steps, p);
  }
}
