/** Merging tasks for the same key in the request queue (internal/decision/taskmerger.go). */
module TaskMerger {
  import opened Basics
  import Codec
  import Hex
  import Marshal

  datatype Data = Data(isWantBlock: bool, sendDontHave: bool, blockSize: nat, haveBlock: bool)

  datatype Task = Task(topic: Want, priority: int32, work: nat, data: Data)

  const PB_HAVE: int32 := 0

  /** `BlockPresenceSize`. */
  function PresenceSize(w: Want): nat { Marshal.PresenceSize(Codec.BlockPresence(w.cid, PB_HAVE, Hex.Decode(w.auth))) }

  /** What the response takes: the block if it is to be sent and there, otherwise a presence. */
  function Work(w: Want, have: bool, block: bool, size: nat): nat { if have && block then size else PresenceSize(w) }

  /** A task as the engine makes it for a block of this size. */
  predicate EngineMade(t: Task, w: Want, size: nat) {
    && t.topic == w && t.data.blockSize == (if t.data.haveBlock then size else 0)
    && t.work == Work(w, t.data.haveBlock, t.data.isWantBlock, size)
  }

  /** `Merge`, one assignment after the other. */
  function Merge(t: Task, e: Task): Task {
    var e1 := if !e.data.haveBlock && t.data.haveBlock
              then e.(data := e.data.(haveBlock := true, blockSize := t.data.blockSize)) else e;
    var e2 := if !e1.data.isWantBlock && t.data.isWantBlock then
                var d := e1.data.(isWantBlock := true);
                if !d.haveBlock || t.data.haveBlock
                then e1.(data := d.(haveBlock := t.data.haveBlock), work := t.work)
                else e1.(data := d)
              else e1;
    if e2.data.isWantBlock && e2.data.haveBlock then e2.(work := e2.data.blockSize) else e2
  }

  function MergeAll(e: Task, ts: seq<Task>): Task {
    if ts == [] then e else Merge(ts[|ts| - 1], MergeAll(e, ts[..|ts| - 1]))
  }

  /** The join of two tasks: the block is there if one says so, and to be sent if one says so. */
  function Joined(e: Task, w: Want, have: bool, block: bool, size: nat): Task {
    Task(w, e.priority, Work(w, have, block, size), Data(block, e.data.sendDontHave, if have then size else 0, have))
  }

  predicate AnyHave(ts: seq<Task>) { exists i :: 0 <= i < |ts| && ts[i].data.haveBlock }

  predicate AnyBlock(ts: seq<Task>) { exists i :: 0 <= i < |ts| && ts[i].data.isWantBlock }

  lemma MergeJoins(t: Task, e: Task, w: Want, size: nat)
    requires EngineMade(t, w, size) && EngineMade(e, w, size)
    ensures Merge(t, e) ==
            Joined(e, w, e.data.haveBlock || t.data.haveBlock, e.data.isWantBlock || t.data.isWantBlock, size)
    ensures EngineMade(Merge(t, e), w, size)
  {
  }

  lemma AnySnoc(ts: seq<Task>)
    requires ts != []
    ensures AnyHave(ts) <==> AnyHave(ts[..|ts| - 1]) || ts[|ts| - 1].data.haveBlock
    ensures AnyBlock(ts) <==> AnyBlock(ts[..|ts| - 1]) || ts[|ts| - 1].data.isWantBlock
  {
    var init := ts[..|ts| - 1];
    if AnyHave(init) {
      var i :| 0 <= i < |init| && init[i].data.haveBlock;
      assert ts[i].data.haveBlock;
    }
    if AnyBlock(init) {
      var i :| 0 <= i < |init| && init[i].data.isWantBlock;
      assert ts[i].data.isWantBlock;
    }
  }

  /** Merging any tasks of the engine for one key gives their join. */
  lemma {:induction false} MergeAllJoins(e: Task, ts: seq<Task>, w: Want, size: nat)
    requires EngineMade(e, w, size) && forall i :: 0 <= i < |ts| ==> EngineMade(ts[i], w, size)
    ensures MergeAll(e, ts) == Joined(e, w, e.data.haveBlock || AnyHave(ts), e.data.isWantBlock || AnyBlock(ts), size)
    ensures EngineMade(MergeAll(e, ts), w, size)
  {
    if ts != [] {
      var init := ts[..|ts| - 1];
      MergeAllJoins(e, init, w, size);
      MergeJoins(ts[|ts| - 1], MergeAll(e, init), w, size);
      AnySnoc(ts);
    }
  }

  lemma SameTasks(ts: seq<Task>, us: seq<Task>)
    requires multiset(ts) == multiset(us)
    ensures forall t :: t in ts <==> t in us
  {
    assert forall t :: t in ts <==> t in multiset(ts);
    assert forall t :: t in us <==> t in multiset(us);
  }

  lemma SameAny(ts: seq<Task>, us: seq<Task>)
    requires forall t :: t in ts ==> t in us
    ensures (AnyHave(ts) ==> AnyHave(us)) && (AnyBlock(ts) ==> AnyBlock(us))
  {
    if AnyHave(ts) {
      var i :| 0 <= i < |ts| && ts[i].data.haveBlock;
      assert ts[i] in us;
    }
    if AnyBlock(ts) {
      var i :| 0 <= i < |ts| && ts[i].data.isWantBlock;
      assert ts[i] in us;
    }
  }

  /** The order in which tasks are merged does not matter. */
  lemma OrderDoesNotMatter(e: Task, ts: seq<Task>, us: seq<Task>, w: Want, size: nat)
    requires EngineMade(e, w, size) && (forall t :: t in ts ==> EngineMade(t, w, size)) && multiset(ts) == multiset(us)
    ensures MergeAll(e, ts) == MergeAll(e, us)
  {
    SameTasks(ts, us);
    SameAny(ts, us);
    SameAny(us, ts);
    MergeAllJoins(e, ts, w, size);
    MergeAllJoins(e, us, w, size);
  }

  /** Nor does it matter which task was there first, except for what the first one keeps. */
  lemma FirstDoesNotMatter(e: Task, f: Task, ts: seq<Task>, w: Want, size: nat)
    requires EngineMade(e, w, size) && EngineMade(f, w, size) &&
             forall i :: 0 <= i < |ts| ==> EngineMade(ts[i], w, size)
    ensures var a, b := MergeAll(e, [f] + ts), MergeAll(f, [e] + ts);
            a.work == b.work && a.data.haveBlock == b.data.haveBlock && a.data.isWantBlock == b.data.isWantBlock &&
            a.data.blockSize == b.data.blockSize
  {
    var fs, es := [f] + ts, [e] + ts;
    assert forall i :: 0 <= i < |ts| ==> fs[i + 1] == ts[i] && es[i + 1] == ts[i];
    MergeAllJoins(e, fs, w, size);
    MergeAllJoins(f, es, w, size);
    AnyCons(f, ts);
    AnyCons(e, ts);
  }

  lemma AnyCons(t: Task, ts: seq<Task>)
    ensures AnyHave([t] + ts) <==> t.data.haveBlock || AnyHave(ts)
    ensures AnyBlock([t] + ts) <==> t.data.isWantBlock || AnyBlock(ts)
  {
    var all := [t] + ts;
    assert all[0] == t && forall i :: 0 <= i < |ts| ==> all[i + 1] == ts[i];
    if AnyHave(ts) {
      var i :| 0 <= i < |ts| && ts[i].data.haveBlock;
      assert all[i + 1].data.haveBlock;
    }
    if AnyBlock(ts) {
      var i :| 0 <= i < |ts| && ts[i].data.isWantBlock;
      assert all[i + 1].data.isWantBlock;
    }
  }

  /** The task raises the join of the others. */
  predicate Raises(t: Task, ts: seq<Task>) {
    (AnyHave(ts + [t]) && !AnyHave(ts)) || (AnyBlock(ts + [t]) && !AnyBlock(ts))
  }

  /** `HasNewInfo`: whether the task adds anything to the tasks that are there. */
  method HasNewInfo(t: Task, existing: seq<Task>) returns (r: bool)
    ensures r <==> Raises(t, existing)
  {
    var haveSize, isWantBlock := false, false;
    for i := 0 to |existing|
      invariant haveSize <==> exists j :: 0 <= j < i && existing[j].data.haveBlock
      invariant isWantBlock <==> exists j :: 0 <= j < i && existing[j].data.isWantBlock
    {
      if existing[i].data.haveBlock { haveSize := true; }
      if existing[i].data.isWantBlock { isWantBlock := true; }
    }
    var all := existing + [t];
    assert all[..|all| - 1] == existing;
    AnySnoc(all);
    r := (!isWantBlock && t.data.isWantBlock) || (!haveSize && t.data.haveBlock);
  }

  /** Merging a task changes what the queue will answer exactly if the task has new information. */
  lemma NewInfoChanges(t: Task, e: Task, w: Want, size: nat)
    requires EngineMade(t, w, size) && EngineMade(e, w, size)
    ensures Merge(t, e) != e <==> Raises(t, [e])
  {
    MergeJoins(t, e, w, size);
    var all := [e] + [t];
    assert all[..1] == [e] && all[1] == t && [e][0] == e;
    AnySnoc(all);
    AnyCons(e, []);
    assert [e] + [] == [e];
  }

  /** A task in the queue, which `Merge` overwrites. */
  class QueuedTask {
    var task: Task

    constructor (t: Task)
      ensures task == t
    {
      task := t;
    }

    method MergeWith(t: Task)
      modifies this
      ensures task == Merge(t, old(task))
    {
      if !task.data.haveBlock && t.data.haveBlock {
        task := task.(data := task.data.(haveBlock := true, blockSize := t.data.blockSize));
      }
      if !task.data.isWantBlock && t.data.isWantBlock {
        task := task.(data := task.data.(isWantBlock := true));
        if !task.data.haveBlock || t.data.haveBlock {
          task := task.(data := task.data.(haveBlock := t.data.haveBlock), work := t.work);
        }
      }
      if task.data.isWantBlock && task.data.haveBlock {
        task := task.(work := task.data.blockSize);
      }
    }
  }
}
