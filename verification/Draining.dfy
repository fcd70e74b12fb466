/** What repeated extraction does when no new calls arrive: everything pending goes out, and
    messages are cut at the size limit, in priority order. */
module Draining {
  import opened Basics
  import opened BitswapMessage
  import opened Wantlists
  import opened MessageQueue
  import opened RemoteView

  lemma {:induction false} SubsetSmaller<T>(a: set<T>, b: set<T>)
    requires a <= b
    ensures |a| <= |b| && (a != b ==> |a| < |b|)
    decreases |b|
  {
    if a != {} {
      var x :| x in a;
      SubsetSmaller(a - {x}, b - {x});
      assert |b - {x}| == |b| - 1 && |a - {x}| == |a| - 1;
      assert a - {x} == b - {x} ==> a == (a - {x}) + {x} == b;
    } else if b != {} {
      var x :| x in b;
      assert |b - {x}| == |b| - 1;
    }
  }

  lemma RemovingShrinks(wl: Wantlist, ks: set<Want>)
    ensures |wl - ks| <= |wl| && (ks * wl.Keys != {} ==> |wl - ks| < |wl|)
  {
    assert (wl - ks).Keys == wl.Keys - ks;
    SubsetSmaller(wl.Keys - ks, wl.Keys);
    assert |wl| == |wl.Keys| && |wl - ks| == |(wl - ks).Keys|;
    if ks * wl.Keys != {} {
      var w :| w in ks * wl.Keys;
      assert w in wl.Keys && w !in wl.Keys - ks;
    }
  }

  lemma CommitShrinks(q: Queue, d: Draft, x: Extracted)
    requires Drafted(q, d) && Committed(q, d, x)
    ensures Work(x.queue) <= Work(q)
    ensures |d.cancels| + |d.peer| + |d.bcst| > 0 ==> Work(x.queue) < Work(q)
  {
    RemovingShrinks(q.peer.pending, Wants(d.peer));
    RemovingShrinks(q.bcst.pending, Wants(d.bcst));
    SubsetSmaller(q.cancels - Set(d.cancels), q.cancels);
    if d.peer != [] {
      assert d.peer[0] in d.peer && d.peer[0].want in Wants(d.peer) * q.peer.pending.Keys;
    }
    if d.bcst != [] {
      assert d.bcst[0] in d.bcst && d.bcst[0].want in Wants(d.bcst) * q.bcst.pending.Keys;
    }
    if d.cancels != [] {
      assert d.cancels[0] in Set(d.cancels) && d.cancels[0] in q.cancels;
    }
  }

  lemma NoAgendaNoWork(q: Queue, v: Visit)
    requires Visits(q, v) && |v.cancels| + |v.peer| + |v.bcst| == 0
    ensures Work(q) == 0
  {
    assert q.peer.pending.Keys == {} && q.bcst.pending.Keys == {};
  }

  /** Every extraction leaves less work, as long as there is any. */
  lemma WorkShrinks(q: Queue, v: Visit, supportsHave: bool, limits: Limits)
    requires Tidy(q) && Visits(DropHaves(q, supportsHave), v)
    ensures var n := Work(Extract(q, v, supportsHave, limits).queue); n < Work(q) || n == Work(q) == 0
  {
    DropHavesTidy(q, supportsHave);
    var q' := DropHaves(q, supportsHave);
    var d := MakeDraft(q', v, supportsHave, limits);
    DraftAsPending(q', v, supportsHave, limits);
    CommitEffect(q', d);
    AgendaPrefix(q', v, supportsHave, limits);
    CommitShrinks(q', d, Commit(q', d));
    RemovingShrinks(q.peer.pending, Unsupported(q));
    if Work(q') > 0 {
      if |v.cancels| + |v.peer| + |v.bcst| == 0 { NoAgendaNoWork(q', v); }
    }
  }

  /** A cancel for `w` is in the message. */
  predicate CancelSent(entries: Entries, w: Want) { w in entries && entries[w].cancel }

  /** `w` is in the message, as strong a want as `wantType`. */
  predicate WantSent(entries: Entries, w: Want, wantType: int32) {
    w in entries && !entries[w].cancel && (wantType == BLOCK ==> entries[w].wantType == BLOCK)
  }

  /** What was pending is in the message, or still pending. */
  ghost predicate NothingLost(q: Queue, x: Extracted, supportsHave: bool) {
    && (forall w :: w in q.cancels ==> CancelSent(x.entries, w) || w in x.queue.cancels)
    && (forall w :: w in q.peer.pending && (supportsHave || q.peer.pending[w].wantType == BLOCK) ==>
          || WantSent(x.entries, w, q.peer.pending[w].wantType)
          || (w in x.queue.peer.pending && x.queue.peer.pending[w] == q.peer.pending[w]))
    && (forall w :: w in q.bcst.pending ==>
          || WantSent(x.entries, w, if supportsHave then HAVE else BLOCK)
          || w in x.queue.bcst.pending)
  }

  lemma CommitLosesNothing(q: Queue, d: Draft, x: Extracted, supportsHave: bool)
    requires Tidy(q) && Drafted(q, d) && Committed(q, d, x) && Says(d, supportsHave)
    ensures NothingLost(q, x, supportsHave)
  {
    forall w | w in Wants(d.peer) ensures WantSent(x.entries, w, q.peer.pending[w].wantType) {
      var e :| e in d.peer && e.want == w;
    }
    forall w | w in Wants(d.bcst) ensures WantSent(x.entries, w, if supportsHave then HAVE else BLOCK) {
      var e :| e in d.bcst && e.want == w;
    }
  }

  /** The wants that are dropped are those that the peer cannot receive. */
  lemma DropLosesNothing(q: Queue, q': Queue, x: Extracted, supportsHave: bool)
    requires q' == DropHaves(q, supportsHave) && NothingLost(q', x, supportsHave)
    ensures NothingLost(q, x, supportsHave)
  {
    forall w | w in q.peer.pending && (supportsHave || q.peer.pending[w].wantType == BLOCK)
      ensures w in q'.peer.pending && q'.peer.pending[w] == q.peer.pending[w]
    {
    }
  }

  lemma ExtractLosesNothing(q: Queue, v: Visit, supportsHave: bool, limits: Limits)
    requires Tidy(q) && Visits(DropHaves(q, supportsHave), v)
    ensures NothingLost(q, Extract(q, v, supportsHave, limits), supportsHave)
  {
    DropHavesTidy(q, supportsHave);
    var q' := DropHaves(q, supportsHave);
    var d := MakeDraft(q', v, supportsHave, limits);
    DraftAsPending(q', v, supportsHave, limits);
    DraftMessage(q', v, supportsHave, limits);
    CommitEffect(q', d);
    CommitLosesNothing(q', d, Commit(q', d), supportsHave);
    DropLosesNothing(q, q', Commit(q', d), supportsHave);
  }

  // ---------------------------------------------------------------------------------------
  // Repeated extraction
  // ---------------------------------------------------------------------------------------

  predicate CanDrain(q: Queue, vs: seq<Visit>, supportsHave: bool, limits: Limits)
    decreases |vs|
  {
    vs == [] || (Visits(DropHaves(q, supportsHave), vs[0])
                 && CanDrain(Extract(q, vs[0], supportsHave, limits).queue, vs[1..], supportsHave, limits))
  }

  /** The queue after a series of extractions. */
  function Drained(q: Queue, vs: seq<Visit>, supportsHave: bool, limits: Limits): Queue
    requires CanDrain(q, vs, supportsHave, limits)
    decreases |vs|
  {
    if vs == [] then q else Drained(Extract(q, vs[0], supportsHave, limits).queue, vs[1..], supportsHave, limits)
  }

  /** The messages of a series of extractions. */
  function Messages(q: Queue, vs: seq<Visit>, supportsHave: bool, limits: Limits): seq<Entries>
    requires CanDrain(q, vs, supportsHave, limits)
    decreases |vs|
  {
    if vs == [] then []
    else
      var x := Extract(q, vs[0], supportsHave, limits);
      [x.entries] + Messages(x.queue, vs[1..], supportsHave, limits)
  }

  /** As many extractions as there is work leave none. */
  lemma {:induction false} WorkRunsOut(q: Queue, vs: seq<Visit>, supportsHave: bool, limits: Limits)
    requires Tidy(q) && CanDrain(q, vs, supportsHave, limits)
    ensures Work(Drained(q, vs, supportsHave, limits)) <= if |vs| <= Work(q) then Work(q) - |vs| else 0
    decreases |vs|
  {
    if vs != [] {
      WorkShrinks(q, vs[0], supportsHave, limits);
      ExtractMoves(q, vs[0], supportsHave, limits);
      WorkRunsOut(Extract(q, vs[0], supportsHave, limits).queue, vs[1..], supportsHave, limits);
    }
  }

  /** Some message cancels `w`; some message wants `w` at least as strongly as `wantType`. */
  predicate SomeCancel(ms: seq<Entries>, w: Want) { exists m :: m in ms && CancelSent(m, w) }

  predicate SomeWant(ms: seq<Entries>, w: Want, wantType: int32) { exists m :: m in ms && WantSent(m, w, wantType) }

  /** Everything that was pending in `q` and is not pending any more has been delivered. */
  ghost predicate Delivered(q: Queue, end: Queue, ms: seq<Entries>, supportsHave: bool) {
    && (forall w :: w in q.cancels ==> SomeCancel(ms, w) || w in end.cancels)
    && (forall w :: w in q.peer.pending && (supportsHave || q.peer.pending[w].wantType == BLOCK) ==>
          || SomeWant(ms, w, q.peer.pending[w].wantType)
          || (w in end.peer.pending && end.peer.pending[w] == q.peer.pending[w]))
    && (forall w :: w in q.bcst.pending ==>
          || SomeWant(ms, w, if supportsHave then HAVE else BLOCK)
          || w in end.bcst.pending)
  }

  lemma DeliveredStep(q: Queue, x: Extracted, end: Queue, ms: seq<Entries>, supportsHave: bool)
    requires NothingLost(q, x, supportsHave) && Delivered(x.queue, end, ms, supportsHave)
    ensures Delivered(q, end, [x.entries] + ms, supportsHave)
  {
    var all := [x.entries] + ms;
    assert x.entries in all && forall m :: m in ms ==> m in all;
    forall w | CancelSent(x.entries, w) || SomeCancel(ms, w) ensures SomeCancel(all, w) {
      if !CancelSent(x.entries, w) {
        var m :| m in ms && CancelSent(m, w);
        assert m in all;
      }
    }
    forall w, t | WantSent(x.entries, w, t) || SomeWant(ms, w, t) ensures SomeWant(all, w, t) {
      if !WantSent(x.entries, w, t) {
        var m :| m in ms && WantSent(m, w, t);
        assert m in all;
      }
    }
  }

  lemma {:induction false} AllDelivered(q: Queue, vs: seq<Visit>, supportsHave: bool, limits: Limits)
    requires Tidy(q) && CanDrain(q, vs, supportsHave, limits)
    ensures Delivered(q, Drained(q, vs, supportsHave, limits), Messages(q, vs, supportsHave, limits), supportsHave)
    decreases |vs|
  {
    if vs != [] {
      var x := Extract(q, vs[0], supportsHave, limits);
      ExtractLosesNothing(q, vs[0], supportsHave, limits);
      ExtractMoves(q, vs[0], supportsHave, limits);
      AllDelivered(x.queue, vs[1..], supportsHave, limits);
      DeliveredStep(q, x, Drained(x.queue, vs[1..], supportsHave, limits),
                    Messages(x.queue, vs[1..], supportsHave, limits), supportsHave);
    }
  }

  /** After `pendingWorkCount` extractions, whatever their order and the size limit, every queued
      cancel has gone out, every want that the peer can receive has gone out in its strongest
      pending type, and nothing is left. */
  lemma DrainDelivers(q: Queue, vs: seq<Visit>, supportsHave: bool, limits: Limits)
    requires Tidy(q) && CanDrain(q, vs, supportsHave, limits) && |vs| >= Work(q)
    ensures Work(Drained(q, vs, supportsHave, limits)) == 0
    ensures var ms := Messages(q, vs, supportsHave, limits);
            && (forall w :: w in q.cancels ==> SomeCancel(ms, w))
            && (forall w :: w in q.peer.pending && (supportsHave || q.peer.pending[w].wantType == BLOCK) ==>
                  SomeWant(ms, w, q.peer.pending[w].wantType))
            && (forall w :: w in q.bcst.pending ==> SomeWant(ms, w, if supportsHave then HAVE else BLOCK))
  {
    WorkRunsOut(q, vs, supportsHave, limits);
    AllDelivered(q, vs, supportsHave, limits);
    NoWorkNoKeys(Drained(q, vs, supportsHave, limits));
  }

  lemma NoWorkNoKeys(q: Queue)
    requires Work(q) == 0
    ensures q.cancels == {} && q.peer.pending == map[] && q.bcst.pending == map[]
  {
  }

  // ---------------------------------------------------------------------------------------
  // Where messages are cut
  // ---------------------------------------------------------------------------------------

  /** The message made of all of `agenda`, whatever its size. */
  function Total(agenda: seq<Entry>, limits: Limits): Load {
    if agenda == [] then NO_LOAD else Loaded(Total(agenda[..|agenda| - 1], limits), agenda[|agenda| - 1], limits)
  }

  lemma TotalStep(agenda: seq<Entry>, k: nat, limits: Limits)
    requires k < |agenda|
    ensures Total(agenda[..k + 1], limits) == Loaded(Total(agenda[..k], limits), agenda[k], limits)
  {
    assert agenda[..k + 1][..k] == agenda[..k];
  }

  lemma FillStep(agenda: seq<Entry>, k: nat, limits: Limits)
    requires k < |agenda|
    ensures var next := Total(agenda[..k + 1], limits);
            Fill(agenda[k..], Total(agenda[..k], limits), limits) ==
            if next.size >= limits.max then next else Fill(agenda[k + 1..], next, limits)
  {
    TotalStep(agenda, k, limits);
    assert agenda[k..][0] == agenda[k] && agenda[k..][1..] == agenda[k + 1..];
  }

  /** The first `n` entries, with the size below the limit before each after the `k`th, and all of
      them unless the limit is reached. */
  ghost predicate CutAt(agenda: seq<Entry>, k: nat, n: nat, limits: Limits) {
    && k <= n <= |agenda|
    && (forall j :: k < j < n ==> Total(agenda[..j], limits).size < limits.max)
    && (n < |agenda| ==> Total(agenda[..n], limits).size >= limits.max)
  }

  lemma {:induction false} FillFrom(agenda: seq<Entry>, k: nat, limits: Limits) returns (n: nat)
    requires k <= |agenda|
    ensures CutAt(agenda, k, n, limits)
    ensures k < |agenda| ==> k < n
    ensures Fill(agenda[k..], Total(agenda[..k], limits), limits) == Total(agenda[..n], limits)
    decreases |agenda| - k
  {
    if k == |agenda| {
      n := k;
    } else {
      FillStep(agenda, k, limits);
      if Total(agenda[..k + 1], limits).size >= limits.max {
        n := k + 1;
      } else {
        n := FillFrom(agenda, k + 1, limits);
      }
    }
  }

  lemma {:induction false} TotalCount(agenda: seq<Entry>, limits: Limits)
    ensures Total(agenda, limits).count == |agenda|
    decreases |agenda|
  {
    if agenda != [] { TotalCount(agenda[..|agenda| - 1], limits); }
  }

  /** A message takes entries as long as its size is below the limit before each of them (the
      first is always taken), and stops short of the end only when the limit is reached. */
  lemma CutExactly(agenda: seq<Entry>, limits: Limits)
    ensures var all := Fill(agenda, NO_LOAD, limits);
            && CutAt(agenda, 0, all.count, limits)
            && (agenda != [] ==> all.count > 0)
            && all == Total(agenda[..all.count], limits)
  {
    var n := FillFrom(agenda, 0, limits);
    assert agenda[0..] == agenda && agenda[..0] == [];
    TotalCount(agenda[..n], limits);
  }

  lemma TotalSize(agenda: seq<Entry>, limits: Limits)
    requires agenda != []
    ensures var last := |agenda| - 1;
            Total(agenda, limits).size <= Total(agenda[..last], limits).size + limits.size(agenda[last])
  {
  }

  lemma {:induction false} Times(k: nat, most: nat, n: nat)
    requires k < n
    ensures (k + 1) * most == k * most + most <= n * most
    decreases n
  {
    if k + 1 < n {
      Times(k, most, n - 1);
      assert n * most == (n - 1) * most + most;
    }
  }

  lemma {:induction false} TotalBound(a: seq<Entry>, b: seq<Entry>, k: nat, limits: Limits, most: nat)
    requires k <= |b| && forall i :: 0 <= i < |b| ==> limits.size(b[i]) <= most
    ensures Total(a + b[..k], limits).size <= Total(a, limits).size + k * most
    decreases k
  {
    if k == 0 {
      assert a + b[..0] == a;
    } else {
      var j := k - 1;
      TotalBound(a, b, j, limits, most);
      var all := a + b[..k];
      assert all[..|all| - 1] == a + b[..j] && all[|all| - 1] == b[j];
      TotalSize(all, limits);
      Times(j, most, k);
    }
  }

  /** If a message is cut inside part `b` of the agenda, whose entries have at most `most` bytes,
      then `b` was too large for what `a` left of the message: the condition under which the code
      sorts `b` by priority. */
  lemma CutImpliesSorted(a: seq<Entry>, b: seq<Entry>, c: seq<Entry>, limits: Limits, most: nat)
    requires forall i :: 0 <= i < |b| ==> limits.size(b[i]) <= most
    requires |a| < Fill(a + b + c, NO_LOAD, limits).count < |a| + |b|
    ensures Total(a, limits).size + |b| * most > limits.max || most == 0
  {
    var agenda := a + b + c;
    CutExactly(agenda, limits);
    var n := Fill(agenda, NO_LOAD, limits).count;
    var k := n - |a|;
    assert agenda[..n] == a + b[..k];
    TotalBound(a, b, k, limits, most);
    Times(k, most, |b|);
  }

  /** The loop gets past `a`. */
  predicate Reached(a: seq<Entry>, limits: Limits) { a == [] || Total(a, limits).size < limits.max }

  /** A part of the agenda is visited by priority if it may not fit behind `before`. */
  predicate SortedIfTight(before: seq<Entry>, es: seq<Listed>, limits: Limits) {
    Reached(before, limits) && Total(before, limits).size + |es| * MAX_ENTRY_SIZE > limits.max ==> Sorted(es)
  }

  /** The orders in which the code visits what it sends. */
  predicate PriorityOrder(q: Queue, v: Visit, limits: Limits)
    requires Visits(q, v)
  {
    var cs, es := CancelEntries(v.cancels), List(q.peer.pending, v.peer);
    && SortedIfTight(cs, es, limits)
    && SortedIfTight(cs + PeerEntries(es), List(q.bcst.pending, v.bcst), limits)
  }

  /** The size limit respected by an entry list. */
  predicate SmallEntries(es: seq<Entry>, limits: Limits) {
    forall k :: 0 <= k < |es| ==> limits.size(es[k]) <= MAX_ENTRY_SIZE
  }

  /** The first `n` entries have at least the priority of each of the others. */
  predicate TakesHighest(es: seq<Listed>, n: int) {
    forall i, j :: 0 <= i < n <= j < |es| ==> es[i].item.priority >= es[j].item.priority
  }

  lemma CutTakesHighest(a: seq<Entry>, b: seq<Entry>, c: seq<Entry>, es: seq<Listed>, limits: Limits)
    requires |es| == |b| && SortedIfTight(a, es, limits) && SmallEntries(a + b + c, limits)
    ensures TakesHighest(es, Fill(a + b + c, NO_LOAD, limits).count - |a|)
  {
    var n := Fill(a + b + c, NO_LOAD, limits).count - |a|;
    if 0 < n < |es| {
      forall k | 0 <= k < |b| ensures limits.size(b[k]) <= MAX_ENTRY_SIZE {
        assert b[k] == (a + b + c)[|a| + k];
      }
      CutImpliesSorted(a, b, c, limits, MAX_ENTRY_SIZE);
      CutExactly(a + b + c, limits);
      assert (a + b + c)[..|a|] == a;
    }
  }

  lemma BothTakeHighest(cs: seq<Entry>, ps: seq<Entry>, bs: seq<Entry>, pl: seq<Listed>, bl: seq<Listed>,
                        limits: Limits)
    requires |pl| == |ps| && |bl| == |bs| && SmallEntries(cs + ps + bs, limits)
    requires SortedIfTight(cs, pl, limits) && SortedIfTight(cs + ps, bl, limits)
    ensures var n := Fill(cs + ps + bs, NO_LOAD, limits).count;
            var nc := Min(n, |cs|);
            var np := Min(n - nc, |ps|);
            TakesHighest(pl, np) && TakesHighest(bl, Min(n - nc - np, |bs|))
  {
    CutTakesHighest(cs, ps, bs, pl, limits);
    assert cs + ps + bs + [] == cs + ps + bs;
    CutTakesHighest(cs + ps, bs, [], bl, limits);
  }

  /** How many entries of each part are in the draft. */
  predicate Lengths(d: Draft, n: nat, nc: nat, np: nat, nb: nat) {
    |d.peer| == Min(n - Min(n, nc), np) && |d.bcst| == Min(n - Min(n, nc) - |d.peer|, nb)
  }

  lemma DraftLengths(q: Queue, v: Visit, supportsHave: bool, limits: Limits)
    requires Visits(q, v)
    ensures Lengths(MakeDraft(q, v, supportsHave, limits), Fill(Agenda(q, v, supportsHave), NO_LOAD, limits).count,
                    |v.cancels|, |v.peer|, |v.bcst|)
  {
  }

  lemma DraftTakesHighest(cs: seq<Entry>, pl: seq<Listed>, bl: seq<Listed>, supportsHave: bool, limits: Limits,
                          d: Draft)
    requires SmallEntries(cs + PeerEntries(pl) + BroadcastEntries(bl, supportsHave), limits)
    requires SortedIfTight(cs, pl, limits) && SortedIfTight(cs + PeerEntries(pl), bl, limits)
    requires Lengths(d, Fill(cs + PeerEntries(pl) + BroadcastEntries(bl, supportsHave), NO_LOAD, limits).count, |cs|,
                     |pl|, |bl|)
    ensures TakesHighest(pl, |d.peer|) && TakesHighest(bl, |d.bcst|)
  {
    BothTakeHighest(cs, PeerEntries(pl), BroadcastEntries(bl, supportsHave), pl, bl, limits);
  }

  /** If no entry is larger than MaxEntrySize, a message leaves out only wants whose priority is at
      most that of every want of the same list that it takes. */
  lemma TruncatedByPriority(q: Queue, v: Visit, supportsHave: bool, limits: Limits)
    requires Visits(q, v) && PriorityOrder(q, v, limits)
    requires SmallEntries(Agenda(q, v, supportsHave), limits)
    ensures var d := MakeDraft(q, v, supportsHave, limits);
            && TakesHighest(List(q.peer.pending, v.peer), |d.peer|)
            && TakesHighest(List(q.bcst.pending, v.bcst), |d.bcst|)
  {
    var d := MakeDraft(q, v, supportsHave, limits);
    DraftLengths(q, v, supportsHave, limits);
    DraftTakesHighest(CancelEntries(v.cancels), List(q.peer.pending, v.peer), List(q.bcst.pending, v.bcst),
                      supportsHave, limits, d);
  }
}
