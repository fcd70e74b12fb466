/** Provider queries shared between sessions
    (internal/providerquerymanager/providerquerymanager.go): one query for each key at a time, whose
    results go to every listener, each through its own channel and its own unbounded buffer. */
module ProviderQuery {
  import opened Basics

  /** The reader at the other end of a listener's channel: it reads until the channel is closed, or
      until its session ends and it waits for its cancellation; `Drained` has seen the close. */
  datatype Mode = Reading | Drained | Cancelling | Done

  /** A listener: the providers it was registered with, those sent to it, those its reader has
      buffered, and those its session has got. */
  datatype Listener = Listener(
    key: Cid,
    open: bool,
    snapshot: seq<Peer>,
    sent: seq<Peer>,
    mode: Mode,
    buffer: seq<Peer>,
    delivered: seq<Peer>)

  datatype Request = Request(providers: seq<Peer>, listeners: set<nat>, query: nat)

  /** `pending` are the queries whose worker has not reported yet that it finished. `panicked` is
      whether a closed channel was closed or sent to. */
  datatype State = State(
    requests: map<Cid, Request>,
    listeners: map<nat, Listener>,
    pending: set<(Cid, nat)>,
    nextQuery: nat,
    panicked: bool)

  const NEW := State(map[], map[], {}, 0, false)

  /** A value sent to a listener is taken by its reader at once. */
  function Take(l: Listener, p: Peer): Listener {
    l.(sent := l.sent + [p], buffer := if l.mode == Reading then l.buffer + [p] else l.buffer)
  }

  /** Sends to some listeners; sending to a closed channel panics. */
  function SendTo(s: State, ls: set<nat>, p: Peer): State {
    s.(listeners := map c | c in s.listeners :: if c in ls then Take(s.listeners[c], p) else s.listeners[c],
       panicked := s.panicked || exists c :: c in ls && c in s.listeners && !s.listeners[c].open)
  }

  /** Closes some channels; closing a closed one panics. */
  function Close(s: State, ls: set<nat>): State {
    s.(listeners := map c | c in s.listeners :: if c in ls then s.listeners[c].(open := false) else s.listeners[c],
       panicked := s.panicked || exists c :: c in ls && c in s.listeners && !s.listeners[c].open)
  }

  // ---- the four messages ----

  /** The first request for a key starts a query. */
  function Requested(s: State, k: Cid): State {
    if k in s.requests then s
    else s.(requests := s.requests[k := Request([], {}, s.nextQuery)], pending := s.pending + {(k, s.nextQuery)},
            nextQuery := s.nextQuery + 1)
  }

  function NewQuery(s: State, k: Cid, c: nat): State {
    var s1 := Requested(s, k);
    var r := s1.requests[k];
    s1.(requests := s1.requests[k := r.(listeners := r.listeners + {c})],
        listeners := s1.listeners[c := Listener(k, true, r.providers, [], Reading, r.providers, [])])
  }

  function Received(s: State, k: Cid, p: Peer): State {
    if k !in s.requests then s
    else
      var r := s.requests[k];
      SendTo(s.(requests := s.requests[k := r.(providers := r.providers + [p])]), r.listeners, p)
  }

  /** The message of a finished query names only the key. */
  function Finished(s: State, k: Cid, query: nat): State {
    var s1 := s.(pending := s.pending - {(k, query)});
    if k !in s.requests then s1 else Close(s1.(requests := s.requests - {k}), s.requests[k].listeners)
  }

  function Cancelled(s: State, k: Cid, c: nat): State {
    if k !in s.requests || c !in s.requests[k].listeners then s
    else
      var r := s.requests[k];
      var left := r.listeners - {c};
      Close(s.(requests := if left == {} then s.requests - {k} else s.requests[k := r.(listeners := left)]), {c})
  }

  // ---- the reader ----

  function Deliver(l: Listener): Listener
    requires l.buffer != []
  {
    l.(buffer := l.buffer[1..], delivered := l.delivered + [l.buffer[0]])
  }

  function SeeClose(l: Listener): Listener {
    l.(mode := if l.mode == Reading then Drained else Done)
  }

  /** The session ends. */
  function GiveUp(l: Listener): Listener {
    l.(mode := if l.mode == Reading then Cancelling else Done)
  }

  datatype Step =
    | StepNew(k: Cid, c: nat)
    | StepReceived(k: Cid, p: Peer)
    | StepFinished(k: Cid, query: nat)
    | StepCancel(k: Cid, c: nat)
    | StepDeliver(c: nat)
    | StepSeeClose(c: nat)
    | StepGiveUp(c: nat)

  predicate Enabled(s: State, step: Step) {
    match step
    case StepNew(k, c) => c !in s.listeners
    case StepReceived(k, p) => true
    case StepFinished(k, query) => (k, query) in s.pending
    case StepCancel(k, c) => c in s.listeners && s.listeners[c].key == k && s.listeners[c].mode == Cancelling
    case StepDeliver(c) =>
      c in s.listeners && s.listeners[c].buffer != [] &&
      (s.listeners[c].mode == Reading || s.listeners[c].mode == Drained)
    case StepSeeClose(c) =>
      c in s.listeners && !s.listeners[c].open &&
      (s.listeners[c].mode == Reading || s.listeners[c].mode == Cancelling)
    case StepGiveUp(c) => c in s.listeners && (s.listeners[c].mode == Reading || s.listeners[c].mode == Drained)
  }

  function WithListener(s: State, c: nat, l: Listener): State { s.(listeners := s.listeners[c := l]) }

  function Next(s: State, step: Step): State
    requires Enabled(s, step)
  {
    match step
    case StepNew(k, c) => NewQuery(s, k, c)
    case StepReceived(k, p) => Received(s, k, p)
    case StepFinished(k, query) => Finished(s, k, query)
    case StepCancel(k, c) => Cancelled(s, k, c)
    case StepDeliver(c) => WithListener(s, c, Deliver(s.listeners[c]))
    case StepSeeClose(c) => WithListener(s, c, SeeClose(s.listeners[c]))
    case StepGiveUp(c) => WithListener(s, c, GiveUp(s.listeners[c]))
  }

  // ---------------------------------------------------------------------------------------
  // What every step keeps
  // ---------------------------------------------------------------------------------------

  /** A listener of a request: its channel is open, and what it was registered with and sent is what
      the request has found. */
  predicate Served(s: State, k: Cid, c: nat)
    requires k in s.requests
  {
    c in s.listeners && s.listeners[c].open && s.listeners[c].key == k &&
    s.listeners[c].snapshot + s.listeners[c].sent == s.requests[k].providers
  }

  /** A reader: an open channel is read, what the session got is a prefix of what there was for it,
      and the rest is in the buffer unless the session has ended. */
  predicate Faithful(l: Listener) {
    && (l.open ==> l.mode == Reading || l.mode == Cancelling)
    && l.delivered <= l.snapshot + l.sent
    && (l.mode == Reading || l.mode == Drained ==> l.delivered + l.buffer == l.snapshot + l.sent)
  }

  predicate Registered(s: State) {
    && (forall k :: k in s.requests ==> s.requests[k].listeners != {})
    && (forall k, c :: k in s.requests && c in s.requests[k].listeners ==> Served(s, k, c))
  }

  predicate OpenListed(s: State, c: nat)
    requires c in s.listeners
  {
    s.listeners[c].open ==> s.listeners[c].key in s.requests && c in s.requests[s.listeners[c].key].listeners
  }

  /** A channel is open exactly while it is in the set of one request, the one for its key. */
  predicate Valid(s: State) {
    && !s.panicked && Registered(s)
    && (forall c :: c in s.listeners ==> OpenListed(s, c) && Faithful(s.listeners[c]))
  }

  lemma TakeFaithful(l: Listener, p: Peer)
    requires Faithful(l) && l.open
    ensures Faithful(Take(l, p)) && Take(l, p).snapshot + Take(l, p).sent == l.snapshot + l.sent + [p]
  {
    var t := Take(l, p);
    assert t.snapshot + t.sent == l.snapshot + l.sent + [p];
    assert l.delivered + (l.buffer + [p]) == l.delivered + l.buffer + [p];
  }

  lemma NewValid(s: State, k: Cid, c: nat)
    requires Valid(s) && c !in s.listeners
    ensures Valid(NewQuery(s, k, c))
  {
    var s' := NewQuery(s, k, c);
    assert s'.requests[k].providers + [] == s'.requests[k].providers;
    assert [] + s'.requests[k].providers == s'.requests[k].providers;
    forall h, d | h in s'.requests && d in s'.requests[h].listeners ensures Served(s', h, d) {
      if d != c { assert Served(s, h, d); }
    }
    forall d | d in s'.listeners ensures OpenListed(s', d) && Faithful(s'.listeners[d]) {
      if d != c { assert OpenListed(s, d) && Faithful(s.listeners[d]); }
    }
  }

  lemma ReceivedValid(s: State, k: Cid, p: Peer)
    requires Valid(s)
    ensures Valid(Received(s, k, p))
  {
    if k in s.requests {
      var s', ls := Received(s, k, p), s.requests[k].listeners;
      forall d | d in ls ensures d in s.listeners && s.listeners[d].open {
        assert Served(s, k, d);
      }
      forall h, d | h in s'.requests && d in s'.requests[h].listeners ensures Served(s', h, d) {
        assert Served(s, h, d);
        if d in ls { TakeFaithful(s.listeners[d], p); }
      }
      forall d | d in s'.listeners ensures OpenListed(s', d) && Faithful(s'.listeners[d]) {
        assert OpenListed(s, d) && Faithful(s.listeners[d]);
        if d in ls { TakeFaithful(s.listeners[d], p); }
      }
    }
  }

  /** Closing channels that are taken out of their request keeps everything in order. */
  lemma CloseValid(s: State, s': State, k: Cid, ls: set<nat>)
    requires Valid(s) && k in s.requests && ls <= s.requests[k].listeners
    requires s'.listeners == s.listeners && s'.panicked == s.panicked
    requires s'.requests == (if s.requests[k].listeners == ls then s.requests - {k}
                             else s.requests[k := s.requests[k].(listeners := s.requests[k].listeners - ls)])
    ensures Valid(Close(s', ls))
  {
    var t := Close(s', ls);
    assert s.requests[k].listeners == ls + (s.requests[k].listeners - ls);
    forall d | d in ls ensures d in s.listeners && s.listeners[d].open && s.listeners[d].key == k {
      assert Served(s, k, d);
    }
    forall h, d | h in t.requests && d in t.requests[h].listeners ensures Served(t, h, d) {
      assert Served(s, h, d);
    }
    forall d | d in t.listeners ensures OpenListed(t, d) && Faithful(t.listeners[d]) {
      assert OpenListed(s, d) && Faithful(s.listeners[d]);
    }
  }

  lemma FinishedValid(s: State, k: Cid, query: nat)
    requires Valid(s)
    ensures Valid(Finished(s, k, query))
  {
    if k in s.requests {
      var ls := s.requests[k].listeners;
      CloseValid(s, s.(pending := s.pending - {(k, query)}, requests := s.requests - {k}), k, ls);
    } else {
      SameValid(s, Finished(s, k, query));
    }
  }

  lemma SameValid(s: State, s': State)
    requires Valid(s) && s'.requests == s.requests && s'.listeners == s.listeners && s'.panicked == s.panicked
    ensures Valid(s')
  {
    forall h, d | h in s'.requests && d in s'.requests[h].listeners ensures Served(s', h, d) {
      assert Served(s, h, d);
    }
    forall d | d in s'.listeners ensures OpenListed(s', d) {
      assert OpenListed(s, d);
    }
  }

  lemma CancelledValid(s: State, k: Cid, c: nat)
    requires Valid(s)
    ensures Valid(Cancelled(s, k, c))
  {
    if k in s.requests && c in s.requests[k].listeners {
      var r := s.requests[k];
      var left := r.listeners - {c};
      assert left == {} <==> r.listeners == {c};
      CloseValid(s, s.(requests := if left == {} then s.requests - {k} else s.requests[k := r.(listeners := left)]),
                 k, {c});
    }
  }

  lemma ReaderValid(s: State, c: nat, l: Listener)
    requires Valid(s) && c in s.listeners && Faithful(l)
    requires var was := s.listeners[c];
             l.key == was.key && l.open == was.open && l.snapshot == was.snapshot && l.sent == was.sent
    ensures Valid(WithListener(s, c, l))
  {
    var s' := WithListener(s, c, l);
    forall h, d | h in s'.requests && d in s'.requests[h].listeners ensures Served(s', h, d) {
      assert Served(s, h, d);
    }
    forall d | d in s'.listeners ensures OpenListed(s', d) && Faithful(s'.listeners[d]) {
      assert OpenListed(s, d) && Faithful(s.listeners[d]);
    }
  }

  lemma DeliverFaithful(l: Listener)
    requires Faithful(l) && l.buffer != [] && (l.mode == Reading || l.mode == Drained)
    ensures Faithful(Deliver(l))
  {
    assert l.delivered + [l.buffer[0]] + l.buffer[1..] == l.delivered + l.buffer;
  }

  lemma NextValid(s: State, step: Step)
    requires Valid(s) && Enabled(s, step)
    ensures Valid(Next(s, step))
  {
    match step
    case StepNew(k, c) => NewValid(s, k, c);
    case StepReceived(k, p) => ReceivedValid(s, k, p);
    case StepFinished(k, query) => FinishedValid(s, k, query);
    case StepCancel(k, c) => CancelledValid(s, k, c);
    case StepDeliver(c) =>
      DeliverFaithful(s.listeners[c]);
      ReaderValid(s, c, Deliver(s.listeners[c]));
    case StepSeeClose(c) => ReaderValid(s, c, SeeClose(s.listeners[c]));
    case StepGiveUp(c) => ReaderValid(s, c, GiveUp(s.listeners[c]));
  }

  predicate Legal(s: State, steps: seq<Step>)
    decreases |steps|
  {
    steps == [] || (Enabled(s, steps[0]) && Legal(Next(s, steps[0]), steps[1..]))
  }

  function Run(s: State, steps: seq<Step>): State
    requires Legal(s, steps)
    decreases |steps|
  {
    if steps == [] then s else Run(Next(s, steps[0]), steps[1..])
  }

  /** In every run no channel is closed twice or sent to when closed, a channel is open exactly while
      it is in the set of the request for its key, and what its session gets is a prefix of what the
      request had found when it registered and since. */
  lemma {:induction false} RunValid(s: State, steps: seq<Step>)
    requires Valid(s) && Legal(s, steps)
    ensures Valid(Run(s, steps))
    decreases |steps|
  {
    if steps != [] {
      NextValid(s, steps[0]);
      RunValid(Next(s, steps[0]), steps[1..]);
    }
  }

  /** In every run, a session that has read to the end of its channel has got everything that the
      request had found when it registered, and everything that was sent to it since. */
  lemma ReadToTheEnd(steps: seq<Step>, c: nat)
    requires Legal(NEW, steps) && c in Run(NEW, steps).listeners
    requires Run(NEW, steps).listeners[c].mode == Drained && Run(NEW, steps).listeners[c].buffer == []
    ensures var l := Run(NEW, steps).listeners[c]; l.delivered == l.snapshot + l.sent
  {
    RunValid(NEW, steps);
    var l := Run(NEW, steps).listeners[c];
    assert l.delivered + [] == l.delivered;
  }

  // ---------------------------------------------------------------------------------------
  // Late messages
  // ---------------------------------------------------------------------------------------

  /** The query of a request is still running. */
  predicate Running(s: State) {
    && (forall k :: k in s.requests ==> (k, s.requests[k].query) in s.pending)
    && (forall q :: q in s.pending ==> q.1 < s.nextQuery)
  }

  lemma NextRunning(s: State, step: Step)
    requires Running(s) && Enabled(s, step)
    ensures Running(Next(s, step))
  {
  }

  /** A query without a request: nobody will get what it finds, unless somebody asks again. */
  predicate Stray(s: State, k: Cid, query: nat) {
    (k, query) in s.pending && (k in s.requests ==> s.requests[k].query != query)
  }

  /** The message of a finished query ends another query's request, leaving that query a stray one,
      if and only if the request for its key is not the one that started it. */
  lemma LateFinish(s: State, k: Cid, query: nat, other: nat)
    requires Valid(s) && Running(s) && (k, query) in s.pending
    ensures !Stray(s, k, other) && Stray(Finished(s, k, query), k, other) <==>
            k in s.requests && s.requests[k].query == other && other != query
    ensures k !in Finished(s, k, query).requests
    ensures k in s.requests ==> (forall c :: c in s.requests[k].listeners ==>
              c in Finished(s, k, query).listeners && !Finished(s, k, query).listeners[c].open)
  {
    if k in s.requests {
      forall c | c in s.requests[k].listeners ensures c in s.listeners {
        assert Served(s, k, c);
      }
    }
  }

  /** It happens: a key is asked for, given up, and asked for again before the first query is over. */
  lemma LateFinishHappens(k: Cid)
    ensures var steps := [StepNew(k, 0), StepGiveUp(0), StepCancel(k, 0), StepNew(k, 1)];
            && Legal(NEW, steps) && Valid(Run(NEW, steps)) && Running(Run(NEW, steps))
            && (k, 0) in Run(NEW, steps).pending && k in Run(NEW, steps).requests
            && Run(NEW, steps).requests[k].query == 1
  {
    var s1 := Next(NEW, StepNew(k, 0));
    var s2 := Next(s1, StepGiveUp(0));
    var s3 := Next(s2, StepCancel(k, 0));
    assert k !in s3.requests && (k, 0) in s3.pending && s3.nextQuery == 1 && s3.listeners.Keys == {0};
    var s4 := Next(s3, StepNew(k, 1));
    assert Run(s4, []) == s4 && Legal(s4, []);
    assert [StepNew(k, 1)][1..] == [];
    assert Run(s3, [StepNew(k, 1)]) == s4 && Legal(s3, [StepNew(k, 1)]);
    assert [StepCancel(k, 0), StepNew(k, 1)][1..] == [StepNew(k, 1)];
    assert Run(s2, [StepCancel(k, 0), StepNew(k, 1)]) == s4 && Legal(s2, [StepCancel(k, 0), StepNew(k, 1)]);
    var rest := [StepGiveUp(0), StepCancel(k, 0), StepNew(k, 1)];
    assert rest[1..] == [StepCancel(k, 0), StepNew(k, 1)];
    assert Run(s1, rest) == s4 && Legal(s1, rest);
    var steps := [StepNew(k, 0), StepGiveUp(0), StepCancel(k, 0), StepNew(k, 1)];
    assert steps[1..] == rest;
    assert Run(NEW, steps) == s4 && Legal(NEW, steps);
    RunValid(NEW, steps);
  }

  /** No query is started for a key while another query for it is running. */
  predicate Patient(s: State, step: Step) {
    step.StepNew? && step.k !in s.requests ==> forall q :: q in s.pending ==> q.0 != step.k
  }

  predicate AllPatient(s: State, steps: seq<Step>)
    requires Legal(s, steps)
    decreases |steps|
  {
    steps == [] || (Patient(s, steps[0]) && AllPatient(Next(s, steps[0]), steps[1..]))
  }

  /** One query for each key. */
  predicate Single(s: State) {
    forall q, r :: q in s.pending && r in s.pending && q.0 == r.0 ==> q == r
  }

  /** The message of a query that is still running can only end its own request. */
  predicate Matched(s: State) {
    forall q :: q in s.pending && q.0 in s.requests ==> s.requests[q.0].query == q.1
  }

  predicate AlwaysMatched(s: State, steps: seq<Step>)
    requires Legal(s, steps)
    decreases |steps|
  {
    Matched(s) && (steps == [] || AlwaysMatched(Next(s, steps[0]), steps[1..]))
  }

  lemma ImpatientUnmatched(s: State, k: Cid, c: nat, q: (Cid, nat))
    requires Running(s) && k !in s.requests && q in s.pending && q.0 == k
    ensures !Matched(NewQuery(s, k, c))
  {
    var s' := NewQuery(s, k, c);
    assert q in s'.pending && s'.requests[k].query == s.nextQuery;
  }

  lemma NextMatched(s: State, step: Step)
    requires Running(s) && Single(s) && Enabled(s, step)
    ensures Patient(s, step) ==> Single(Next(s, step))
    ensures !Patient(s, step) ==> !Matched(Next(s, step))
  {
    if !Patient(s, step) {
      var q :| q in s.pending && q.0 == step.k;
      ImpatientUnmatched(s, step.k, step.c, q);
    }
  }

  lemma SingleMatched(s: State)
    requires Running(s) && Single(s)
    ensures Matched(s)
  {
    forall q | q in s.pending && q.0 in s.requests ensures s.requests[q.0].query == q.1 {
      assert (q.0, s.requests[q.0].query) in s.pending;
    }
  }

  /** All along a run a finished query can only end its own request, if and only if keys are asked for
      again only when their last query is over. */
  lemma {:induction false} PatientRun(s: State, steps: seq<Step>)
    requires Running(s) && Single(s) && Legal(s, steps)
    ensures AlwaysMatched(s, steps) <==> AllPatient(s, steps)
    decreases |steps|
  {
    SingleMatched(s);
    if steps != [] {
      NextRunning(s, steps[0]);
      NextMatched(s, steps[0]);
      if Patient(s, steps[0]) {
        PatientRun(Next(s, steps[0]), steps[1..]);
      }
    }
  }

  // ---------------------------------------------------------------------------------------
  // The handlers
  // ---------------------------------------------------------------------------------------

  lemma SendMore(s: State, ls: set<nat>, c: nat, p: Peer)
    requires c in s.listeners && c !in ls
    ensures var t := SendTo(s, ls, p);
            SendTo(s, ls + {c}, p) ==
            t.(listeners := t.listeners[c := Take(t.listeners[c], p)], panicked := t.panicked || !t.listeners[c].open)
  {
    var t, t' := SendTo(s, ls, p), SendTo(s, ls + {c}, p);
    assert t.listeners[c] == s.listeners[c];
    assert t'.listeners == t.listeners[c := Take(t.listeners[c], p)];
  }

  lemma CloseMore(s: State, ls: set<nat>, c: nat)
    requires c in s.listeners && c !in ls
    ensures var t := Close(s, ls);
            Close(s, ls + {c}) ==
            t.(listeners := t.listeners[c := t.listeners[c].(open := false)],
               panicked := t.panicked || !t.listeners[c].open)
  {
    var t, t' := Close(s, ls), Close(s, ls + {c});
    assert t.listeners[c] == s.listeners[c];
    assert t'.listeners == t.listeners[c := t.listeners[c].(open := false)];
  }

  lemma NothingDone(s: State, p: Peer)
    ensures SendTo(s, {}, p) == s && Close(s, {}) == s
  {
    assert SendTo(s, {}, p).listeners == s.listeners && Close(s, {}).listeners == s.listeners;
  }

  class ProviderQueryManager {
    var requests: map<Cid, Request>
    var listeners: map<nat, Listener>
    var pending: set<(Cid, nat)>
    var nextQuery: nat
    var panicked: bool

    function Value(): State
      reads this
    {
      State(requests, listeners, pending, nextQuery, panicked)
    }

    constructor ()
      ensures Value() == NEW
    {
      requests, listeners, pending, nextQuery, panicked := map[], map[], {}, 0, false;
    }

    /** A send on the channel of a listener. */
    method Send(c: nat, p: Peer)
      requires c in listeners
      modifies this`listeners, this`panicked
      ensures listeners == old(listeners)[c := Take(old(listeners)[c], p)] &&
              panicked == (old(panicked) || !old(listeners)[c].open)
    {
      if !listeners[c].open { panicked := true; }
      listeners := listeners[c := Take(listeners[c], p)];
    }

    method CloseChannel(c: nat)
      requires c in listeners
      modifies this`listeners, this`panicked
      ensures listeners == old(listeners)[c := old(listeners)[c].(open := false)] &&
              panicked == (old(panicked) || !old(listeners)[c].open)
    {
      if !listeners[c].open { panicked := true; }
      listeners := listeners[c := listeners[c].(open := false)];
    }

    method SendAll(cs: set<nat>, p: Peer)
      requires cs <= listeners.Keys
      modifies this`listeners, this`panicked
      ensures Value() == SendTo(old(Value()), cs, p)
    {
      ghost var s := Value();
      ghost var done: set<nat> := {};
      var todo := cs;
      NothingDone(s, p);
      while todo != {}
        invariant done + todo == cs && done !! todo && Value() == SendTo(s, done, p)
        decreases todo
      {
        var c :| c in todo;
        SendMore(s, done, c, p);
        Send(c, p);
        todo, done := todo - {c}, done + {c};
      }
      assert done == cs;
    }

    method CloseAll(cs: set<nat>)
      requires cs <= listeners.Keys
      modifies this`listeners, this`panicked
      ensures Value() == Close(old(Value()), cs)
    {
      ghost var s := Value();
      ghost var done: set<nat> := {};
      var todo := cs;
      NothingDone(s, NO_PEER);
      while todo != {}
        invariant done + todo == cs && done !! todo && Value() == Close(s, done)
        decreases todo
      {
        var c :| c in todo;
        CloseMore(s, done, c);
        CloseChannel(c);
        todo, done := todo - {c}, done + {c};
      }
      assert done == cs;
    }

    method HandleNew(k: Cid, c: nat)
      requires c !in listeners
      modifies this
      ensures Value() == NewQuery(old(Value()), k, c)
    {
      if k !in requests {
        requests := requests[k := Request([], {}, nextQuery)];
        pending := pending + {(k, nextQuery)};
        nextQuery := nextQuery + 1;
      }
      var r := requests[k];
      requests := requests[k := r.(listeners := r.listeners + {c})];
      listeners := listeners[c := Listener(k, true, r.providers, [], Reading, r.providers, [])];
    }

    method HandleReceived(k: Cid, p: Peer)
      requires Valid(Value())
      modifies this
      ensures Value() == Received(old(Value()), k, p)
    {
      if k !in requests { return; }
      var r := requests[k];
      Listed(Value(), k);
      requests := requests[k := r.(providers := r.providers + [p])];
      SendAll(r.listeners, p);
    }

    /** The worker of `query` is done; its message is handled by key. */
    method HandleFinished(k: Cid, query: nat)
      requires Valid(Value())
      modifies this
      ensures Value() == Finished(old(Value()), k, query)
    {
      ghost var s := Value();
      pending := pending - {(k, query)};
      if k !in requests { return; }
      var r := requests[k];
      Listed(s, k);
      CloseAll(r.listeners);
      requests := requests - {k};
    }

    method HandleCancel(k: Cid, c: nat)
      requires Valid(Value())
      modifies this
      ensures Value() == Cancelled(old(Value()), k, c)
    {
      if k !in requests || c !in requests[k].listeners { return; }
      var r := requests[k];
      Listed(Value(), k);
      var left := r.listeners - {c};
      requests := requests[k := r.(listeners := left)];
      CloseAll({c});
      if left == {} {
        requests := requests - {k};
      }
    }
  }

  lemma Listed(s: State, k: Cid)
    requires Valid(s) && k in s.requests
    ensures s.requests[k].listeners <= s.listeners.Keys
  {
    forall c | c in s.requests[k].listeners ensures c in s.listeners {
      assert Served(s, k, c);
    }
  }
}
