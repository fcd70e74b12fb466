/** The timeout manager object: pending wants are objects shared between the map of active wants
    and the queue, so that cancelling one through the map marks it in the queue. */
module DontHaveTimeoutObject {
  import opened Basics
  import T = DontHaveTimeout

  class PendingWant {
    const want: Want
    const sent: int
    var active: bool

    constructor (want: Want, sent: int)
      ensures this.want == want && this.sent == sent && active
    {
      this.want, this.sent, active := want, sent, true;
    }

    function Value(): T.Pending
      reads this
    {
      T.Pending(want, sent, active)
    }
  }

  /** The queue as values. */
  ghost function Values(queue: seq<PendingWant>): seq<T.Pending>
    reads queue
  {
    if queue == [] then [] else Values(queue[..|queue| - 1]) + [queue[|queue| - 1].Value()]
  }

  lemma {:induction false} ValuesAt(queue: seq<PendingWant>)
    ensures |Values(queue)| == |queue| && forall i :: 0 <= i < |queue| ==> Values(queue)[i] == queue[i].Value()
  {
    if queue != [] { ValuesAt(queue[..|queue| - 1]); }
  }

  lemma ValuesSnoc(queue: seq<PendingWant>, o: PendingWant)
    ensures Values(queue + [o]) == Values(queue) + [o.Value()]
  {
    assert (queue + [o])[..|queue|] == queue;
  }

  /** Each object is in the queue once; the active ones are exactly those in the map. */
  ghost predicate Linked(queue: seq<PendingWant>, active: map<Want, PendingWant>)
    reads queue
  {
    && (forall i, j :: 0 <= i < j < |queue| ==> queue[i] != queue[j])
    && (forall w :: w in active ==> active[w] in queue && active[w].want == w && active[w].active)
    && (forall o :: o in queue && o.active ==> o.want in active && active[o.want] == o)
  }

  lemma PopLinked(queue: seq<PendingWant>, active: map<Want, PendingWant>, rest: map<Want, PendingWant>)
    requires queue != [] && Linked(queue, active)
    requires rest == if queue[0].active then active - {queue[0].want} else active
    ensures Linked(queue[1..], rest)
  {
    assert queue == [queue[0]] + queue[1..];
    assert queue[0] !in queue[1..];
  }

  /** The loop of a check, on values. */
  function PopAll(s: T.State, queue: seq<T.Pending>, expired: seq<Want>): (seq<T.Pending>, seq<Want>)
    decreases |queue|
  {
    if queue == [] || (queue[0].active && !T.Over(s, queue[0])) then (queue, expired)
    else PopAll(s, queue[1..], if queue[0].active then expired + [queue[0].want] else expired)
  }

  lemma {:induction false} PopAllIs(s: T.State, queue: seq<T.Pending>, expired: seq<Want>)
    ensures var n := T.Popped(s, queue);
            PopAll(s, queue, expired) == (queue[n..], expired + T.ActiveWants(queue[..n]))
    decreases |queue|
  {
    var n := T.Popped(s, queue);
    if queue == [] || (queue[0].active && !T.Over(s, queue[0])) {
      assert queue[..0] == [] && expired + [] == expired;
    } else {
      PopAllIs(s, queue[1..], if queue[0].active then expired + [queue[0].want] else expired);
      var rest := T.ActiveWants(queue[1..][..n - 1]);
      assert queue[1..][..n - 1] == queue[..n][1..] && queue[1..][n - 1..] == queue[n..];
      assert queue[..n][0] == queue[0];
      assert expired + [queue[0].want] + rest == expired + ([queue[0].want] + rest) && [] + rest == rest;
    }
  }

  lemma CheckedIs(s: T.State, c: T.State, expired: seq<Want>)
    requires s.queue != [] && (c.queue, expired) == PopAll(s, s.queue, [])
    requires c == s.(queue := c.queue, active := s.active - T.Set(expired),
                     timer := if c.queue == [] then s.timer else Some(c.queue[0].sent + s.timeout))
    ensures c == T.Check(s) && expired == T.Expired(s)
  {
    PopAllIs(s, s.queue, []);
    assert [] + T.Expired(s) == T.Expired(s);
  }

  lemma SetSnoc(ws: seq<Want>, w: Want)
    ensures T.Set(ws + [w]) == T.Set(ws) + {w}
  {
  }

  lemma FrontValue(queue: seq<PendingWant>)
    requires queue != []
    ensures Values(queue) == [queue[0].Value()] + Values(queue[1..])
  {
    ValuesAt(queue);
    ValuesAt(queue[1..]);
  }

  /** The loop of `checkForTimeouts`. */
  method PopExpired(all: seq<PendingWant>, active: map<Want, PendingWant>, timeout: int, now: int, ghost s: T.State)
    returns (queue: seq<PendingWant>, left: map<Want, PendingWant>, expired: seq<Want>)
    requires Linked(all, active) && s.timeout == timeout && s.now == now
    ensures Linked(queue, left) && (Values(queue), expired) == PopAll(s, Values(all), [])
    ensures left.Keys == active.Keys - T.Set(expired) && forall o :: o in queue ==> o in all
  {
    queue, left, expired := all, active, [];
    while queue != []
      invariant Linked(queue, left) && PopAll(s, Values(queue), expired) == PopAll(s, Values(all), [])
      invariant left.Keys == active.Keys - T.Set(expired) && forall o :: o in queue ==> o in all
      decreases |queue|
    {
      var pw := queue[0];
      FrontValue(queue);
      if pw.active {
        if now - pw.sent < timeout {
          break;
        }
        SetSnoc(expired, pw.want);
        PopLinked(queue, left, left - {pw.want});
        expired, left := expired + [pw.want], left - {pw.want};
      } else {
        PopLinked(queue, left, left);
      }
      queue := queue[1..];
    }
    ValuesAt(queue);
  }

  /** One new entry: an object that is both in the map and at the end of the queue. */
  method Enqueue(queue: seq<PendingWant>, active: map<Want, PendingWant>, w: Want, start: int)
    returns (all: seq<PendingWant>, more: map<Want, PendingWant>)
    requires Linked(queue, active) && w !in active
    ensures Linked(all, more) && Values(all) == Values(queue) + [T.Pending(w, start, true)]
    ensures more.Keys == active.Keys + {w} && forall o :: o in all ==> o in queue || fresh(o)
  {
    var pw := new PendingWant(w, start);
    all, more := queue + [pw], active[w := pw];
    ValuesSnoc(queue, pw);
  }

  lemma EnqueueStep(s: T.State, ks: seq<Want>, i: nat, start: int)
    requires i < |ks|
    ensures T.Enqueue(s, ks[i..], start) ==
            if ks[i] in s.active then T.Enqueue(s, ks[i + 1..], start)
            else T.Enqueue(s.(queue := s.queue + [T.Pending(ks[i], start, true)], active := s.active + {ks[i]}),
                           ks[i + 1..], start)
  {
    assert ks[i..][0] == ks[i] && ks[i..][1..] == ks[i + 1..];
  }

  /** The loop of `AddPending`. */
  method EnqueueAll(queue: seq<PendingWant>, active: map<Want, PendingWant>, ks: seq<Want>, start: int,
                    ghost s: T.State)
    returns (all: seq<PendingWant>, more: map<Want, PendingWant>)
    requires Linked(queue, active) && s.queue == Values(queue) && s.active == active.Keys
    ensures Linked(all, more) && s.(queue := Values(all), active := more.Keys) == T.Enqueue(s, ks, start)
    ensures forall o :: o in all ==> o in queue || fresh(o)
  {
    all, more := queue, active;
    assert ks[0..] == ks;
    for i := 0 to |ks|
      invariant Linked(all, more) && forall o :: o in all ==> o in queue || fresh(o)
      invariant T.Enqueue(s.(queue := Values(all), active := more.Keys), ks[i..], start) == T.Enqueue(s, ks, start)
    {
      EnqueueStep(s.(queue := Values(all), active := more.Keys), ks, i, start);
      if ks[i] !in more {
        all, more := Enqueue(all, more, ks[i], start);
      }
    }
    assert ks[|ks|..] == [];
  }

  /** Cancelling a want through the map marks its object in the queue. */
  method Cancel(queue: seq<PendingWant>, active: map<Want, PendingWant>, w: Want) returns (left: map<Want, PendingWant>)
    requires Linked(queue, active)
    modifies queue
    ensures left == active - {w} && Linked(queue, left) && Values(queue) == T.Deactivate(old(Values(queue)), {w})
  {
    ValuesAt(queue);
    ghost var was := Values(queue);
    left := active - {w};
    if w in active {
      active[w].active := false;
    }
    ValuesAt(queue);
    assert |was| == |queue|;
    forall i | 0 <= i < |queue| ensures Values(queue)[i] == T.Deactivate(was, {w})[i] {
    }
  }

  lemma DeactivateMore(queue: seq<T.Pending>, ks: set<Want>, w: Want)
    ensures T.Deactivate(T.Deactivate(queue, ks), {w}) == T.Deactivate(queue, ks + {w})
  {
  }

  lemma DeactivateNone(queue: seq<T.Pending>)
    ensures T.Deactivate(queue, {}) == queue
  {
  }

  method CancelAll(queue: seq<PendingWant>, active: map<Want, PendingWant>, ks: seq<Want>)
    returns (left: map<Want, PendingWant>)
    requires Linked(queue, active)
    modifies queue
    ensures Linked(queue, left) && left.Keys == active.Keys - T.Set(ks)
    ensures Values(queue) == T.Deactivate(old(Values(queue)), T.Set(ks))
  {
    left := active;
    ghost var was := Values(queue);
    DeactivateNone(was);
    assert T.Set([]) == {};
    for i := 0 to |ks|
      invariant Linked(queue, left) && left.Keys == active.Keys - T.Set(ks[..i])
      invariant Values(queue) == T.Deactivate(was, T.Set(ks[..i]))
    {
      assert ks[..i + 1] == ks[..i] + [ks[i]];
      SetSnoc(ks[..i], ks[i]);
      DeactivateMore(was, T.Set(ks[..i]), ks[i]);
      left := Cancel(queue, left, ks[i]);
    }
    assert ks[..|ks|] == ks;
  }

  class DontHaveTimeoutMgr {
    const params: T.Params
    var started: bool
    var activeWants: map<Want, PendingWant>
    var wantQueue: seq<PendingWant>
    var timeout: int
    var messageLatency: T.Ewma
    var timer: Option<int>
    var tick: bool

    ghost predicate Valid()
      reads this, wantQueue
    {
      Linked(wantQueue, activeWants)
    }

    ghost function State(now: int): T.State
      reads this, wantQueue
    {
      T.State(Values(wantQueue), activeWants.Keys, timeout, messageLatency, timer, tick, now, started)
    }

    constructor (params: T.Params)
      ensures Valid() && this.params == params && forall now :: State(now) == T.Initial(params, now)
    {
      this.params := params;
      started, activeWants, wantQueue, timeout := false, map[], [], params.defaultTimeout;
      messageLatency, timer, tick := T.Ewma(0, 0), None, false;
    }

    /** `checkForTimeouts`, at time `now`: pops expired and cancelled wants and sets the timer for the
        oldest that is left. */
    method CheckForTimeouts(now: int) returns (expired: seq<Want>)
      requires Valid()
      modifies this
      ensures Valid() && forall o :: o in wantQueue ==> o in old(wantQueue)
      ensures State(now) == T.Check(old(State(now))) && expired == T.Expired(old(State(now)))
    {
      ghost var s := State(now);
      ValuesAt(wantQueue);
      if wantQueue == [] { return []; }
      expired := Sweep(now);
      CheckedIs(s, State(now), expired);
    }

    method Sweep(now: int) returns (expired: seq<Want>)
      requires Valid()
      modifies this`wantQueue, this`activeWants, this`timer
      ensures Valid() && (Values(wantQueue), expired) == PopAll(old(State(now)), old(State(now)).queue, [])
      ensures activeWants.Keys == old(activeWants.Keys) - T.Set(expired) &&
              forall o :: o in wantQueue ==> o in old(wantQueue)
      ensures timer == if Values(wantQueue) == [] then old(timer) else Some(Values(wantQueue)[0].sent + timeout)
    {
      var queue, active;
      queue, active, expired := PopExpired(wantQueue, activeWants, timeout, now, State(now));
      ValuesAt(queue);
      Install(queue, active, if queue == [] then timer else Some(queue[0].sent + timeout));
    }

    /** Replaces the queue, the map and the timer. */
    method Install(queue: seq<PendingWant>, active: map<Want, PendingWant>, t: Option<int>)
      requires Linked(queue, active)
      modifies this`wantQueue, this`activeWants, this`timer
      ensures Valid() && wantQueue == queue && activeWants == active && timer == t &&
              Values(queue) == old(Values(queue))
    {
      ghost var values := Values(queue);
      ValuesAt(queue);
      wantQueue, activeWants, timer := queue, active, t;
      ValuesAt(queue);
      assert Values(queue) == values;
    }

    method AddPending(ks: seq<Want>, start: int, now: int) returns (expired: seq<Want>)
      requires Valid()
      modifies this
      ensures Valid() && forall o :: o in wantQueue ==> o in old(wantQueue) || fresh(o)
      ensures State(now) == T.AddPending(old(State(now)), ks, start)
      ensures expired == T.Reported(old(State(now)), T.StepAdd(ks, start), params)
    {
      expired := [];
      if ks == [] { return; }
      var queueWasEmpty := activeWants == map[];
      ghost var s := State(now);
      assert queueWasEmpty <==> s.active == {};
      AddEntries(ks, start, now);
      if queueWasEmpty {
        expired := CheckForTimeouts(now);
      }
    }

    method AddEntries(ks: seq<Want>, start: int, ghost now: int)
      requires Valid()
      modifies this`wantQueue, this`activeWants
      ensures Valid() && State(now) == T.Enqueue(old(State(now)), ks, start)
      ensures forall o :: o in wantQueue ==> o in old(wantQueue) || fresh(o)
    {
      var queue, active := EnqueueAll(wantQueue, activeWants, ks, start, State(now));
      assert Linked(queue, active);
      wantQueue, activeWants := queue, active;
    }

    method CancelPending(ks: seq<Want>)
      requires Valid()
      modifies this, wantQueue
      ensures Valid() && wantQueue == old(wantQueue)
      ensures forall now :: State(now) == T.CancelPending(old(State(now)), ks)
    {
      var left := CancelAll(wantQueue, activeWants, ks);
      assert Linked(wantQueue, left);
      activeWants := left;
    }

    method UpdateMessageLatency(elapsed: int, now: int) returns (expired: seq<Want>)
      requires Valid()
      modifies this
      ensures Valid() && State(now) == T.UpdateMessageLatency(old(State(now)), elapsed, params)
      ensures expired == T.Reported(old(State(now)), T.StepLatency(elapsed), params)
    {
      expired := [];
      messageLatency := T.Update(messageLatency, elapsed, params.alpha);
      var oldTimeout := timeout;
      timeout := T.MessageTimeout(messageLatency.latency, params);
      if timeout < oldTimeout {
        expired := CheckForTimeouts(now);
      }
    }

    /** The locked part of `measurePingLatency`. */
    method PingMeasured(latency: int, now: int) returns (expired: seq<Want>)
      requires Valid()
      modifies this
      ensures Valid() && State(now) == T.PingMeasured(old(State(now)), latency, params)
      ensures expired == T.Reported(old(State(now)), T.StepPing(latency), params)
    {
      if messageLatency.samples > 0 { return []; }
      timeout := T.PingTimeout(latency, params);
      expired := CheckForTimeouts(now);
    }

    /** With a known latency the timeout is set at once, otherwise a ping will be sent. */
    method Start(latency: int) returns (ping: bool)
      requires Valid()
      modifies this
      ensures Valid() && forall now :: State(now) == T.Start(old(State(now)), latency, params)
      ensures ping <==> !old(started) && latency <= 0
    {
      if started { return false; }
      started := true;
      if latency > 0 {
        timeout := T.PingTimeout(latency, params);
        return false;
      }
      ping := true;
    }

    /** One turn of `consumeTimeouts`. */
    method ConsumeTick(now: int) returns (expired: seq<Want>)
      requires Valid() && tick
      modifies this
      ensures Valid() && State(now) == T.Next(old(State(now)), T.StepConsume, params)
      ensures expired == T.Reported(old(State(now)), T.StepConsume, params)
    {
      ghost var s := State(now);
      T.PoppedSame(s, s.(tick := false), s.queue);
      tick := false;
      expired := CheckForTimeouts(now);
    }
  }
}
