/** Timeouts that stand in for a DONT_HAVE response (internal/messagequeue/donthavetimeoutmgr.go):
    a queue of wants in the order in which they were sent, cleaned up lazily, one timer for the
    whole queue, and a timeout that follows the latency of the peer. */
module DontHaveTimeout {
  import opened Basics

  // ---------------------------------------------------------------------------------------
  // Latency
  // ---------------------------------------------------------------------------------------

  /** Exponentially weighted moving average of message latency, in nanoseconds. */
  datatype Ewma = Ewma(samples: nat, latency: int)

  /** Conversion to an integer type: towards zero. */
  function Truncate(x: real): int { if x >= 0.0 then x.Floor else -(-x).Floor }

  /** The weight of the n-th sample: 1/n, but at least `alpha`. */
  function Weight(n: nat, alpha: real): real
    requires n > 0
  {
    if 1.0 / n as real < alpha then alpha else 1.0 / n as real
  }

  function Mean(a: int, b: int, w: real): real { a as real * w + (1.0 - w) * b as real }

  function Update(e: Ewma, elapsed: int, alpha: real): Ewma {
    Ewma(e.samples + 1, Truncate(Mean(elapsed, e.latency, Weight(e.samples + 1, alpha))))
  }

  function UpdateAll(e: Ewma, samples: seq<int>, alpha: real): Ewma
    decreases |samples|
  {
    if samples == [] then e else UpdateAll(Update(e, samples[0], alpha), samples[1..], alpha)
  }

  lemma WeightRange(n: nat, alpha: real)
    requires n > 0 && 0.0 <= alpha <= 1.0
    ensures 0.0 <= Weight(n, alpha) <= 1.0 && (n == 1 ==> Weight(n, alpha) == 1.0)
  {
    assert 1.0 / n as real <= 1.0;
  }

  lemma Product(x: real, y: real)
    requires x >= 0.0 && y >= 0.0
    ensures x * y >= 0.0
  {
  }

  /** A weighted mean is between its two values. */
  lemma Between(a: real, b: real, w: real, lo: real, hi: real)
    requires 0.0 <= w <= 1.0 && lo <= a <= hi && lo <= b <= hi
    ensures lo <= a * w + (1.0 - w) * b <= hi
  {
    Product(a - lo, w);
    Product(1.0 - w, b - lo);
    Product(hi - a, w);
    Product(1.0 - w, hi - b);
    assert a * w + (1.0 - w) * b - lo == (a - lo) * w + (1.0 - w) * (b - lo);
    assert hi - (a * w + (1.0 - w) * b) == (hi - a) * w + (1.0 - w) * (hi - b);
  }

  lemma TruncateBetween(x: real, lo: int, hi: int)
    requires lo as real <= x <= hi as real
    ensures lo <= Truncate(x) <= hi
  {
  }

  lemma MeanBetween(a: int, b: int, w: real, lo: int, hi: int)
    requires 0.0 <= w <= 1.0 && lo <= a <= hi && (w == 1.0 || lo <= b <= hi)
    ensures lo as real <= Mean(a, b, w) <= hi as real
  {
    if w == 1.0 {
      assert (1.0 - w) * b as real == 0.0;
    } else {
      Between(a as real, b as real, w, lo as real, hi as real);
    }
  }

  lemma UpdateBetween(e: Ewma, elapsed: int, alpha: real, lo: int, hi: int)
    requires 0.0 <= alpha <= 1.0 && lo <= elapsed <= hi && (e.samples == 0 || lo <= e.latency <= hi)
    ensures lo <= Update(e, elapsed, alpha).latency <= hi
  {
    var w := Weight(e.samples + 1, alpha);
    WeightRange(e.samples + 1, alpha);
    MeanBetween(elapsed, e.latency, w, lo, hi);
    TruncateBetween(Mean(elapsed, e.latency, w), lo, hi);
  }

  /** After any samples, at least one, the average lies between the smallest and the largest. */
  lemma {:induction false} AverageBetween(e: Ewma, samples: seq<int>, alpha: real, lo: int, hi: int)
    requires 0.0 <= alpha <= 1.0 && (e.samples == 0 || lo <= e.latency <= hi) && (e.samples > 0 || samples != [])
    requires forall i :: 0 <= i < |samples| ==> lo <= samples[i] <= hi
    ensures lo <= UpdateAll(e, samples, alpha).latency <= hi
    decreases |samples|
  {
    if samples != [] {
      UpdateBetween(e, samples[0], alpha, lo, hi);
      AverageBetween(Update(e, samples[0], alpha), samples[1..], alpha, lo, hi);
    }
  }

  // ---------------------------------------------------------------------------------------
  // The manager
  // ---------------------------------------------------------------------------------------

  const SECOND := 1_000_000_000

  /** Durations in nanoseconds. */
  datatype Params = Params(defaultTimeout: int, maxTimeout: int, pingMultiplier: nat, messageMultiplier: nat,
                           processTime: int, alpha: real)

  const PARAMS := Params(5 * SECOND, 7 * SECOND, 3, 2, 2 * SECOND, 0.5)

  predicate Sane(params: Params) {
    && 0 <= params.defaultTimeout <= params.maxTimeout
    && 0 <= params.processTime && 0.0 <= params.alpha <= 1.0
  }

  datatype Pending = Pending(want: Want, sent: int, active: bool)

  /** `timer` is the moment for which the timer is set, `tick` whether it has gone off and the check
      has not happened yet. */
  datatype State = State(
    queue: seq<Pending>,
    active: set<Want>,
    timeout: int,
    ewma: Ewma,
    timer: Option<int>,
    tick: bool,
    now: int,
    started: bool)

  function Initial(params: Params, now: int): State {
    State([], {}, params.defaultTimeout, Ewma(0, 0), None, false, now, false)
  }

  function Cap(timeout: int, params: Params): int { if timeout > params.maxTimeout then params.maxTimeout else timeout }

  function PingTimeout(latency: int, params: Params): int {
    Cap(params.processTime + params.pingMultiplier * latency, params)
  }

  function MessageTimeout(latency: int, params: Params): int { Cap(latency * params.messageMultiplier, params) }

  /** The entry is over the timeout. */
  predicate Over(s: State, e: Pending) { s.now - e.sent >= s.timeout }

  /** How many entries a check takes off the front of the queue: up to the first active one that is
      not over the timeout. */
  function Popped(s: State, queue: seq<Pending>): (n: nat)
    ensures n <= |queue|
  {
    if queue == [] || (queue[0].active && !Over(s, queue[0])) then 0 else 1 + Popped(s, queue[1..])
  }

  function ActiveWants(queue: seq<Pending>): seq<Want> {
    if queue == [] then [] else (if queue[0].active then [queue[0].want] else []) + ActiveWants(queue[1..])
  }

  /** The wants that a check reports. */
  function Expired(s: State): seq<Want> { ActiveWants(s.queue[..Popped(s, s.queue)]) }

  function Set(ws: seq<Want>): set<Want> { set w | w in ws }

  /** `checkForTimeouts`. The timer is set for the moment when the oldest pending want times out, and
      left alone if there is none. */
  function Check(s: State): State {
    if s.queue == [] then s
    else
      var rest := s.queue[Popped(s, s.queue)..];
      s.(queue := rest,
         active := s.active - Set(Expired(s)),
         timer := if rest == [] then s.timer else Some(rest[0].sent + s.timeout))
  }

  /** One new entry for each key that has none, in order. */
  function Enqueue(s: State, ks: seq<Want>, start: int): State
    decreases |ks|
  {
    if ks == [] then s
    else if ks[0] in s.active then Enqueue(s, ks[1..], start)
    else Enqueue(s.(queue := s.queue + [Pending(ks[0], start, true)], active := s.active + {ks[0]}), ks[1..], start)
  }

  function AddPending(s: State, ks: seq<Want>, start: int): State {
    var s' := Enqueue(s, ks, start);
    if ks != [] && s.active == {} then Check(s') else s'
  }

  function Deactivate(queue: seq<Pending>, ks: set<Want>): (r: seq<Pending>)
    ensures |r| == |queue|
  {
    seq(|queue|, i requires 0 <= i < |queue| => if queue[i].want in ks then queue[i].(active := false) else queue[i])
  }

  function CancelPending(s: State, ks: seq<Want>): State {
    s.(queue := Deactivate(s.queue, Set(ks)), active := s.active - Set(ks))
  }

  function UpdateMessageLatency(s: State, elapsed: int, params: Params): State {
    var e := Update(s.ewma, elapsed, params.alpha);
    var s' := s.(ewma := e, timeout := MessageTimeout(e.latency, params));
    if s'.timeout < s.timeout then Check(s') else s'
  }

  /** The locked part of `measurePingLatency`. */
  function PingMeasured(s: State, latency: int, params: Params): State {
    if s.ewma.samples > 0 then s else Check(s.(timeout := PingTimeout(latency, params)))
  }

  function Start(s: State, latency: int, params: Params): State {
    if s.started then s
    else s.(started := true, timeout := if latency > 0 then PingTimeout(latency, params) else s.timeout)
  }

  datatype Step =
    | StepStart(latency: int)
    | StepAdd(ks: seq<Want>, start: int)
    | StepCancel(ks: seq<Want>)
    | StepLatency(elapsed: int)
    | StepPing(latency: int)
    | StepFire
    | StepConsume
    | StepAdvance(to: int)

  /** Calls of `AddPending` come one after the other, so that start times do not go back; latencies
      are not negative; the timer goes off when its moment has come. */
  predicate Enabled(s: State, step: Step) {
    match step
    case StepStart(latency) => latency >= 0
    case StepAdd(ks, start) => start <= s.now && forall e :: e in s.queue ==> e.sent <= start
    case StepCancel(ks) => true
    case StepLatency(elapsed) => elapsed >= 0
    case StepPing(latency) => latency >= 0
    case StepFire => s.timer.Some? && s.timer.value <= s.now
    case StepConsume => s.tick
    case StepAdvance(to) => to >= s.now
  }

  function Next(s: State, step: Step, params: Params): State {
    match step
    case StepStart(latency) => Start(s, latency, params)
    case StepAdd(ks, start) => AddPending(s, ks, start)
    case StepCancel(ks) => CancelPending(s, ks)
    case StepLatency(elapsed) => UpdateMessageLatency(s, elapsed, params)
    case StepPing(latency) => PingMeasured(s, latency, params)
    case StepFire => s.(timer := None, tick := true)
    case StepConsume => Check(s.(tick := false))
    case StepAdvance(to) => s.(now := to)
  }

  /** The wants a step reports as timed out. */
  function Reported(s: State, step: Step, params: Params): seq<Want> {
    match step
    case StepAdd(ks, start) => if ks != [] && s.active == {} then Expired(Enqueue(s, ks, start)) else []
    case StepLatency(elapsed) =>
      var e := Update(s.ewma, elapsed, params.alpha);
      var s' := s.(ewma := e, timeout := MessageTimeout(e.latency, params));
      if s'.timeout < s.timeout then Expired(s') else []
    case StepPing(latency) => if s.ewma.samples > 0 then [] else Expired(s.(timeout := PingTimeout(latency, params)))
    case StepConsume => Expired(s)
    case _ => []
  }

  // ---------------------------------------------------------------------------------------
  // Invariants
  // ---------------------------------------------------------------------------------------

  function ActiveSet(queue: seq<Pending>): set<Want> { set e | e in queue && e.active :: e.want }

  predicate InSendOrder(queue: seq<Pending>) {
    forall i, j :: 0 <= i < j < |queue| ==> queue[i].sent <= queue[j].sent
  }

  predicate OneEach(queue: seq<Pending>) {
    forall i, j :: 0 <= i < j < |queue| && queue[i].active && queue[j].active ==> queue[i].want != queue[j].want
  }

  /** The active wants are exactly the active entries, one entry each, in send order. */
  predicate Orderly(s: State) {
    InSendOrder(s.queue) && OneEach(s.queue) && s.active == ActiveSet(s.queue)
  }

  /** A check will come no later than the moment at which the entry times out. */
  predicate CheckedInTime(s: State, e: Pending) {
    s.tick || (s.timer.Some? && s.timer.value <= e.sent + s.timeout)
  }

  /** Every active want is checked in time. */
  predicate Watched(s: State) {
    forall e :: e in s.queue && e.active ==> CheckedInTime(s, e)
  }

  predicate Bounded(s: State, params: Params) {
    0 <= s.timeout <= params.maxTimeout && s.ewma.latency >= 0
  }

  // ---- a check ----

  lemma {:induction false} PoppedMeans(s: State, queue: seq<Pending>)
    ensures var n := Popped(s, queue);
            && (forall i :: 0 <= i < n ==> !queue[i].active || Over(s, queue[i]))
            && (n < |queue| ==> queue[n].active && !Over(s, queue[n]))
  {
    if !(queue == [] || (queue[0].active && !Over(s, queue[0]))) {
      PoppedMeans(s, queue[1..]);
      var n := Popped(s, queue);
      assert forall i :: 0 < i < |queue| ==> queue[i] == queue[1..][i - 1];
    }
  }

  lemma {:induction false} ActiveWantsMeans(queue: seq<Pending>)
    requires OneEach(queue)
    ensures Set(ActiveWants(queue)) == ActiveSet(queue)
    ensures forall i, j :: 0 <= i < j < |ActiveWants(queue)| ==> ActiveWants(queue)[i] != ActiveWants(queue)[j]
  {
    if queue != [] {
      var e, rest := queue[0], queue[1..];
      assert queue == [e] + rest;
      assert forall i :: 0 <= i < |rest| ==> rest[i] == queue[i + 1];
      ActiveWantsMeans(rest);
      assert forall i :: 0 <= i < |ActiveWants(rest)| ==> ActiveWants(rest)[i] in Set(ActiveWants(rest));
      assert ActiveSet(queue) == ActiveSet(rest) + if e.active then {e.want} else {};
    }
  }

  /** The queue is cut where the first entry that stays is active and not over the timeout. */
  ghost predicate CutAt(s: State, n: nat) {
    && n <= |s.queue|
    && (forall e :: e in s.queue[..n] && e.active ==> Over(s, e))
    && (forall e :: e in s.queue[n..] ==> !Over(s, e))
    && (n < |s.queue| ==> s.queue[n].active)
  }

  lemma PoppedCut(s: State)
    requires InSendOrder(s.queue)
    ensures CutAt(s, Popped(s, s.queue))
  {
    PoppedMeans(s, s.queue);
    var n := Popped(s, s.queue);
    assert forall i :: n <= i < |s.queue| ==> s.queue[n].sent <= s.queue[i].sent;
  }

  lemma Split(queue: seq<Pending>, n: nat)
    requires n <= |queue| && OneEach(queue) && InSendOrder(queue)
    ensures OneEach(queue[..n]) && OneEach(queue[n..]) && InSendOrder(queue[n..])
    ensures ActiveSet(queue[..n]) !! ActiveSet(queue[n..]) &&
            ActiveSet(queue) == ActiveSet(queue[..n]) + ActiveSet(queue[n..])
  {
    assert queue == queue[..n] + queue[n..];
    forall e, f | e in queue[..n] && e.active && f in queue[n..] && f.active ensures e.want != f.want {
      var i :| 0 <= i < n && queue[i] == e;
      var j :| 0 <= j < |queue| - n && queue[n..][j] == f;
      assert queue[n + j] == f;
    }
  }

  /** The active wants that are over the timeout. */
  ghost function OverWants(s: State): set<Want> { set e | e in s.queue && e.active && Over(s, e) :: e.want }

  lemma CutOver(s: State, n: nat)
    requires CutAt(s, n)
    ensures ActiveSet(s.queue[..n]) == OverWants(s)
  {
    assert s.queue == s.queue[..n] + s.queue[n..];
  }

  lemma ExpiredExact(s: State)
    requires Orderly(s)
    ensures Set(Expired(s)) == OverWants(s) && OverWants(s) <= s.active
    ensures forall i, j :: 0 <= i < j < |Expired(s)| ==> Expired(s)[i] != Expired(s)[j]
  {
    var n := Popped(s, s.queue);
    PoppedCut(s);
    Split(s.queue, n);
    ActiveWantsMeans(s.queue[..n]);
    CutOver(s, n);
  }

  lemma CutOrderly(s: State, s': State, n: nat)
    requires Orderly(s) && n <= |s.queue| && s'.queue == s.queue[n..] && s'.active == s.active - ActiveSet(s.queue[..n])
    ensures Orderly(s')
  {
    Split(s.queue, n);
  }

  /** A check reports exactly the active wants that are over the timeout, each once, leaves exactly
      the others active, and makes sure that these are checked in time. */
  lemma CheckExact(s: State)
    requires Orderly(s)
    ensures Set(Expired(s)) == OverWants(s)
    ensures forall i, j :: 0 <= i < j < |Expired(s)| ==> Expired(s)[i] != Expired(s)[j]
    ensures Check(s).active == s.active - OverWants(s)
    ensures Orderly(Check(s)) && Watched(Check(s))
  {
    var n := Popped(s, s.queue);
    ExpiredExact(s);
    PoppedCut(s);
    CutOver(s, n);
    CutOrderly(s, Check(s), n);
    CutWatched(s, Check(s), n);
  }

  lemma CutWatched(s: State, s': State, n: nat)
    requires InSendOrder(s.queue) && n <= |s.queue| && s'.queue == s.queue[n..] && s'.timeout == s.timeout
    requires n < |s.queue| ==> s'.timer == Some(s.queue[n].sent + s.timeout)
    ensures Watched(s')
  {
    forall e | e in s'.queue ensures CheckedInTime(s', e) {
      var i :| 0 <= i < |s'.queue| && s'.queue[i] == e;
      assert s.queue[n + i] == e;
    }
  }

  // ---- additions and cancellations ----

  lemma Append(s: State, w: Want, start: int)
    requires Orderly(s) && w !in s.active && forall e :: e in s.queue ==> e.sent <= start
    ensures var s' := s.(queue := s.queue + [Pending(w, start, true)], active := s.active + {w});
            Orderly(s') && forall e :: e in s'.queue ==> e.sent <= start
  {
    forall i | 0 <= i < |s.queue| && s.queue[i].active ensures s.queue[i].want != w {
      assert s.queue[i] in s.queue;
    }
  }

  lemma {:induction false} EnqueueOrderly(s: State, ks: seq<Want>, start: int)
    requires Orderly(s) && forall e :: e in s.queue ==> e.sent <= start
    ensures var s' := Enqueue(s, ks, start); Orderly(s') && s'.active == s.active + Set(ks)
    ensures var s' := Enqueue(s, ks, start);
            s'.timeout == s.timeout && s'.timer == s.timer && s'.tick == s.tick && s'.ewma == s.ewma && s'.now == s.now
    decreases |ks|
  {
    if ks != [] {
      assert ks == [ks[0]] + ks[1..];
      if ks[0] in s.active {
        EnqueueOrderly(s, ks[1..], start);
      } else {
        Append(s, ks[0], start);
        EnqueueOrderly(s.(queue := s.queue + [Pending(ks[0], start, true)], active := s.active + {ks[0]}), ks[1..],
                       start);
      }
    }
  }

  /** New entries are checked in time because the oldest active one is. */
  lemma {:induction false} EnqueueWatched(s: State, ks: seq<Want>, start: int, oldest: Pending)
    requires Watched(s) && oldest in s.queue && oldest.active && oldest.sent <= start
    ensures Watched(Enqueue(s, ks, start))
    decreases |ks|
  {
    if ks != [] {
      if ks[0] in s.active {
        EnqueueWatched(s, ks[1..], start, oldest);
      } else {
        var s' := s.(queue := s.queue + [Pending(ks[0], start, true)], active := s.active + {ks[0]});
        assert CheckedInTime(s, oldest);
        EnqueueWatched(s', ks[1..], start, oldest);
      }
    }
  }

  lemma AddGood(s: State, ks: seq<Want>, start: int)
    requires Orderly(s) && Watched(s) && forall e :: e in s.queue ==> e.sent <= start
    ensures Orderly(AddPending(s, ks, start)) && Watched(AddPending(s, ks, start))
  {
    EnqueueOrderly(s, ks, start);
    if ks != [] && s.active == {} {
      CheckExact(Enqueue(s, ks, start));
    } else if s.active != {} {
      var w :| w in s.active;
      var e :| e in s.queue && e.active && e.want == w;
      EnqueueWatched(s, ks, start, e);
    }
  }

  lemma DeactivateMembers(queue: seq<Pending>, ks: set<Want>)
    ensures forall e :: e in Deactivate(queue, ks) && e.active <==> e in queue && e.active && e.want !in ks
  {
    var r := Deactivate(queue, ks);
    forall e | e in r && e.active ensures e in queue && e.want !in ks {
      var i :| 0 <= i < |r| && r[i] == e;
    }
    forall e | e in queue && e.active && e.want !in ks ensures e in r {
      var i :| 0 <= i < |queue| && queue[i] == e;
      assert r[i] == e;
    }
  }

  lemma CancelGood(s: State, ks: seq<Want>)
    requires Orderly(s) && Watched(s)
    ensures Orderly(CancelPending(s, ks)) && Watched(CancelPending(s, ks))
  {
    DeactivateMembers(s.queue, Set(ks));
    var s' := CancelPending(s, ks);
    assert ActiveSet(s'.queue) == ActiveSet(s.queue) - Set(ks);
  }

  // ---------------------------------------------------------------------------------------
  // Runs
  // ---------------------------------------------------------------------------------------

  /** Where the first active entry is, or the length of the queue if there is none. */
  function FirstActive(queue: seq<Pending>): (n: nat)
    ensures n <= |queue| && (n < |queue| ==> queue[n].active)
    ensures forall i :: 0 <= i < n ==> !queue[i].active
  {
    if queue == [] || queue[0].active then 0 else 1 + FirstActive(queue[1..])
  }

  /** With the given timeout, a check is due, or nothing is active, or the timer goes off before the
      oldest active want times out. */
  predicate InTime(s: State, timeout: int) {
    var n := FirstActive(s.queue);
    s.tick || n == |s.queue| || (s.timer.Some? && s.timer.value <= s.queue[n].sent + timeout)
  }

  lemma WatchedIff(s: State)
    requires InSendOrder(s.queue)
    ensures Watched(s) <==> InTime(s, s.timeout)
  {
    var n := FirstActive(s.queue);
    if n < |s.queue| {
      assert s.queue[n] in s.queue;
      assert forall i :: n <= i < |s.queue| ==> s.queue[n].sent <= s.queue[i].sent;
    }
  }

  /** `Start` sets the timeout without a check. Whatever is pending, every active want is checked in
      time afterwards if and only if the timer was already set early enough. */
  lemma LateStart(s: State, latency: int, params: Params)
    requires InSendOrder(s.queue) && !s.started && latency > 0
    ensures Watched(Start(s, latency, params)) <==> InTime(s, PingTimeout(latency, params))
  {
    WatchedIff(Start(s, latency, params));
  }

  /** The manager is started before wants are added, or does not need a check when it is. */
  predicate StartsInTime(s: State, step: Step, params: Params) {
    step.StepStart? && !s.started && step.latency > 0 ==> InTime(s, PingTimeout(step.latency, params))
  }

  /** Just after a check that left wants pending, a late start leaves them checked in time if and
      only if it does not lower the timeout. */
  lemma LateStartAfterCheck(s: State, latency: int, params: Params)
    requires InSendOrder(s.queue) && !s.started && latency > 0 && !s.tick
    requires s.queue != [] && s.queue[0].active && s.timer == Some(s.queue[0].sent + s.timeout)
    ensures Watched(Start(s, latency, params)) <==> PingTimeout(latency, params) >= s.timeout
  {
    LateStart(s, latency, params);
  }

  lemma StartGood(s: State, latency: int, params: Params)
    requires Sane(params) && Good(s, params) && latency >= 0 && StartsInTime(s, StepStart(latency), params)
    ensures Good(Start(s, latency, params), params)
  {
    if !s.started && latency > 0 {
      CapBounded(params.processTime + params.pingMultiplier * latency, params);
      LateStart(s, latency, params);
    }
  }

  ghost predicate Good(s: State, params: Params) { Orderly(s) && Watched(s) && Bounded(s, params) }

  lemma CapBounded(x: nat, params: Params)
    requires Sane(params)
    ensures 0 <= Cap(x, params) <= params.maxTimeout
  {
  }

  lemma LatencyGood(s: State, elapsed: int, params: Params)
    requires Sane(params) && Good(s, params) && elapsed >= 0
    ensures Good(UpdateMessageLatency(s, elapsed, params), params)
  {
    var e := Update(s.ewma, elapsed, params.alpha);
    var hi := if elapsed < s.ewma.latency then s.ewma.latency else elapsed;
    UpdateBetween(s.ewma, elapsed, params.alpha, 0, hi);
    CapBounded(e.latency * params.messageMultiplier, params);
    var s' := s.(ewma := e, timeout := MessageTimeout(e.latency, params));
    CheckExact(s');
  }

  lemma PingGood(s: State, latency: int, params: Params)
    requires Sane(params) && Good(s, params) && latency >= 0
    ensures Good(PingMeasured(s, latency, params), params)
  {
    CapBounded(params.processTime + params.pingMultiplier * latency, params);
    CheckExact(s.(timeout := PingTimeout(latency, params)));
  }

  lemma NextGood(s: State, step: Step, params: Params)
    requires Sane(params) && Good(s, params) && Enabled(s, step) && StartsInTime(s, step, params)
    ensures Good(Next(s, step, params), params)
  {
    match step
    case StepStart(latency) => StartGood(s, latency, params);
    case StepAdd(ks, start) =>
      AddGood(s, ks, start);
      EnqueueOrderly(s, ks, start);
    case StepCancel(ks) => CancelGood(s, ks);
    case StepLatency(elapsed) => LatencyGood(s, elapsed, params);
    case StepPing(latency) => PingGood(s, latency, params);
    case StepConsume => CheckExact(s.(tick := false));
    case _ =>
  }

  predicate Legal(s: State, steps: seq<Step>, params: Params)
    decreases |steps|
  {
    steps == [] ||
    (Enabled(s, steps[0]) && StartsInTime(s, steps[0], params) && Legal(Next(s, steps[0], params), steps[1..], params))
  }

  function Run(s: State, steps: seq<Step>, params: Params): State
    decreases |steps|
  {
    if steps == [] then s else Run(Next(s, steps[0], params), steps[1..], params)
  }

  /** In every reachable state the active wants are exactly the active entries, in send order, each
      is checked no later than it times out, and the timeout is within bounds. */
  lemma {:induction false} RunGood(s: State, steps: seq<Step>, params: Params)
    requires Sane(params) && Good(s, params) && Legal(s, steps, params)
    ensures Good(Run(s, steps, params), params)
    decreases |steps|
  {
    if steps != [] {
      NextGood(s, steps[0], params);
      RunGood(Next(s, steps[0], params), steps[1..], params);
    }
  }

  lemma InitialGood(params: Params, now: int)
    requires Sane(params)
    ensures Good(Initial(params, now), params)
  {
  }

  // ---- reports ----

  /** The wants that a step makes active, and the active wants that it cancels. */
  function Added(s: State, step: Step): set<Want> { if step.StepAdd? then Set(step.ks) - s.active else {} }

  function Cancelled(s: State, step: Step): set<Want> { if step.StepCancel? then Set(step.ks) * s.active else {} }

  /** How often each want was added, cancelled and reported in a run. */
  datatype Totals = Totals(added: multiset<Want>, cancelled: multiset<Want>, reported: multiset<Want>)

  function Tally(s: State, steps: seq<Step>, params: Params): Totals
    decreases |steps|
  {
    if steps == [] then Totals(multiset{}, multiset{}, multiset{})
    else
      var t := Tally(Next(s, steps[0], params), steps[1..], params);
      Totals(multiset(Added(s, steps[0])) + t.added,
             multiset(Cancelled(s, steps[0])) + t.cancelled,
             multiset(Reported(s, steps[0], params)) + t.reported)
  }

  lemma {:induction false} OnceEach(ws: seq<Want>)
    requires forall i, j :: 0 <= i < j < |ws| ==> ws[i] != ws[j]
    ensures multiset(ws) == multiset(Set(ws))
  {
    if ws != [] {
      var n := |ws| - 1;
      OnceEach(ws[..n]);
      assert ws == ws[..n] + [ws[n]];
      assert Set(ws) == Set(ws[..n]) + {ws[n]};
    }
  }

  lemma SetsBalance(active: set<Want>, added: set<Want>, cancelled: set<Want>, reported: set<Want>, left: set<Want>)
    requires added !! active && cancelled <= active + added && reported <= active + added && cancelled !! reported
    requires left == active + added - cancelled - reported
    ensures multiset(active) + multiset(added) == multiset(cancelled) + multiset(reported) + multiset(left)
  {
  }

  /** What a check of `s` reports, in the bookkeeping of sets. */
  lemma ReportedOnce(s: State, expired: seq<Want>)
    requires Orderly(s) && expired == Expired(s)
    ensures multiset(expired) == multiset(Set(expired)) && Check(s).active == s.active - Set(expired) &&
            Set(expired) <= s.active
  {
    CheckExact(s);
    ExpiredExact(s);
    OnceEach(expired);
  }

  /** A step moves wants between the active ones and what it adds, cancels and reports. */
  ghost predicate Moves(s: State, s': State, added: set<Want>, cancelled: set<Want>, reported: seq<Want>) {
    && multiset(reported) == multiset(Set(reported)) && Set(reported) <= s.active + added && cancelled !! Set(reported)
    && s'.active == s.active + added - cancelled - Set(reported)
  }

  lemma CheckMoves(s: State, s': State, expired: seq<Want>)
    requires Orderly(s') && s.active == s'.active && expired == Expired(s')
    ensures Moves(s, Check(s'), {}, {}, expired)
  {
    ReportedOnce(s', expired);
  }

  lemma AddMoves(s: State, ks: seq<Want>, start: int, params: Params)
    requires Orderly(s) && Enabled(s, StepAdd(ks, start))
    ensures Moves(s, AddPending(s, ks, start), Set(ks) - s.active, {}, Reported(s, StepAdd(ks, start), params))
  {
    EnqueueOrderly(s, ks, start);
    if ks != [] && s.active == {} {
      ReportedOnce(Enqueue(s, ks, start), Expired(Enqueue(s, ks, start)));
    } else {
      assert Set([]) == {};
    }
  }

  lemma StepMoves(s: State, step: Step, params: Params)
    requires Orderly(s) && Enabled(s, step)
    ensures Moves(s, Next(s, step, params), Added(s, step), Cancelled(s, step), Reported(s, step, params))
  {
    assert Set([]) == {};
    match step
    case StepAdd(ks, start) => AddMoves(s, ks, start, params);
    case StepLatency(elapsed) =>
      var e := Update(s.ewma, elapsed, params.alpha);
      var s' := s.(ewma := e, timeout := MessageTimeout(e.latency, params));
      CheckMoves(s, s', Expired(s'));
    case StepPing(latency) =>
      var s' := s.(timeout := PingTimeout(latency, params));
      CheckMoves(s, s', Expired(s'));
    case StepConsume =>
      PoppedSame(s, s.(tick := false), s.queue);
      CheckMoves(s, s.(tick := false), Expired(s));
    case _ =>
  }

  lemma {:induction false} PoppedSame(s: State, s': State, queue: seq<Pending>)
    requires s.now == s'.now && s.timeout == s'.timeout
    ensures Popped(s, queue) == Popped(s', queue)
  {
    if queue != [] { PoppedSame(s, s', queue[1..]); }
  }

  lemma MovesBalance(s: State, s': State, added: set<Want>, cancelled: set<Want>, reported: seq<Want>)
    requires Moves(s, s', added, cancelled, reported) && added !! s.active && cancelled <= s.active + added
    ensures multiset(s.active) + multiset(added) == multiset(cancelled) + multiset(reported) + multiset(s'.active)
  {
    SetsBalance(s.active, added, cancelled, Set(reported), s'.active);
  }

  lemma Chained(a: multiset<Want>, ad: multiset<Want>, c: multiset<Want>, r: multiset<Want>, b: multiset<Want>,
                t: Totals, end: multiset<Want>)
    requires a + ad == c + r + b && b + t.added == t.cancelled + t.reported + end
    ensures a + (ad + t.added) == (c + t.cancelled) + (r + t.reported) + end
  {
    forall w ensures (a + (ad + t.added))[w] == ((c + t.cancelled) + (r + t.reported) + end)[w] {
      assert (a + ad)[w] == (c + r + b)[w] && (b + t.added)[w] == (t.cancelled + t.reported + end)[w];
    }
  }

  /** Over a whole run, a want was reported or cancelled exactly as often as it was added, less one
      if it is still active: nothing is reported after it was cancelled, and nothing twice. */
  lemma {:induction false} NothingReportedTwice(s: State, steps: seq<Step>, params: Params)
    requires Sane(params) && Good(s, params) && Legal(s, steps, params)
    ensures var t := Tally(s, steps, params);
            multiset(s.active) + t.added == t.cancelled + t.reported + multiset(Run(s, steps, params).active)
    decreases |steps|
  {
    if steps != [] {
      var step := steps[0];
      var s' := Next(s, step, params);
      NextGood(s, step, params);
      NothingReportedTwice(s', steps[1..], params);
      StepMoves(s, step, params);
      MovesBalance(s, s', Added(s, step), Cancelled(s, step), Reported(s, step, params));
      Chained(multiset(s.active), multiset(Added(s, step)), multiset(Cancelled(s, step)),
              multiset(Reported(s, step, params)),
              multiset(s'.active), Tally(s', steps[1..], params), multiset(Run(s, steps, params).active));
    }
  }

  // ---- prompt checks ----

  predicate CheckDue(s: State) { s.tick || (s.timer.Some? && s.timer.value < s.now) }

  /** While a check is due time does not pass, and the manager is not started with wants active. */
  predicate Prompt(s: State, step: Step) {
    && (step.StepAdvance? ==> !s.tick && (s.timer.Some? ==> step.to <= s.timer.value))
    && (step.StepStart? && !s.started && s.active != {} ==> !CheckDue(s))
  }

  predicate AllPrompt(s: State, steps: seq<Step>, params: Params)
    decreases |steps|
  {
    steps == [] || (Prompt(s, steps[0]) && AllPrompt(Next(s, steps[0], params), steps[1..], params))
  }

  /** No want is active for longer than the timeout. */
  predicate NoneOverdue(s: State) { forall e :: e in s.queue && e.active ==> s.now <= e.sent + s.timeout }

  lemma CheckNotOverdue(s: State)
    requires Orderly(s)
    ensures NoneOverdue(Check(s))
  {
    PoppedCut(s);
  }

  lemma {:induction false} EnqueueNotOverdue(s: State, ks: seq<Want>, start: int)
    requires NoneOverdue(s) && s.now <= start + s.timeout
    ensures NoneOverdue(Enqueue(s, ks, start))
    decreases |ks|
  {
    if ks != [] {
      if ks[0] in s.active {
        EnqueueNotOverdue(s, ks[1..], start);
      } else {
        EnqueueNotOverdue(s.(queue := s.queue + [Pending(ks[0], start, true)], active := s.active + {ks[0]}), ks[1..],
                          start);
      }
    }
  }

  lemma StartNotOverdue(s: State, latency: int, params: Params)
    requires Good(s, params) && NoneOverdue(s) && latency >= 0 && StartsInTime(s, StepStart(latency), params)
    requires Prompt(s, StepStart(latency))
    ensures NoneOverdue(Start(s, latency, params))
  {
    if !s.started && latency > 0 {
      LateStart(s, latency, params);
      var s' := Start(s, latency, params);
      forall e | e in s'.queue && e.active ensures s'.now <= e.sent + s'.timeout {
        assert CheckedInTime(s', e) && e.want in ActiveSet(s.queue);
      }
    }
  }

  lemma NextNotOverdue(s: State, step: Step, params: Params)
    requires Sane(params) && Good(s, params) && NoneOverdue(s) && Enabled(s, step) && StartsInTime(s, step, params) &&
             Prompt(s, step)
    ensures NoneOverdue(Next(s, step, params))
  {
    match step
    case StepStart(latency) => StartNotOverdue(s, latency, params);
    case StepAdd(ks, start) =>
      EnqueueOrderly(s, ks, start);
      if ks != [] && s.active == {} {
        CheckNotOverdue(Enqueue(s, ks, start));
      } else if s.active != {} {
        var w :| w in s.active;
        var e :| e in s.queue && e.active && e.want == w;
        assert s.now <= e.sent + s.timeout;
        EnqueueNotOverdue(s, ks, start);
      }
    case StepCancel(ks) => DeactivateMembers(s.queue, Set(ks));
    case StepLatency(elapsed) =>
      var e := Update(s.ewma, elapsed, params.alpha);
      CheckNotOverdue(s.(ewma := e, timeout := MessageTimeout(e.latency, params)));
    case StepPing(latency) => CheckNotOverdue(s.(timeout := PingTimeout(latency, params)));
    case StepConsume => CheckNotOverdue(s.(tick := false));
    case StepAdvance(to) =>
      forall e | e in s.queue && e.active ensures to <= e.sent + s.timeout {
        assert CheckedInTime(s, e);
      }
    case _ =>
  }

  /** If checks happen when they are due, no want is ever active for longer than the timeout. */
  lemma {:induction false} NeverOverdue(s: State, steps: seq<Step>, params: Params)
    requires Sane(params) && Good(s, params) && NoneOverdue(s) && Legal(s, steps, params) && AllPrompt(s, steps, params)
    ensures NoneOverdue(Run(s, steps, params))
    decreases |steps|
  {
    if steps != [] {
      NextGood(s, steps[0], params);
      NextNotOverdue(s, steps[0], params);
      NeverOverdue(Next(s, steps[0], params), steps[1..], params);
    }
  }

  // ---- starting late ----

  /** A want that is added before a late start can be left without a check in time. */
  lemma LateStartUnwatched(w: Want)
    ensures var s := Next(Initial(PARAMS, 0), StepAdd([w], 0), PARAMS);
            Good(s, PARAMS) && !Watched(Next(s, StepStart(1), PARAMS))
  {
    var s0 := Initial(PARAMS, 0);
    var e := Pending(w, 0, true);
    InitialGood(PARAMS, 0);
    NextGood(s0, StepAdd([w], 0), PARAMS);
    var s1 := Enqueue(s0, [w], 0);
    assert Enqueue(s0.(queue := s0.queue + [e], active := s0.active + {w}), [w][1..], 0) == s1;
    assert s1.queue == [e] && Popped(s1, s1.queue) == 0;
    var s := Next(s0, StepAdd([w], 0), PARAMS);
    assert s.queue == [e] && s.timer == Some(5 * SECOND);
    var s' := Next(s, StepStart(1), PARAMS);
    assert e in s'.queue && !CheckedInTime(s', e);
  }
}
