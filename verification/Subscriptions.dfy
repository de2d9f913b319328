/**
 Callback subscriptions: many bounded queues of events, one bounded queue of
 subscriptions, four workers. A worker's turn is two locked sections with the
 user's callback between them, so any other step may come in between.
 */
module Subscriptions {

  import opened Wrappers

  const QUEUE_LIMIT := 256
  const PENDING_LIMIT := 64
  const WORKERS := 4

  /** A notification; index is its place among the offers its subscription accepted. */
  datatype Event = Event(index: nat, payload: int)

  /** What a subscription's lock protects. */
  datatype Sub = Sub(pending: seq<Event>, scheduled: bool, closed: bool, dropped: nat, failures: nat)

  type Queue = seq<nat>

  // ----- The locked sections, as functions -----

  /** Hand the subscription to the workers, or give its events up when their queue is full. */
  function Scheduled(s: Sub, id: nat, queue: Queue): (Sub, Queue) {
    if |queue| < QUEUE_LIMIT then (s.(scheduled := true), queue + [id])
    else (s.(pending := [], dropped := s.dropped + |s.pending|), queue)
  }

  function Offered(s: Sub, id: nat, queue: Queue, event: Event): (Sub, Queue) {
    if s.closed then (s, queue)
    else
      var full := |s.pending| == PENDING_LIMIT;
      var kept := if full then s.pending[1..] else s.pending;
      var t := s.(pending := kept + [event], dropped := s.dropped + if full then 1 else 0);
      if t.scheduled then (t, queue) else Scheduled(t, id, queue)
  }

  function Begun(s: Sub): (Sub, Option<Event>) {
    if s.closed || s.pending == [] then (s.(scheduled := false), None)
    else (s.(pending := s.pending[1..]), Some(s.pending[0]))
  }

  function Ended(s: Sub, id: nat, queue: Queue, failed: bool): (Sub, Queue) {
    var t := s.(scheduled := false, failures := s.failures + if failed then 1 else 0);
    if t.pending != [] && !t.closed then Scheduled(t, id, queue) else (t, queue)
  }

  function Closed(s: Sub): Sub {
    s.(closed := true, dropped := s.dropped + |s.pending|, pending := [])
  }

  /** The bounded queue the workers take subscriptions from. */
  class CallbackQueue {
    var items: Queue

    constructor ()
      ensures items == []
    {
      items := [];
    }

    method PutNowait(id: nat) returns (full: bool)
      modifies this
      ensures full <==> old(|items|) >= QUEUE_LIMIT
      ensures items == if full then old(items) else old(items) + [id]
    {
      full := |items| >= QUEUE_LIMIT;
      if !full {
        items := items + [id];
      }
    }
  }

  /** One subscriber: what waits for it, in order, and whether a worker is due. */
  class Subscription {
    const id: nat
    var pending: seq<Event>
    var scheduled: bool
    var closed: bool
    var dropped: nat
    var failures: nat

    constructor (id: nat)
      ensures this.id == id && State() == Sub([], false, false, 0, 0)
    {
      this.id := id;
      pending, scheduled, closed, dropped, failures := [], false, false, 0, 0;
    }

    function State(): Sub
      reads this
    {
      Sub(pending, scheduled, closed, dropped, failures)
    }

    method Close()
      modifies this
      ensures State() == Closed(old(State()))
    {
      closed := true;
      dropped := dropped + |pending|;
      pending := [];
    }

    method Offer(queue: CallbackQueue, event: Event)
      modifies this, queue
      ensures (State(), queue.items) == Offered(old(State()), id, old(queue.items), event)
    {
      if closed {
        return;
      }
      if |pending| == PENDING_LIMIT {
        dropped := dropped + 1;
        pending := pending[1..];
      }
      pending := pending + [event];
      if !scheduled {
        Schedule(queue);
      }
    }

    method Schedule(queue: CallbackQueue)
      requires !scheduled
      modifies this, queue
      ensures (State(), queue.items) == Scheduled(old(State()), id, old(queue.items))
    {
      var full := queue.PutNowait(id);
      if full {
        dropped := dropped + |pending|;
        pending := [];
      } else {
        scheduled := true;
      }
    }

    /** The first locked section of a turn: the event to call back with, if any. */
    method Begin() returns (event: Option<Event>)
      modifies this
      ensures (State(), event) == Begun(old(State()))
    {
      if closed || pending == [] {
        scheduled := false;
        return None;
      }
      event := Some(pending[0]);
      pending := pending[1..];
    }

    /** What follows the callback, whether or not it raised. */
    method End(queue: CallbackQueue, failed: bool)
      modifies this, queue
      ensures (State(), queue.items) == Ended(old(State()), id, old(queue.items), failed)
    {
      if failed {
        failures := failures + 1;
      }
      scheduled := false;
      if pending != [] && !closed {
        Schedule(queue);
      }
    }
  }

  // ----- All subscriptions and workers together -----

  datatype Worker = Idle | Claimed(id: nat) | Calling(id: nat, event: Event)

  /** What one subscription has been offered and what became of it. */
  datatype Log = Log(offers: seq<int>, begun: seq<Event>, delivered: seq<Event>, lost: set<nat>)

  datatype System = System(subs: map<nat, Sub>, logs: map<nat, Log>, queue: Queue, workers: seq<Worker>)

  datatype Action =
    | Subscribe(id: nat)
    | Offer(id: nat, payload: int)
    | Close(id: nat)
    | Get(worker: nat)
    | Begin(worker: nat)
    | End(worker: nat, failed: bool)

  predicate Enabled(y: System, a: Action) {
    match a
    case Subscribe(id) => id !in y.subs
    case Offer(id, _) => id in y.subs && id in y.logs
    case Close(id) => id in y.subs && id in y.logs
    case Get(w) => w < |y.workers| && y.workers[w].Idle? && y.queue != []
    case Begin(w) =>
      w < |y.workers| && y.workers[w].Claimed? && y.workers[w].id in y.subs && y.workers[w].id in y.logs
    case End(w, _) =>
      w < |y.workers| && y.workers[w].Calling? && y.workers[w].id in y.subs && y.workers[w].id in y.logs
  }

  function Indices(events: seq<Event>): set<nat> {
    set i | 0 <= i < |events| :: events[i].index
  }

  /** An accepted offer is logged, and every event that left pending unbegun is lost. */
  function Noted(log: Log, payload: Option<int>, before: seq<Event>, after: seq<Event>): Log {
    var offers := if payload.Some? then log.offers + [payload.value] else log.offers;
    var known := Indices(before) + if payload.Some? then {|log.offers|} else {};
    log.(offers := offers, lost := log.lost + (known - Indices(after)))
  }

  function Step(y: System, a: Action): System
    requires Enabled(y, a)
  {
    match a
    case Subscribe(id) =>
      y.(subs := y.subs[id := Sub([], false, false, 0, 0)], logs := y.logs[id := Log([], [], [], {})])
    case Offer(id, payload) =>
      var (s, log) := (y.subs[id], y.logs[id]);
      var (t, queue) := Offered(s, id, y.queue, Event(|log.offers|, payload));
      var accepted := if s.closed then None else Some(payload);
      y.(subs := y.subs[id := t], logs := y.logs[id := Noted(log, accepted, s.pending, t.pending)], queue := queue)
    case Close(id) =>
      var s := y.subs[id];
      y.(subs := y.subs[id := Closed(s)], logs := y.logs[id := Noted(y.logs[id], None, s.pending, [])])
    case Get(w) =>
      y.(queue := y.queue[1..], workers := y.workers[w := Claimed(y.queue[0])])
    case Begin(w) =>
      var id := y.workers[w].id;
      var (t, event) := Begun(y.subs[id]);
      var log := y.logs[id];
      if event.None? then y.(subs := y.subs[id := t], workers := y.workers[w := Idle])
      else
        y.(subs := y.subs[id := t], logs := y.logs[id := log.(begun := log.begun + [event.value])],
           workers := y.workers[w := Calling(id, event.value)])
    case End(w, failed) =>
      var (id, event) := (y.workers[w].id, y.workers[w].event);
      var (t, queue) := Ended(y.subs[id], id, y.queue, failed);
      var log := y.logs[id].(delivered := y.logs[id].delivered + [event]);
      y.(subs := y.subs[id := t], logs := y.logs[id := Noted(log, None, y.subs[id].pending, t.pending)],
         queue := queue, workers := y.workers[w := Idle])
  }

  // ----- The invariant -----

  /** How often a subscription is queued. */
  function Queued(queue: Queue, id: nat): nat {
    if queue == [] then 0 else Queued(queue[..|queue| - 1], id) + if queue[|queue| - 1] == id then 1 else 0
  }

  predicate Holds(w: Worker, id: nat) {
    !w.Idle? && w.id == id
  }

  /** How many workers have a subscription claimed or are calling it back. */
  function Held(workers: seq<Worker>, id: nat): nat {
    if workers == [] then 0
    else Held(workers[..|workers| - 1], id) + if Holds(workers[|workers| - 1], id) then 1 else 0
  }

  function Tokens(y: System, id: nat): nat {
    Queued(y.queue, id) + Held(y.workers, id)
  }

  /** Each accepted offer is begun, pending or lost, exactly one of them, and none changes places. */
  ghost predicate Accounted(log: Log, pending: seq<Event>) {
    var kept := log.begun + pending;
    && (forall i, j | 0 <= i < j < |kept| :: kept[i].index < kept[j].index)
    && (forall i | 0 <= i < |kept| ::
          && kept[i].index < |log.offers| && kept[i].payload == log.offers[kept[i].index]
          && kept[i].index !in log.lost)
    && (forall n | n in log.lost :: n < |log.offers|)
    && |kept| + |log.lost| == |log.offers|
  }

  ghost predicate SubOk(s: Sub, log: Log, tokens: nat) {
    && tokens == (if s.scheduled then 1 else 0)
    && |s.pending| <= PENDING_LIMIT
    && (s.pending != [] ==> s.scheduled && !s.closed)
    && Accounted(log, s.pending)
    && s.dropped == |log.lost|
    && s.failures <= |log.delivered|
  }

  predicate Calls(w: Worker, id: nat) {
    w.Calling? && w.id == id
  }

  /** A begun event is delivered, or it is the one its subscription's worker is calling back with. */
  ghost predicate InFlight(workers: seq<Worker>, id: nat, log: Log) {
    && (forall w | 0 <= w < |workers| && Calls(workers[w], id) :: log.begun == log.delivered + [workers[w].event])
    && ((forall w | 0 <= w < |workers| :: !Calls(workers[w], id)) ==> log.begun == log.delivered)
  }

  ghost predicate One(y: System, id: nat) {
    && id in y.subs && id in y.logs
    && SubOk(y.subs[id], y.logs[id], Tokens(y, id))
    && InFlight(y.workers, id, y.logs[id])
  }

  ghost predicate Inv(y: System) {
    && y.subs.Keys == y.logs.Keys
    && |y.queue| <= QUEUE_LIMIT && |y.workers| == WORKERS
    && (forall i | 0 <= i < |y.queue| :: y.queue[i] in y.subs)
    && (forall w | 0 <= w < |y.workers| && !y.workers[w].Idle? :: y.workers[w].id in y.subs)
    && (forall id | id in y.subs :: One(y, id))
  }

  // ----- Keeping account -----

  /** Giving up the oldest pending event. */
  lemma LoseFirst(log: Log, pending: seq<Event>)
    requires Accounted(log, pending) && pending != []
    ensures Accounted(log.(lost := log.lost + {pending[0].index}), pending[1..])
    ensures pending[0].index !in log.lost
  {
    var kept, after := log.begun + pending, log.begun + pending[1..];
    var b := |log.begun|;
    assert kept[b] == pending[0];
    forall i | 0 <= i < |after|
      ensures after[i] == kept[if i < b then i else i + 1]
    {
    }
  }

  lemma {:induction false} LoseAll(log: Log, pending: seq<Event>)
    requires Accounted(log, pending)
    ensures var next := log.(lost := log.lost + Indices(pending));
      Accounted(next, []) && |next.lost| == |log.lost| + |pending|
    decreases |pending|
  {
    if pending == [] {
      assert log.lost + Indices(pending) == log.lost;
    } else {
      LoseFirst(log, pending);
      var once := log.(lost := log.lost + {pending[0].index});
      LoseAll(once, pending[1..]);
      FirstIndex(pending);
      hide Indices, Accounted;
      assert once.lost + Indices(pending[1..]) == log.lost + Indices(pending);
    }
  }

  lemma FirstIndex(pending: seq<Event>)
    requires pending != []
    ensures Indices(pending) == {pending[0].index} + Indices(pending[1..])
  {
    assert forall i | 0 < i < |pending| :: pending[i] == pending[1..][i - 1];
    assert forall i | 0 <= i < |pending| - 1 :: pending[1..][i] == pending[i + 1];
  }

  lemma AcceptOne(log: Log, pending: seq<Event>, payload: int)
    requires Accounted(log, pending)
    ensures Accounted(log.(offers := log.offers + [payload]), pending + [Event(|log.offers|, payload)])
  {
    var kept := log.begun + pending;
    assert log.begun + (pending + [Event(|log.offers|, payload)]) == kept + [Event(|log.offers|, payload)];
  }

  lemma PendingIndices(log: Log, pending: seq<Event>, i: nat)
    requires Accounted(log, pending) && i < |pending|
    ensures pending[i].index !in log.lost && pending[i].index < |log.offers|
    ensures forall j | i < j < |pending| :: pending[i].index < pending[j].index
  {
    var kept := log.begun + pending;
    assert kept[|log.begun| + i] == pending[i];
    assert forall j | i < j < |pending| :: kept[|log.begun| + j] == pending[j];
  }

  // ----- Each locked section keeps one subscription's account -----

  /** The queue is as it was, or one token of the subscription longer. */
  predicate Grew(before: Queue, after: Queue, id: nat) {
    after == before || (after == before + [id] && |before| < QUEUE_LIMIT)
  }

  lemma OfferKeeps(s: Sub, log: Log, id: nat, queue: Queue, payload: int, tokens: nat)
    requires SubOk(s, log, tokens)
    ensures var (t, after) := Offered(s, id, queue, Event(|log.offers|, payload));
      var accepted := if s.closed then None else Some(payload);
      var next := Noted(log, accepted, s.pending, t.pending);
      && Grew(queue, after, id) && SubOk(t, next, tokens + |after| - |queue|)
      && next.begun == log.begun && next.delivered == log.delivered
  {
    hide Accounted, Indices;
    if s.closed {
      assert Noted(log, None, s.pending, s.pending) == log;
    } else if |s.pending| == PENDING_LIMIT {
      OfferFull(s, log, payload, tokens);
    } else {
      AcceptOne(log, s.pending, payload);
      OfferPlain(s, log, payload);
    }
  }

  lemma OfferFull(s: Sub, log: Log, payload: int, tokens: nat)
    requires SubOk(s, log, tokens) && |s.pending| == PENDING_LIMIT
    ensures var grown := s.pending[1..] + [Event(|log.offers|, payload)];
      var next := Noted(log, Some(payload), s.pending, grown);
      Accounted(next, grown) && |next.lost| == |log.lost| + 1
  {
    hide Accounted, Indices;
    var event := Event(|log.offers|, payload);
    var accepted := log.(offers := log.offers + [payload]);
    var grown := s.pending + [event];
    AcceptOne(log, s.pending, payload);
    IndicesConcat(s.pending, [event]);
    IndicesOne(event);
    LoseFirst(accepted, grown);
    OldestOnly(accepted, grown);
    assert grown[1..] == s.pending[1..] + [event];
    assert Noted(log, Some(payload), s.pending, grown[1..]) == accepted.(lost := accepted.lost + {grown[0].index});
  }

  /** Room for the event: it is pending, or with nobody to tell it is lost at once. */
  lemma OfferPlain(s: Sub, log: Log, payload: int)
    requires Accounted(log, s.pending)
    ensures var event := Event(|log.offers|, payload);
      var next := Noted(log, Some(payload), s.pending, s.pending + [event]);
      && Accounted(next, s.pending + [event]) && next.lost == log.lost
      && (s.pending == [] ==>
            var lost := Noted(log, Some(payload), [], []); Accounted(lost, []) && |lost.lost| == |log.lost| + 1)
  {
    hide Accounted, Indices;
    var event := Event(|log.offers|, payload);
    var accepted := log.(offers := log.offers + [payload]);
    AcceptOne(log, s.pending, payload);
    IndicesConcat(s.pending, [event]);
    IndicesOne(event);
    assert Noted(log, Some(payload), s.pending, s.pending + [event]) == accepted;
    if s.pending == [] {
      assert [] + [event] == [event];
      LoseAll(accepted, [event]);
      assert Noted(log, Some(payload), [], []) == accepted.(lost := accepted.lost + {event.index});
    }
  }

  lemma IndicesOne(event: Event)
    ensures Indices([event]) == {event.index} && Indices([]) == {}
  {
    assert [event][0] == event;
  }

  lemma IndicesConcat(a: seq<Event>, b: seq<Event>)
    ensures Indices(a + b) == Indices(a) + Indices(b)
  {
    forall n
      ensures n in Indices(a + b) <==> n in Indices(a) + Indices(b)
    {
      if n in Indices(a) {
        var i :| 0 <= i < |a| && a[i].index == n;
        assert (a + b)[i].index == n;
      }
      if n in Indices(b) {
        var i :| 0 <= i < |b| && b[i].index == n;
        assert (a + b)[|a| + i].index == n;
      }
    }
  }

  lemma OldestOnly(log: Log, pending: seq<Event>)
    requires Accounted(log, pending) && pending != []
    ensures Indices(pending) - Indices(pending[1..]) == {pending[0].index}
  {
    PendingIndices(log, pending, 0);
    assert pending == [pending[0]] + pending[1..];
    IndicesConcat([pending[0]], pending[1..]);
    assert Indices([pending[0]]) == {pending[0].index};
  }

  lemma CloseKeeps(s: Sub, log: Log, tokens: nat)
    requires SubOk(s, log, tokens)
    ensures var next := Noted(log, None, s.pending, []);
      SubOk(Closed(s), next, tokens) && next.begun == log.begun && next.delivered == log.delivered
  {
    LoseAll(log, s.pending);
    assert Noted(log, None, s.pending, []).lost == log.lost + Indices(s.pending);
  }

  lemma BeginKeeps(s: Sub, log: Log, tokens: nat)
    requires SubOk(s, log, tokens) && tokens > 0
    ensures var (t, event) := Begun(s);
      if event.None? then SubOk(t, log, tokens - 1)
      else SubOk(t, log.(begun := log.begun + [event.value]), tokens)
  {
    if !s.closed && s.pending != [] {
      assert (log.begun + [s.pending[0]]) + s.pending[1..] == log.begun + s.pending;
    }
  }

  lemma EndKeeps(s: Sub, log: Log, id: nat, queue: Queue, failed: bool, event: Event, tokens: nat)
    requires SubOk(s, log, tokens) && tokens > 0
    ensures var (t, after) := Ended(s, id, queue, failed);
      var next := Noted(log.(delivered := log.delivered + [event]), None, s.pending, t.pending);
      && Grew(queue, after, id) && SubOk(t, next, tokens - 1 + |after| - |queue|)
      && next.begun == log.begun && next.delivered == log.delivered + [event]
  {
    var (t, after) := Ended(s, id, queue, failed);
    var done := log.(delivered := log.delivered + [event]);
    var next := Noted(done, None, s.pending, t.pending);
    if t.pending == s.pending {
      assert next.lost == log.lost;
    } else {
      LoseAll(done, s.pending);
      assert next.lost == log.lost + Indices(s.pending);
    }
  }

  // ----- Tokens -----

  lemma QueuedAppend(queue: Queue, x: nat, id: nat)
    ensures Queued(queue + [x], id) == Queued(queue, id) + if x == id then 1 else 0
  {
    assert (queue + [x])[..|queue|] == queue;
  }

  lemma {:induction false} QueuedTake(queue: Queue, id: nat)
    requires queue != []
    ensures Queued(queue, id) == Queued(queue[1..], id) + if queue[0] == id then 1 else 0
  {
    var n := |queue| - 1;
    if n > 0 {
      QueuedTake(queue[..n], id);
      assert queue[..n][1..] == queue[1..][..n - 1];
    }
  }

  lemma {:induction false} QueuedIn(queue: Queue, id: nat)
    ensures id in queue <==> Queued(queue, id) > 0
  {
    if queue != [] {
      QueuedIn(queue[..|queue| - 1], id);
      assert queue == queue[..|queue| - 1] + [queue[|queue| - 1]];
    }
  }

  lemma {:induction false} HeldUpdate(workers: seq<Worker>, w: nat, x: Worker, id: nat)
    requires w < |workers|
    ensures Held(workers[w := x], id) + (if Holds(workers[w], id) then 1 else 0)
         == Held(workers, id) + if Holds(x, id) then 1 else 0
  {
    var n := |workers| - 1;
    assert workers[w := x][..n] == if w < n then workers[..n][w := x] else workers[..n];
    if w < n {
      HeldUpdate(workers[..n], w, x, id);
    }
  }

  lemma {:induction false} HeldNone(workers: seq<Worker>, id: nat)
    ensures (forall w | 0 <= w < |workers| :: !Holds(workers[w], id)) <==> Held(workers, id) == 0
  {
    if workers != [] {
      var n := |workers| - 1;
      HeldNone(workers[..n], id);
      assert forall w | 0 <= w < n :: workers[..n][w] == workers[w];
    }
  }

  /** A subscription with one token and a worker that holds it is held by no other, nor queued. */
  lemma HeldOnce(workers: seq<Worker>, w: nat, id: nat)
    requires w < |workers| && Holds(workers[w], id) && Held(workers, id) <= 1
    ensures forall v | 0 <= v < |workers| && v != w :: !Holds(workers[v], id)
  {
    var after := workers[w := Idle];
    HeldUpdate(workers, w, Idle, id);
    HeldNone(after, id);
    assert forall v | 0 <= v < |workers| && v != w :: after[v] == workers[v];
  }

  // ----- Every step keeps the invariant -----

  /** A step touches one subscription, its log, the queue and one worker. */
  function Touched(y: System, id: nat, t: Sub, log: Log, queue: Queue, w: nat, x: Worker): System
    requires w < |y.workers|
  {
    System(y.subs[id := t], y.logs[id := log], queue, y.workers[w := x])
  }

  lemma InFlightOther(workers: seq<Worker>, w: nat, x: Worker, id: nat, log: Log)
    requires w < |workers| && !Calls(workers[w], id) && !Calls(x, id) && InFlight(workers, id, log)
    ensures InFlight(workers[w := x], id, log)
  {
    var after := workers[w := x];
    assert forall v | 0 <= v < |workers| :: Calls(after[v], id) <==> Calls(workers[v], id);
  }

  lemma OtherKeeps(y: System, id: nat, t: Sub, log: Log, queue: Queue, w: nat, x: Worker, other: nat)
    requires One(y, other) && other != id && w < |y.workers|
    requires Queued(queue, other) == Queued(y.queue, other)
    requires !Holds(y.workers[w], other) && !Holds(x, other)
    ensures One(Touched(y, id, t, log, queue, w, x), other)
  {
    hide SubOk, InFlight, Queued, Held;
    HeldUpdate(y.workers, w, x, other);
    InFlightOther(y.workers, w, x, other, y.logs[other]);
  }

  lemma TouchedKeeps(y: System, id: nat, t: Sub, log: Log, queue: Queue, w: nat, x: Worker)
    requires Inv(y) && id in y.subs && w < WORKERS
    requires (y.workers[w].Idle? || y.workers[w].id == id) && (x.Idle? || x.id == id)
    requires |queue| <= QUEUE_LIMIT && forall i | 0 <= i < |queue| :: queue[i] in y.queue || queue[i] == id
    requires forall i: nat | i != id :: Queued(queue, i) == Queued(y.queue, i)
    requires One(Touched(y, id, t, log, queue, w, x), id)
    ensures Inv(Touched(y, id, t, log, queue, w, x))
  {
    hide One, Queued, Held;
    var z := Touched(y, id, t, log, queue, w, x);
    forall i | i in z.subs
      ensures One(z, i)
    {
      if i != id {
        OtherKeeps(y, id, t, log, queue, w, x, i);
      }
    }
  }

  lemma GrewQueued(before: Queue, after: Queue, id: nat)
    requires Grew(before, after, id) && |before| <= QUEUE_LIMIT
    ensures |after| <= QUEUE_LIMIT && forall i | 0 <= i < |after| :: after[i] in before || after[i] == id
    ensures forall i: nat :: Queued(after, i) == Queued(before, i) + if i == id then |after| - |before| else 0
  {
    hide Queued;
    forall i: nat
      ensures Queued(after, i) == Queued(before, i) + if i == id then |after| - |before| else 0
    {
      QueuedAppend(before, id, i);
    }
  }

  /** A step on one subscription that moves no worker. */
  lemma UnmovedKeeps(y: System, id: nat, t: Sub, log: Log, queue: Queue)
    requires Inv(y) && id in y.subs && Grew(y.queue, queue, id)
    requires SubOk(t, log, Tokens(y, id) + |queue| - |y.queue|)
    requires log.begun == y.logs[id].begun && log.delivered == y.logs[id].delivered
    ensures Inv(System(y.subs[id := t], y.logs[id := log], queue, y.workers))
  {
    var z := System(y.subs[id := t], y.logs[id := log], queue, y.workers);
    GrewQueued(y.queue, queue, id);
    assert One(y, id);
    InFlightSame(y.workers, id, y.logs[id], log);
    hide SubOk, InFlight, Queued, Held, Grew;
    IsOne(z, id);
    hide One, Tokens;
    forall i | i in z.subs && i != id
      ensures One(z, i)
    {
      OneApart(y, z, i);
    }
  }

  lemma OneApart(y: System, z: System, i: nat)
    requires One(y, i) && z.workers == y.workers && Queued(z.queue, i) == Queued(y.queue, i)
    requires i in z.subs && i in z.logs && z.subs[i] == y.subs[i] && z.logs[i] == y.logs[i]
    ensures One(z, i)
  {
    hide SubOk, InFlight, Queued, Held;
  }

  lemma InFlightSame(workers: seq<Worker>, id: nat, log: Log, next: Log)
    requires InFlight(workers, id, log) && next.begun == log.begun && next.delivered == log.delivered
    ensures InFlight(workers, id, next)
  {
  }

  lemma OfferStep(y: System, a: Action)
    requires Inv(y) && Enabled(y, a) && a.Offer?
    ensures Inv(Step(y, a))
  {
    var s, log := y.subs[a.id], y.logs[a.id];
    assert One(y, a.id);
    OfferKeeps(s, log, a.id, y.queue, a.payload, Tokens(y, a.id));
    hide SubOk, Noted, Offered, Tokens, Grew, Inv;
    var (t, queue) := Offered(s, a.id, y.queue, Event(|log.offers|, a.payload));
    var next := Noted(log, if s.closed then None else Some(a.payload), s.pending, t.pending);
    UnmovedKeeps(y, a.id, t, next, queue);
  }

  lemma CloseStep(y: System, id: nat)
    requires Inv(y) && Enabled(y, Close(id))
    ensures Inv(Step(y, Close(id)))
  {
    var s, log := y.subs[id], y.logs[id];
    assert One(y, id);
    CloseKeeps(s, log, Tokens(y, id));
    hide SubOk, Noted, Closed, Tokens, Inv;
    UnmovedKeeps(y, id, Closed(s), Noted(log, None, s.pending, []), y.queue);
  }

  lemma GetStep(y: System, w: nat)
    requires Inv(y) && Enabled(y, Get(w))
    ensures Inv(Step(y, Get(w)))
  {
    var z, id := Step(y, Get(w)), y.queue[0];
    assert One(y, id);
    assert z == Touched(y, id, y.subs[id], y.logs[id], y.queue[1..], w, Claimed(id));
    hide SubOk, Queued, Held, InFlight;
    forall i: nat
      ensures Queued(y.queue, i) == Queued(z.queue, i) + if i == id then 1 else 0
    {
      QueuedTake(y.queue, i);
    }
    HeldUpdate(y.workers, w, Claimed(id), id);
    InFlightOther(y.workers, w, Claimed(id), id, y.logs[id]);
    TouchedKeeps(y, id, y.subs[id], y.logs[id], y.queue[1..], w, Claimed(id));
  }

  /** A worker that holds a subscription is the only one, and the subscription is not queued. */
  lemma OnlyHolder(y: System, w: nat, id: nat)
    requires Inv(y) && w < |y.workers| && Holds(y.workers[w], id)
    ensures id in y.subs && Tokens(y, id) == Held(y.workers, id) == 1 && id !in y.queue
    ensures forall v | 0 <= v < |y.workers| && v != w :: !Holds(y.workers[v], id)
  {
    assert One(y, id);
    assert Tokens(y, id) <= 1;
    hide Queued, Held, Accounted;
    HeldNone(y.workers, id);
    HeldOnce(y.workers, w, id);
    QueuedIn(y.queue, id);
  }

  lemma BeginStep(y: System, w: nat)
    requires Inv(y) && Enabled(y, Begin(w))
    ensures Inv(Step(y, Begin(w)))
  {
    var z, id := Step(y, Begin(w)), y.workers[w].id;
    var x := z.workers[w];
    assert One(y, id);
    OnlyHolder(y, w, id);
    BeginKeeps(y.subs[id], y.logs[id], Tokens(y, id));
    HeldUpdate(y.workers, w, x, id);
    hide SubOk, Queued, Held, Inv;
    var (t, event) := Begun(y.subs[id]);
    assert x == if event.None? then Idle else Calling(id, event.value);
    assert z.subs[id] == t;
    assert z.logs[id] == if event.None? then y.logs[id] else y.logs[id].(begun := y.logs[id].begun + [event.value]);
    hide Begun;
    assert z == Touched(y, id, z.subs[id], z.logs[id], y.queue, w, x);
    hide Step, Enabled;
    BeginInFlight(y.workers, w, x, id, y.logs[id], z.logs[id]);
    hide InFlight, One, Step;
    IsOne(z, id);
    TouchedKeeps(y, id, z.subs[id], z.logs[id], y.queue, w, x);
  }

  /** The one holder of a subscription starts its callback, or lets it go. */
  lemma BeginInFlight(workers: seq<Worker>, w: nat, x: Worker, id: nat, log: Log, next: Log)
    requires w < |workers| && workers[w] == Claimed(id) && InFlight(workers, id, log)
    requires forall v | 0 <= v < |workers| && v != w :: !Holds(workers[v], id)
    requires (x.Idle? && next == log)
          || (x.Calling? && x.id == id && next == log.(begun := log.begun + [x.event]))
    ensures InFlight(workers[w := x], id, next)
  {
    assert forall v | 0 <= v < |workers| :: !Calls(workers[v], id);
    var after := workers[w := x];
    assert forall v | 0 <= v < |workers| && v != w :: after[v] == workers[v];
    assert after[w] == x;
  }

  lemma EndStep(y: System, w: nat, failed: bool)
    requires Inv(y) && Enabled(y, End(w, failed))
    ensures Inv(Step(y, End(w, failed)))
  {
    var z, id, event := Step(y, End(w, failed)), y.workers[w].id, y.workers[w].event;
    assert One(y, id);
    OnlyHolder(y, w, id);
    EndKeeps(y.subs[id], y.logs[id], id, y.queue, failed, event, Tokens(y, id));
    HeldUpdate(y.workers, w, Idle, id);
    hide SubOk, Queued, Held, Ended, Noted;
    assert z == Touched(y, id, z.subs[id], z.logs[id], z.queue, w, Idle);
    EndInFlight(y.workers, w, id, event, y.logs[id], z.logs[id]);
    GrewQueued(y.queue, z.queue, id);
    hide InFlight, One, Step, Grew;
    IsOne(z, id);
    TouchedKeeps(y, id, z.subs[id], z.logs[id], z.queue, w, Idle);
  }

  lemma EndInFlight(workers: seq<Worker>, w: nat, id: nat, event: Event, log: Log, next: Log)
    requires w < |workers| && workers[w] == Calling(id, event) && InFlight(workers, id, log)
    requires forall v | 0 <= v < |workers| && v != w :: !Holds(workers[v], id)
    requires next.begun == log.begun && next.delivered == log.delivered + [event]
    ensures InFlight(workers[w := Idle], id, next)
  {
    assert Calls(workers[w], id);
    var after := workers[w := Idle];
    assert forall v | 0 <= v < |workers| && v != w :: after[v] == workers[v];
  }

  lemma SubscribeStep(y: System, id: nat)
    requires Inv(y) && Enabled(y, Subscribe(id))
    ensures Inv(Step(y, Subscribe(id)))
  {
    var z := Step(y, Subscribe(id));
    SubscribeOne(y, id);
    assert z.queue == y.queue && z.workers == y.workers;
    assert z.subs == y.subs[id := z.subs[id]] && z.logs == y.logs[id := z.logs[id]];
    hide Step, One, Inv;
    EnteredKeeps(y, z, id);
  }

  lemma EnteredKeeps(y: System, z: System, id: nat)
    requires Inv(y) && id !in y.subs && One(z, id)
    requires z.queue == y.queue && z.workers == y.workers && id in z.subs && id in z.logs
    requires z.subs == y.subs[id := z.subs[id]] && z.logs == y.logs[id := z.logs[id]]
    ensures Inv(z)
  {
    hide One;
    forall i | i in y.subs
      ensures One(z, i)
    {
      assert One(y, i);
      OneUnchanged(y, z, i);
    }
  }

  lemma SubscribeOne(y: System, id: nat)
    requires Inv(y) && Enabled(y, Subscribe(id))
    ensures One(Step(y, Subscribe(id)), id)
  {
    var z := Step(y, Subscribe(id));
    QueuedIn(y.queue, id);
    HeldNone(y.workers, id);
    hide Queued, Held, One;
    assert SubOk(z.subs[id], z.logs[id], Tokens(z, id));
    assert forall w | 0 <= w < |z.workers| :: !Calls(z.workers[w], id);
    hide SubOk;
    assert InFlight(z.workers, id, z.logs[id]);
    IsOne(z, id);
  }

  lemma IsOne(y: System, id: nat)
    requires id in y.subs && id in y.logs && InFlight(y.workers, id, y.logs[id])
    requires SubOk(y.subs[id], y.logs[id], Tokens(y, id))
    ensures One(y, id)
  {
  }

  lemma OneUnchanged(y: System, z: System, id: nat)
    requires One(y, id) && z.queue == y.queue && z.workers == y.workers
    requires id in y.subs && id in y.logs && id in z.subs && id in z.logs
    requires z.subs[id] == y.subs[id] && z.logs[id] == y.logs[id]
    ensures One(z, id)
  {
    hide SubOk, InFlight;
  }

  lemma StepKeeps(y: System, a: Action)
    requires Inv(y) && Enabled(y, a)
    ensures Inv(Step(y, a))
  {
    hide Inv, Step;
    match a
    case Subscribe(id) => SubscribeStep(y, id);
    case Offer(_, _) => OfferStep(y, a);
    case Close(id) => CloseStep(y, id);
    case Get(w) => GetStep(y, w);
    case Begin(w) => BeginStep(y, w);
    case End(w, failed) => EndStep(y, w, failed);
  }

  // ----- Every run -----

  const START := System(map[], map[], [], [Idle, Idle, Idle, Idle])

  /** Any interleaving; an action that is not possible when its turn comes does nothing. */
  function Run(actions: seq<Action>): System {
    if actions == [] then START
    else
      var y, a := Run(actions[..|actions| - 1]), actions[|actions| - 1];
      if Enabled(y, a) then Step(y, a) else y
  }

  lemma {:induction false} RunKeeps(actions: seq<Action>)
    ensures Inv(Run(actions))
  {
    if actions == [] {
      assert Inv(START);
    } else {
      hide Inv, Step, Enabled;
      RunKeeps(actions[..|actions| - 1]);
      var y, a := Run(actions[..|actions| - 1]), actions[|actions| - 1];
      if Enabled(y, a) {
        StepKeeps(y, a);
      }
    }
  }

  function LogOf(y: System, id: nat): Log {
    if id in y.logs then y.logs[id] else Log([], [], [], {})
  }

  predicate Busy(y: System, id: nat) {
    exists w | 0 <= w < |y.workers| :: Calls(y.workers[w], id)
  }

  /**
   In every run: accepted offers are delivered, in flight, dropped or pending; a
   subscription has one token exactly when it is scheduled, and pending events
   only then; and what it is called back with follows the order of its offers.
   */
  lemma Accounts(actions: seq<Action>, id: nat)
    requires id in Run(actions).subs
    ensures var y := Run(actions);
      var s, log := y.subs[id], LogOf(y, id);
      && |log.offers| == |log.delivered| + (if Busy(y, id) then 1 else 0) + s.dropped + |s.pending|
      && Tokens(y, id) == (if s.scheduled then 1 else 0)
      && (s.pending != [] ==> s.scheduled && !s.closed)
      && (forall i, j | 0 <= i < j < |log.begun| :: log.begun[i].index < log.begun[j].index)
      && (forall i | 0 <= i < |log.begun| ::
            var e := log.begun[i]; e.index < |log.offers| && e.payload == log.offers[e.index])
      && log.delivered <= log.begun
  {
    RunKeeps(actions);
    var y := Run(actions);
    assert One(y, id);
    hide Tokens, Run;
    var kept := y.logs[id].begun + y.subs[id].pending;
    assert forall i | 0 <= i < |y.logs[id].begun| :: kept[i] == y.logs[id].begun[i];
  }

  /** In every run no two workers are in callbacks of one subscription. */
  lemma NoOverlap(actions: seq<Action>, v: nat, w: nat)
    requires var workers := Run(actions).workers;
      v < w < |workers| && workers[v].Calling? && workers[w].Calling?
    ensures Run(actions).workers[v].id != Run(actions).workers[w].id
  {
    RunKeeps(actions);
    OnlyHolder(Run(actions), v, Run(actions).workers[v].id);
  }

  /** Closing takes hold at once: no later step of a run begins another callback. */
  lemma {:induction false} ClosedForGood(actions: seq<Action>, more: seq<Action>, id: nat)
    requires id in Run(actions).subs && Run(actions).subs[id].closed
    ensures var (y, z) := (Run(actions), Run(actions + more));
      && id in z.subs && z.subs[id].closed
      && LogOf(z, id).begun == LogOf(y, id).begun && LogOf(z, id).offers == LogOf(y, id).offers
    decreases |more|
  {
    hide Step, Enabled;
    if more == [] {
      assert actions + more == actions;
    } else {
      var n := |more| - 1;
      ClosedForGood(actions, more[..n], id);
      assert (actions + more)[..|actions| + n] == actions + more[..n];
      if Enabled(Run(actions + more[..n]), more[n]) {
        ClosedStep(Run(actions + more[..n]), more[n], id);
      }
    }
  }

  lemma ClosedStep(y: System, a: Action, id: nat)
    requires Enabled(y, a) && id in y.subs && y.subs[id].closed
    ensures var z := Step(y, a);
      && id in z.subs && z.subs[id].closed
      && LogOf(z, id).begun == LogOf(y, id).begun && LogOf(z, id).offers == LogOf(y, id).offers
  {
  }
}
