/**
  The promise scheduler of fontawesome.js as a transition system.

  A World holds what the source keeps in its promise objects, its global queue and its
  timer, plus which engine code is on the stack.  User code (callbacks, resolver bodies,
  the `then` methods of foreign thenables, the page's own scripts) is any sequence of the
  user events below, taken at the points where the engine hands control to user code.
  History is bookkeeping: what a transition does never depends on it.  Only whether user code
  may call a promise's resolvers does: it holds those of the promises it constructed itself.
*/
module PromiseWorld {
  import opened Basics

  datatype Phase = Pending | Settled | Fulfilled | Rejected

  /** Plain stands for every value that has no callable `then`; CycleError is the TypeError of handleThenable. */
  datatype Value =
    | Undefined
    | Plain(n: int)
    | CycleError
    | ResultArray(a: nat)
    | PromiseRef(p: nat)
    | Thenable(t: nat)

  /** What sits in the `fulfilled` or `rejected` slot of a subscriber. */
  datatype Callback =
    | Absent                       // not a function
    | User(f: nat)
    | AdoptFulfil(l: nat)          // first closure of handleThenable
    | AdoptReject(l: nat)          // second closure of handleThenable
    | StoreResult(a: nat, i: nat)  // resolver(i) of P.all
    | RejectTarget(target: nat)    // reject of P.all

  datatype Promise = Promise(phase: Phase, data: Value, subs: Option<seq<nat>>)
  datatype Subscriber = Subscriber(owner: nat, derived: nat, onFulfil: Callback, onReject: Callback)

  /** The `resolved` variable shared by the two closures of one handleThenable call. */
  datatype Latch = Latch(target: nat, source: Value, closed: bool)

  /** One P.all call; slots records which subscriber watches each promise entry. */
  datatype Aggregate = Aggregate(target: nat, items: seq<Value>, results: seq<Option<Value>>,
                                 remaining: int, slots: seq<Option<nat>>)

  datatype Task = PublishFulfil(p: nat) | PublishReject(p: nat) | Invoke(s: nat)

  datatype Current = NoTask | Publishing(p: nat) | Invoking
  datatype Activity = NoCall | InCallback(s: nat) | InThenable(s: nat)

  /** work: the subscribers the current task has still to invoke, in order. */
  datatype Control = Idle | Flushing(current: Current, work: seq<nat>, call: Activity)

  datatype Origin = Constructed | Derived | Combined(a: nat)

  /** One call of a promise's own resolver functions; adopter is the subscriber it created, if any. */
  datatype Call = ResolveCall(v: Value, adopter: nat) | RejectCall(r: Value)

  /** Per promise: who may settle it, the calls made so far, and the phase it was settled for. */
  datatype Trail = Trail(origin: Origin, calls: seq<Call>, decided: Phase)

  /** The user callback f was called with arg when subscriber sub was invoked. */
  datatype Entered = Entered(sub: nat, f: nat, arg: Value)

  /** log: subscribers invoked so far, in order; entered: the user callbacks called, in order. */
  datatype History = History(log: seq<nat>, entered: seq<Entered>, enqueued: seq<Task>, started: seq<Task>,
                             trails: seq<Trail>)

  /** pending: the entries of asyncQueue the flush loop has not reached yet. */
  datatype World = World(
    promises: seq<Promise>,
    subscribers: seq<Subscriber>,
    latches: seq<Latch>,
    aggregates: seq<Aggregate>,
    pending: seq<Task>,
    timer: bool,
    scheduled: nat,
    control: Control,
    history: History)

  // ---------------------------------------------------------------- references in range

  predicate ValueOk(w: World, v: Value) {
    match v
    case PromiseRef(p) => p < |w.promises|
    case ResultArray(a) => a < |w.aggregates|
    case _ => true
  }

  predicate CallbackOk(w: World, c: Callback) {
    match c
    case AdoptFulfil(l) => l < |w.latches|
    case AdoptReject(l) => l < |w.latches|
    case StoreResult(a, i) => a < |w.aggregates| && i < |w.aggregates[a].results|
    case RejectTarget(p) => p < |w.promises|
    case _ => true
  }

  predicate TaskOk(w: World, t: Task) {
    match t
    case PublishFulfil(p) => p < |w.promises|
    case PublishReject(p) => p < |w.promises|
    case Invoke(s) => s < |w.subscribers|
  }

  predicate SubscriberOk(w: World, s: Subscriber) {
    s.owner < |w.promises| && s.derived < |w.promises| && CallbackOk(w, s.onFulfil) && CallbackOk(w, s.onReject)
  }

  predicate PromiseOk(w: World, p: Promise) {
    ValueOk(w, p.data) &&
    (p.subs.Some? ==> forall s <- p.subs.value :: s < |w.subscribers|)
  }

  predicate AggregateOk(w: World, g: Aggregate) {
    g.target < |w.promises| && |g.items| == |g.results| == |g.slots|
  }

  predicate ControlOk(w: World) {
    w.control.Flushing? ==>
      && (w.control.current.Publishing? ==> w.control.current.p < |w.promises|)
      && (forall s <- w.control.work :: s < |w.subscribers|)
      && (!w.control.call.NoCall? ==> w.control.call.s < |w.subscribers|)
  }

  /** Every reference points at something that exists. */
  predicate WF(w: World) {
    && |w.history.trails| == |w.promises|
    && (forall p :: 0 <= p < |w.promises| ==> PromiseOk(w, w.promises[p]))
    && (forall s :: 0 <= s < |w.subscribers| ==> SubscriberOk(w, w.subscribers[s]))
    && (forall l :: 0 <= l < |w.latches| ==> w.latches[l].target < |w.promises| && ValueOk(w, w.latches[l].source))
    && (forall a :: 0 <= a < |w.aggregates| ==> AggregateOk(w, w.aggregates[a]))
    && (forall t <- w.pending :: TaskOk(w, t))
    && ControlOk(w)
  }

  /** The parts of a world that is well formed. */
  lemma PartsOk(w: World)
    requires WF(w)
    ensures forall s :: 0 <= s < |w.subscribers| ==> SubscriberOk(w, w.subscribers[s])
    ensures forall a :: 0 <= a < |w.aggregates| ==> AggregateOk(w, w.aggregates[a])
    ensures forall p :: 0 <= p < |w.promises| ==> PromiseOk(w, w.promises[p])
    ensures ControlOk(w)
  {
  }

  // ---------------------------------------------------------------- engine primitives

  predicate Final(ph: Phase) { ph == Fulfilled || ph == Rejected }

  function Enqueue(w: World, t: Task): (r: World)
    requires WF(w) && TaskOk(w, t)
    ensures WF(r)
  {
    w.(pending := w.pending + [t],
       scheduled := if w.timer then w.scheduled else w.scheduled + 1,
       timer := true,
       history := w.history.(enqueued := w.history.enqueued + [t]))
  }

  function SetPromise(w: World, p: nat, rec: Promise): (r: World)
    requires WF(w) && p < |w.promises| && PromiseOk(w, rec)
    ensures WF(r)
  {
    w.(promises := w.promises[p := rec])
  }

  function SetTrail(w: World, p: nat, t: Trail): (r: World)
    requires WF(w) && p < |w.promises|
    ensures WF(r)
  {
    w.(history := w.history.(trails := w.history.trails[p := t]))
  }

  /** fulfill (ok) and reject (not ok): they differ only in what they queue. */
  function Settle(w: World, p: nat, v: Value, ok: bool): (r: World)
    requires WF(w) && p < |w.promises| && ValueOk(w, v)
    ensures WF(r) && |w.subscribers| <= |r.subscribers|
  {
    if w.promises[p].phase != Pending then w
    else
      var w1 := SetPromise(w, p, w.promises[p].(phase := Settled, data := v));
      var w2 := SetTrail(w1, p, w1.history.trails[p].(decided := if ok then Fulfilled else Rejected));
      Enqueue(w2, if ok then PublishFulfil(p) else PublishReject(p))
  }

  /** The object part of `new P(resolver)`. */
  function Allocate(w: World, origin: Origin): (r: World)
    requires WF(w)
    ensures WF(r) && |r.promises| == |w.promises| + 1
  {
    w.(promises := w.promises + [Promise(Pending, Undefined, Some([]))],
       history := w.history.(trails := w.history.trails + [Trail(origin, [], Pending)]))
  }

  /** P.prototype.then */
  function Subscribe(w: World, p: nat, f: Callback, r: Callback): (w': World)
    requires WF(w) && p < |w.promises| && CallbackOk(w, f) && CallbackOk(w, r)
    ensures WF(w') && |w.subscribers| <= |w'.subscribers|
  {
    var d, s := |w.promises|, |w.subscribers|;
    var w1 := Allocate(w, Derived);
    var w2 := w1.(subscribers := w1.subscribers + [Subscriber(p, d, f, r)]);
    if Final(w.promises[p].phase) then Enqueue(w2, Invoke(s))
    else
      var subs := if w.promises[p].subs.Some? then w.promises[p].subs.value else [];
      SetPromise(w2, p, w2.promises[p].(subs := Some(subs + [s])))
  }

  function OpenLatch(w: World, p: nat, v: Value): (r: World)
    requires WF(w) && p < |w.promises| && ValueOk(w, v)
    ensures WF(r) && |r.latches| == |w.latches| + 1
  {
    w.(latches := w.latches + [Latch(p, v, false)])
  }

  predicate IsThenable(v: Value) { v.PromiseRef? || v.Thenable? }

  /** handleThenable; it returns true exactly when IsThenable(v). */
  function HandleThenable(w: World, p: nat, v: Value): (r: World)
    requires WF(w) && p < |w.promises| && ValueOk(w, v)
    ensures WF(r) && |w.subscribers| <= |r.subscribers|
  {
    match v
    case PromiseRef(q) =>
      if q == p then Settle(w, p, CycleError, false)
      else Subscribe(OpenLatch(w, p, v), q, AdoptFulfil(|w.latches|), AdoptReject(|w.latches|))
    case Thenable(_) => OpenLatch(w, p, v)
    case _ => w
  }

  /** resolve */
  function Resolve(w: World, p: nat, v: Value): (r: World)
    requires WF(w) && p < |w.promises| && ValueOk(w, v)
    ensures WF(r) && |w.subscribers| <= |r.subscribers|
  {
    if v == PromiseRef(p) then Settle(w, p, v, true)
    else if IsThenable(v) then HandleThenable(w, p, v)
    else Settle(w, p, v, true)
  }

  function CloseLatch(w: World, l: nat): (r: World)
    requires WF(w) && l < |w.latches|
    ensures WF(r)
  {
    w.(latches := w.latches[l := w.latches[l].(closed := true)])
  }

  /** First closure of handleThenable. */
  function LatchResolve(w: World, l: nat, v: Value): (r: World)
    requires WF(w) && l < |w.latches| && ValueOk(w, v)
    ensures WF(r)
  {
    if w.latches[l].closed then w
    else if w.latches[l].source == v then Settle(CloseLatch(w, l), w.latches[l].target, v, true)
    else Resolve(CloseLatch(w, l), w.latches[l].target, v)
  }

  /** Second closure of handleThenable. */
  function LatchReject(w: World, l: nat, r: Value): (w': World)
    requires WF(w) && l < |w.latches| && ValueOk(w, r)
    ensures WF(w')
  {
    if w.latches[l].closed then w
    else Settle(CloseLatch(w, l), w.latches[l].target, r, false)
  }

  /** The catch block of handleThenable, when the foreign `then` throws. */
  function LatchThrow(w: World, l: nat, e: Value): (r: World)
    requires WF(w) && l < |w.latches| && ValueOk(w, e)
    ensures WF(r)
  {
    if w.latches[l].closed then w else Settle(w, w.latches[l].target, e, false)
  }

  /** History: promise p's own resolver functions were called once more. */
  function RecordCall(w: World, p: nat, c: Call): (r: World)
    requires WF(w) && p < |w.promises|
    ensures WF(r)
  {
    SetTrail(w, p, w.history.trails[p].(calls := w.history.trails[p].calls + [c]))
  }

  /** resolvePromise and rejectPromise of invokeResolver. */
  function CallResolve(w: World, p: nat, v: Value): (r: World)
    requires WF(w) && p < |w.promises| && ValueOk(w, v)
    ensures WF(r)
  {
    Resolve(RecordCall(w, p, ResolveCall(v, |w.subscribers|)), p, v)
  }

  function CallReject(w: World, p: nat, e: Value): (r: World)
    requires WF(w) && p < |w.promises| && ValueOk(w, e)
    ensures WF(r) && |w.subscribers| <= |r.subscribers|
  {
    Settle(RecordCall(w, p, RejectCall(e)), p, e, false)
  }

  // ---------------------------------------------------------------- P.all

  function SetAggregate(w: World, a: nat, g: Aggregate): (r: World)
    requires WF(w) && a < |w.aggregates| && AggregateOk(w, g)
    requires |g.results| == |w.aggregates[a].results|
    ensures WF(r)
  {
    var r := w.(aggregates := w.aggregates[a := g]);
    assert forall s :: 0 <= s < |w.subscribers| && SubscriberOk(w, w.subscribers[s]) ==>
      SubscriberOk(r, r.subscribers[s]);
    r
  }

  /** The loop of P.all from entry i on. */
  function AllLoop(w: World, a: nat, i: nat): (r: World)
    requires WF(w) && a < |w.aggregates| && i <= |w.aggregates[a].items|
    requires forall v <- w.aggregates[a].items :: ValueOk(w, v)
    ensures WF(r) && |r.aggregates| == |w.aggregates|
    ensures r.aggregates[a].target == w.aggregates[a].target
    decreases |w.aggregates[a].items| - i
  {
    if i == |w.aggregates[a].items| then w
    else AllLoop(AllEntry(w, a, i), a, i + 1)
  }

  /** One iteration: watch a promise entry, or copy a plain one. */
  function AllEntry(w: World, a: nat, i: nat): (r: World)
    requires WF(w) && a < |w.aggregates| && i < |w.aggregates[a].items|
    requires forall v <- w.aggregates[a].items :: ValueOk(w, v)
    ensures WF(r) && |r.aggregates| == |w.aggregates| && |w.promises| <= |r.promises|
    ensures r.aggregates[a].items == w.aggregates[a].items && r.aggregates[a].target == w.aggregates[a].target
  {
    var v := w.aggregates[a].items[i];
    assert v in w.aggregates[a].items;
    assert AggregateOk(w, w.aggregates[a]) && ValueOk(w, v);
    if v.PromiseRef? then Watch(w, a, i, v.p)
    else SetAggregate(w, a, w.aggregates[a].(results := w.aggregates[a].results[i := Some(v)]))
  }

  /** remaining++ and promise.then(resolver(i), reject) for the promise entry q. */
  function Watch(w: World, a: nat, i: nat, q: nat): (r: World)
    requires WF(w) && a < |w.aggregates| && AggregateOk(w, w.aggregates[a]) && i < |w.aggregates[a].items|
    requires q < |w.promises|
    ensures WF(r) && |r.aggregates| == |w.aggregates| && |w.promises| <= |r.promises|
    ensures r.aggregates[a].items == w.aggregates[a].items && r.aggregates[a].target == w.aggregates[a].target
  {
    Subscribe(Count(w, a, i), q, StoreResult(a, i), RejectTarget(w.aggregates[a].target))
  }

  /** resolver(i) counts its entry; slots records the subscriber about to be made for it. */
  function Count(w: World, a: nat, i: nat): (r: World)
    requires WF(w) && a < |w.aggregates| && AggregateOk(w, w.aggregates[a]) && i < |w.aggregates[a].items|
    ensures WF(r) && |r.aggregates| == |w.aggregates| && r.promises == w.promises
    ensures r.aggregates[a].items == w.aggregates[a].items && r.aggregates[a].target == w.aggregates[a].target
    ensures |r.aggregates[a].results| == |w.aggregates[a].results|
  {
    SetAggregate(w, a, Counted(w.aggregates[a], i, |w.subscribers|))
  }

  function Counted(g: Aggregate, i: nat, s: nat): Aggregate
    requires i < |g.slots|
  {
    g.(remaining := g.remaining + 1, slots := g.slots[i := Some(s)])
  }

  lemma AllLoopStep(w: World, a: nat, i: nat)
    requires WF(w) && a < |w.aggregates| && i <= |w.aggregates[a].items|
    requires forall v <- w.aggregates[a].items :: ValueOk(w, v)
    ensures i == |w.aggregates[a].items| ==> AllLoop(w, a, i) == w
    ensures i < |w.aggregates[a].items| ==>
      var w1 := AllEntry(w, a, i);
      && a < |w1.aggregates| && w1.aggregates[a].items == w.aggregates[a].items
      && (forall v <- w.aggregates[a].items :: ValueOk(w1, v))
      && AllLoop(w, a, i) == AllLoop(w1, a, i + 1)
  {
    hide WF, AllEntry;
  }

  /** P.all(items): allocate the combined promise and its counters. */
  function AllBegin(w: World, items: seq<Value>): (r: World)
    requires WF(w) && forall v <- items :: ValueOk(w, v)
    ensures WF(r) && |r.aggregates| == |w.aggregates| + 1 && |r.promises| == |w.promises| + 1
    ensures r.aggregates[|w.aggregates|].items == items && r.aggregates[|w.aggregates|].target == |w.promises|
    ensures forall v <- items :: ValueOk(r, v)
  {
    var w1 := Allocate(w, Combined(|w.aggregates|));
    var g := Aggregate(|w.promises|, items, seq(|items|, _ => None), 0, seq(|items|, _ => None));
    var r := w1.(aggregates := w1.aggregates + [g]);
    assert forall v | v in items :: ValueOk(w, v) ==> ValueOk(r, v);
    r
  }

  /** P.all */
  function All(w: World, items: seq<Value>): (r: World)
    requires WF(w) && forall v <- items :: ValueOk(w, v)
    ensures WF(r)
  {
    var a := |w.aggregates|;
    var w1 := AllLoop(AllBegin(w, items), a, 0);
    if w1.aggregates[a].remaining == 0 then CallResolve(w1, w1.aggregates[a].target, ResultArray(a)) else w1
  }

  /** The callback resolver(i) builds. */
  function Store(w: World, a: nat, i: nat, v: Value): (r: World)
    requires WF(w) && a < |w.aggregates| && i < |w.aggregates[a].results| && ValueOk(w, v)
    ensures WF(r)
  {
    var g := w.aggregates[a];
    var g' := g.(results := g.results[i := Some(v)], remaining := g.remaining - 1);
    var w1 := SetAggregate(w, a, g');
    if g'.remaining == 0 then CallResolve(w1, g.target, ResultArray(a)) else w1
  }

  // ---------------------------------------------------------------- flush

  function SetControl(w: World, c: Control): (r: World)
    requires WF(w) && ControlOk(w.(control := c))
    ensures WF(r)
  {
    w.(control := c)
  }

  /** The slot invokeCallback reads: subscriber[owner._state]. */
  function Slot(w: World, s: nat): Callback
    requires WF(w) && s < |w.subscribers|
  {
    match w.promises[w.subscribers[s].owner].phase
    case Fulfilled => w.subscribers[s].onFulfil
    case Rejected => w.subscribers[s].onReject
    case _ => Absent
  }

  function OwnerData(w: World, s: nat): (v: Value)
    requires WF(w) && s < |w.subscribers|
    ensures ValueOk(w, v)
  {
    w.promises[w.subscribers[s].owner].data
  }

  /** How the rest of invokeCallback settles the derived promise d. */
  function ConclusionCall(w: World, d: nat, v: Value, ok: bool): Call {
    if v == PromiseRef(d) then RejectCall(CycleError)
    else if ok || IsThenable(v) then ResolveCall(v, |w.subscribers|)
    else RejectCall(v)
  }

  /** invokeCallback after the callback: handleThenable, else resolve or reject. */
  function Conclude(w: World, d: nat, v: Value, ok: bool): (r: World)
    requires WF(w) && d < |w.promises| && ValueOk(w, v)
    ensures WF(r) && |w.subscribers| <= |r.subscribers|
  {
    if IsThenable(v) then HandleThenable(w, d, v)
    else if ok then Resolve(w, d, v)
    else Settle(w, d, v, false)
  }

  /** The first waiting subscriber becomes the one being invoked. */
  function TakeWork(w: World): (r: World)
    requires WF(w) && w.control.Flushing? && w.control.work != []
    ensures WF(r)
  {
    var s := w.control.work[0];
    assert s in w.control.work;
    var c := w.control.(work := w.control.work[1..], call := InCallback(s));
    assert forall x | x in c.work :: x in w.control.work;
    SetControl(w, c).(history := w.history.(log := w.history.log + [s]))
  }

  /** History: the callback f of s is called; what it does is up to the user events that follow. */
  function EnterUser(w: World, s: nat, f: nat, v: Value): (r: World)
    requires WF(w)
    ensures WF(r)
  {
    w.(history := w.history.(entered := w.history.entered + [Entered(s, f, v)]))
  }

  /** invokeCallback of s, up to the point where its callback has been entered; without one, to its end. */
  function Dispatch(w: World, s: nat): (r: World)
    requires WF(w) && s < |w.subscribers|
    ensures WF(r)
  {
    var v := OwnerData(w, s);
    assert SubscriberOk(w, w.subscribers[s]);
    match Slot(w, s)
    case Absent =>
      var d, ok := w.subscribers[s].derived, w.promises[w.subscribers[s].owner].phase != Rejected;
      Finish(w, s, ConclusionCall(w, d, v, ok), v, ok)
    case User(f) => EnterUser(w, s, f, v)
    case AdoptFulfil(l) => LatchResolve(w, l, v)
    case AdoptReject(l) => LatchReject(w, l, v)
    case StoreResult(a, i) => Store(w, a, i, v)
    case RejectTarget(p) => CallReject(w, p, v)
  }

  function BeginCallback(w: World): (r: World)
    requires WF(w) && w.control.Flushing? && w.control.work != []
    ensures WF(r)
  {
    assert w.control.work[0] in w.control.work;
    Dispatch(TakeWork(w), w.control.work[0])
  }

  /** The last lines of invokeCallback for subscriber s. */
  function Resume(w: World, s: nat, v: Value, ok: bool): (r: World)
    requires WF(w) && s < |w.subscribers| && ValueOk(w, v)
    ensures WF(r)
  {
    assert SubscriberOk(w, w.subscribers[s]);
    EndCall(Conclude(w, w.subscribers[s].derived, v, ok), s, v)
  }

  /** The same, recorded as call c of the derived promise's resolvers. */
  function Finish(w: World, s: nat, c: Call, v: Value, ok: bool): (r: World)
    requires WF(w) && s < |w.subscribers| && ValueOk(w, v)
    ensures WF(r)
  {
    assert SubscriberOk(w, w.subscribers[s]);
    Resume(RecordCall(w, w.subscribers[s].derived, c), s, v, ok)
  }

  /** A foreign thenable's `then` runs before invokeCallback returns. */
  function EndCall(w: World, s: nat, v: Value): (r: World)
    requires WF(w) && s < |w.subscribers|
    ensures WF(r)
  {
    if w.control.Flushing? then
      SetControl(w, w.control.(call := if v.Thenable? then InThenable(s) else NoCall))
    else w
  }

  datatype Outcome = Returned(v: Value) | Thrown(e: Value)

  /** The callback of s returned or threw. A throw rejects first and then goes on with the owner's data. */
  function EndCallback(w: World, s: nat, o: Outcome): (r: World)
    requires WF(w) && s < |w.subscribers| && ValueOk(w, if o.Returned? then o.v else o.e)
    ensures WF(r)
  {
    var d := w.subscribers[s].derived;
    match o
    case Returned(v) =>
      Finish(w, s, ConclusionCall(w, d, v, true), v, true)
    case Thrown(e) =>
      Resume(CallReject(w, d, e), s, OwnerData(w, s), true)
  }

  /** The flush loop takes the next queue entry. */
  function StartTask(w: World): (r: World)
    requires WF(w) && w.control.Flushing? && w.pending != []
    ensures WF(r)
  {
    var t := w.pending[0];
    assert t in w.pending;
    var w1 := w.(pending := w.pending[1..], history := w.history.(started := w.history.started + [t]));
    assert TaskOk(w1, t);
    assert WF(w1) by { assert forall x | x in w1.pending :: x in w.pending && (TaskOk(w, x) ==> TaskOk(w1, x)); }
    match t
    case PublishFulfil(p) => StartPublish(w1, p, Fulfilled)
    case PublishReject(p) => StartPublish(w1, p, Rejected)
    case Invoke(s) => SetControl(w1, Flushing(Invoking, [s], NoCall))
  }

  /** publishFulfillment / publishRejection up to the forEach. */
  function StartPublish(w: World, p: nat, ph: Phase): (r: World)
    requires WF(w) && p < |w.promises|
    ensures WF(r)
  {
    var w1 := SetPromise(w, p, w.promises[p].(phase := ph));
    var subs := if w.promises[p].subs.Some? then w.promises[p].subs.value else [];
    SetControl(w1, Flushing(Publishing(p), subs, NoCall))
  }

  /** `promise._then = promise._then.forEach(...)` stores undefined once the loop is over. */
  function EndTask(w: World): (r: World)
    requires WF(w) && w.control.Flushing?
    ensures WF(r)
  {
    var w1 := match w.control.current
      case Publishing(p) => SetPromise(w, p, w.promises[p].(subs := None))
      case _ => w;
    SetControl(w1, Flushing(NoTask, [], NoCall))
  }

  // ---------------------------------------------------------------- events and runs

  datatype Event =
    // user code
    | New
    | DoResolve(p: nat, v: Value)
    | DoReject(p: nat, r: Value)
    | DoThen(p: nat, onFulfil: Callback, onReject: Callback)
    | DoAll(items: seq<Value>)
    | ThenableResolves(l: nat, v: Value)
    | ThenableRejects(l: nat, r: Value)
    | ThenableThrows(l: nat, e: Value)
    // engine
    | FlushBegins
    | TaskStarts
    | CallbackBegins
    | CallbackEnds(o: Outcome)
    | ThenableEnds
    | TaskEnds
    | FlushEnds

  predicate UserEvent(e: Event) {
    e.New? || e.DoResolve? || e.DoReject? || e.DoThen? || e.DoAll? ||
    e.ThenableResolves? || e.ThenableRejects? || e.ThenableThrows?
  }

  /** User code is running: a page script, a user callback, or a foreign `then`. */
  predicate UserRuns(w: World)
    requires WF(w)
  {
    match w.control
    case Idle => true
    case Flushing(_, _, NoCall) => false
    case Flushing(_, _, InThenable(_)) => true
    case Flushing(_, _, InCallback(s)) =>
      Slot(w, s).User? || (Slot(w, s).AdoptFulfil? && OwnerData(w, s).Thenable?)
  }

  predicate UserCallback(c: Callback) { c.Absent? || c.User? }

  predicate Enabled(w: World, e: Event)
    requires WF(w)
  {
    match e
    case New => UserRuns(w)
    case DoResolve(p, v) =>
      UserRuns(w) && p < |w.promises| && w.history.trails[p].origin == Constructed && ValueOk(w, v)
    case DoReject(p, r) =>
      UserRuns(w) && p < |w.promises| && w.history.trails[p].origin == Constructed && ValueOk(w, r)
    case DoThen(p, f, r) => UserRuns(w) && p < |w.promises| && UserCallback(f) && UserCallback(r)
    case DoAll(items) => UserRuns(w) && forall v <- items :: ValueOk(w, v) && !v.Thenable?
    case ThenableResolves(l, v) => UserRuns(w) && l < |w.latches| && w.latches[l].source.Thenable? && ValueOk(w, v)
    case ThenableRejects(l, r) => UserRuns(w) && l < |w.latches| && w.latches[l].source.Thenable? && ValueOk(w, r)
    case ThenableThrows(l, e) => UserRuns(w) && l < |w.latches| && w.latches[l].source.Thenable? && ValueOk(w, e)
    case FlushBegins => w.control.Idle? && 0 < w.scheduled
    case TaskStarts => w.control == Flushing(NoTask, [], NoCall) && w.pending != []
    case CallbackBegins =>
      w.control.Flushing? && w.control.current != NoTask && w.control.call.NoCall? && w.control.work != []
    case CallbackEnds(o) =>
      && w.control.Flushing? && w.control.call.InCallback?
      && ValueOk(w, if o.Returned? then o.v else o.e)
      && (Slot(w, w.control.call.s).User? || o == Returned(Undefined))
    case ThenableEnds => w.control.Flushing? && w.control.call.InThenable?
    case TaskEnds =>
      w.control.Flushing? && w.control.current != NoTask && w.control.call.NoCall? && w.control.work == []
    case FlushEnds => w.control == Flushing(NoTask, [], NoCall) && w.pending == []
  }

  function Apply(w: World, e: Event): (r: World)
    requires WF(w) && Enabled(w, e)
    ensures WF(r)
  {
    match e
    case New => Allocate(w, Constructed)
    case DoResolve(p, v) => CallResolve(w, p, v)
    case DoReject(p, r) => CallReject(w, p, r)
    case DoThen(p, f, r) => Subscribe(w, p, f, r)
    case DoAll(items) => All(w, items)
    case ThenableResolves(l, v) => LatchResolve(w, l, v)
    case ThenableRejects(l, r) => LatchReject(w, l, r)
    case ThenableThrows(l, e) => LatchThrow(w, l, e)
    case FlushBegins => SetControl(w.(scheduled := w.scheduled - 1), Flushing(NoTask, [], NoCall))
    case TaskStarts => StartTask(w)
    case CallbackBegins => BeginCallback(w)
    case CallbackEnds(o) => EndCallback(w, w.control.call.s, o)
    case ThenableEnds => SetControl(w, w.control.(call := NoCall))
    case TaskEnds => EndTask(w)
    case FlushEnds => SetControl(w.(timer := false), Idle)
  }

  const EMPTY_WORLD := World([], [], [], [], [], false, 0, Idle, History([], [], [], [], []))

  /** The state a sequence of events leads to; None when some event is not possible in its turn. */
  function Exec(w: World, es: seq<Event>): (r: Option<World>)
    requires WF(w)
    ensures r.Some? ==> WF(r.value)
    decreases |es|
  {
    if es == [] then Some(w)
    else if !Enabled(w, es[0]) then None
    else Exec(Apply(w, es[0]), es[1..])
  }

  /** w can be reached from a fresh page by some run. */
  ghost predicate Reachable(w: World) {
    exists es :: Exec(EMPTY_WORLD, es) == Some(w)
  }

  lemma ExecHead(w: World, es: seq<Event>)
    requires WF(w) && es != []
    ensures Exec(w, es) == if Enabled(w, es[0]) then Exec(Apply(w, es[0]), es[1..]) else None
  {
  }

  lemma ExecOne(w: World, e: Event)
    requires WF(w) && Enabled(w, e)
    ensures Exec(w, [e]) == Some(Apply(w, e))
  {
    ExecHead(w, [e]);
    assert [e][1..] == [];
  }

  lemma {:induction false} ExecAppend(w: World, es: seq<Event>, w': World, fs: seq<Event>)
    requires WF(w) && WF(w') && Exec(w, es) == Some(w')
    ensures Exec(w, es + fs) == Exec(w', fs)
    decreases |es|
  {
    if es == [] {
      assert es + fs == fs;
    } else {
      ExecHead(w, es);
      ExecAppend(Apply(w, es[0]), es[1..], w', fs);
      ExecPrefix(w, es, fs);
    }
  }

  lemma ExecPrefix(w: World, es: seq<Event>, fs: seq<Event>)
    requires WF(w) && es != [] && Enabled(w, es[0])
    ensures Exec(w, es + fs) == Exec(Apply(w, es[0]), es[1..] + fs)
  {
    ExecHead(w, es + fs);
    assert (es + fs)[1..] == es[1..] + fs && (es + fs)[0] == es[0];
  }

  /** Some run leads from w to w'. */
  ghost predicate Runs(w: World, w': World)
    requires WF(w)
  {
    exists es :: Exec(w, es) == Some(w')
  }

  lemma RunsTrans(w1: World, w2: World, w3: World)
    requires WF(w1) && WF(w2) && Runs(w1, w2) && Runs(w2, w3)
    ensures Runs(w1, w3)
  {
    var es :| Exec(w1, es) == Some(w2);
    var fs :| Exec(w2, fs) == Some(w3);
    ExecAppend(w1, es, w2, fs);
  }

  lemma RunsStep(w: World, e: Event)
    requires WF(w) && Enabled(w, e)
    ensures Runs(w, Apply(w, e))
  {
    ExecOne(w, e);
  }

  lemma RunsSelf(w: World)
    requires WF(w)
    ensures Runs(w, w)
  {
    assert Exec(w, []) == Some(w);
  }
}
