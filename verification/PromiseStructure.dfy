/**
  What every reachable state of the promise scheduler keeps: where each subscriber is, which
  tasks are queued for which promise, in what order callbacks run, and when a flush is due.
*/
module PromiseStructure {
  import opened Basics
  import opened PromiseWorld

  // ---------------------------------------------------------------- the invariant

  function Work(c: Control): seq<nat> { if c.Flushing? then c.work else [] }

  /** The subscribers of the Invoke tasks of a queue, in order. */
  function Invokes(ts: seq<Task>): seq<nat> {
    if ts == [] then []
    else if ts[0].Invoke? then [ts[0].s] + Invokes(ts[1..])
    else Invokes(ts[1..])
  }

  /** Everything invoked so far, being invoked, or queued to be invoked, in the order it is or will be. */
  function Line(w: World): seq<nat> { w.history.log + Work(w.control) + Invokes(w.pending) }

  /** The promise whose subscribers the running task is publishing to. */
  function Published(c: Control): Option<nat> {
    if c.Flushing? && c.current.Publishing? then Some(c.current.p) else None
  }

  function FlushesRunning(w: World): nat { if w.control.Flushing? then 1 else 0 }

  /** A timer is set exactly when one flush is scheduled or running, and work never waits without one. */
  ghost predicate Schedule(w: World) {
    && w.scheduled + FlushesRunning(w) == (if w.timer then 1 else 0)
    && (w.control.Idle? ==> (w.timer <==> w.pending != []))
  }

  /** Tasks start in the order they were queued, each exactly once. */
  ghost predicate Fifo(h: History, pending: seq<Task>) {
    h.enqueued == h.started + pending
  }

  /** The state of a promise against the publish tasks queued for it. */
  ghost predicate PhaseInv(p: nat, rec: Promise, decided: Phase, pending: seq<Task>, publishing: bool) {
    && (rec.phase == Pending <==> decided == Pending)
    && decided != Settled
    && (Final(rec.phase) ==> decided == rec.phase)
    && (PublishFulfil(p) in pending <==> rec.phase == Settled && decided == Fulfilled)
    && (PublishReject(p) in pending <==> rec.phase == Settled && decided == Rejected)
    && (rec.subs.Some? <==> !Final(rec.phase) || publishing)
    && (publishing ==> Final(rec.phase))
  }

  ghost predicate Phases(promises: seq<Promise>, trails: seq<Trail>, pending: seq<Task>, published: Option<nat>) {
    && |trails| == |promises|
    && Distinct(pending)
    && forall p :: 0 <= p < |promises| ==>
         PhaseInv(p, promises[p], trails[p].decided, pending, published == Some(p))
  }

  ghost predicate ControlInv(c: Control, log: seq<nat>) {
    c.Flushing? ==>
      && (c.current == NoTask ==> c.work == [] && c.call == NoCall)
      && (c.call != NoCall ==> log != [] && log[|log| - 1] == c.call.s)
  }

  /** Two entries with the same owner stand in registration order. */
  ghost predicate Ordered(subscribers: seq<Subscriber>, line: seq<nat>) {
    forall i, j :: 0 <= i < j < |line| ==> InOrder(subscribers, line[i], line[j])
  }

  ghost predicate InOrder(subscribers: seq<Subscriber>, a: nat, b: nat) {
    a < |subscribers| && b < |subscribers| && (subscribers[a].owner == subscribers[b].owner ==> a < b)
  }

  ghost predicate FinalAt(promises: seq<Promise>, p: nat) { p < |promises| && Final(promises[p].phase) }

  /** Everything in the line belongs to a promise that is final. */
  ghost predicate LineInv(promises: seq<Promise>, subscribers: seq<Subscriber>, line: seq<nat>) {
    forall i :: 0 <= i < |line| ==> line[i] < |subscribers| && FinalAt(promises, subscribers[line[i]].owner)
  }

  ghost predicate OwnedBy(subscribers: seq<Subscriber>, ss: seq<nat>, p: nat) {
    forall i :: 0 <= i < |ss| ==> ss[i] < |subscribers| && subscribers[ss[i]].owner == p
  }

  /** A promise that is not final yet keeps its own subscribers, in registration order. */
  ghost predicate WaitingInv(p: nat, rec: Promise, subscribers: seq<Subscriber>) {
    !Final(rec.phase) && rec.subs.Some? ==>
      OwnedBy(subscribers, rec.subs.value, p) && Ordered(subscribers, rec.subs.value)
  }

  /** Subscriber s waits at its owner until the owner is final, and is in the line from then on. */
  ghost predicate PlaceInv(s: nat, promises: seq<Promise>, owner: nat, line: seq<nat>) {
    && owner < |promises|
    && if Final(promises[owner].phase) then s in line
       else promises[owner].subs.Some? && s in promises[owner].subs.value
  }

  ghost predicate Places(promises: seq<Promise>, subscribers: seq<Subscriber>, line: seq<nat>) {
    && LineInv(promises, subscribers, line)
    && Ordered(subscribers, line)
    && (forall p :: 0 <= p < |promises| ==> WaitingInv(p, promises[p], subscribers))
    && (forall s :: 0 <= s < |subscribers| ==> PlaceInv(s, promises, subscribers[s].owner, line))
  }

  ghost predicate PhasesOf(w: World) { Phases(w.promises, w.history.trails, w.pending, Published(w.control)) }
  ghost predicate PlacesOf(w: World) { Places(w.promises, w.subscribers, Line(w)) }

  ghost predicate Structure(w: World) {
    && WF(w)
    && Schedule(w)
    && Fifo(w.history, w.pending)
    && PhasesOf(w)
    && ControlInv(w.control, w.history.log)
    && PlacesOf(w)
  }

  // ---------------------------------------------------------------- the queue

  lemma {:induction false} InvokesConcat(a: seq<Task>, b: seq<Task>)
    ensures Invokes(a + b) == Invokes(a) + Invokes(b)
  {
    if a == [] {
      assert a + b == b;
    } else {
      assert (a + b)[1..] == a[1..] + b;
      assert (a + b)[0] == a[0];
      InvokesConcat(a[1..], b);
      if a[0].Invoke? {
        calc {
          Invokes(a + b);
          [a[0].s] + (Invokes(a[1..]) + Invokes(b));
          ([a[0].s] + Invokes(a[1..])) + Invokes(b);
        }
      }
    }
  }

  /** Queueing a task lengthens the line only if it is an invocation, and then at its end. */
  lemma LineSnoc(w: World, w': World, t: Task)
    requires w'.pending == w.pending + [t]
    requires w'.history.log == w.history.log && Work(w'.control) == Work(w.control)
    ensures Line(w') == Line(w) + (if t.Invoke? then [t.s] else [])
  {
    InvokesConcat(w.pending, [t]);
    assert [t][1..] == [];
    assert Invokes([t]) == if t.Invoke? then [t.s] else [];
  }

  lemma PhasesNewPromise(w: World, origin: Origin)
    requires WF(w) && PhasesOf(w)
    ensures PhasesOf(Allocate(w, origin))
  {
    var w' := Allocate(w, origin);
    var n := |w.promises|;
    assert PublishFulfil(n) in w.pending ==> TaskOk(w, PublishFulfil(n));
    assert PublishReject(n) in w.pending ==> TaskOk(w, PublishReject(n));
  }

  lemma PlacesNewPromise(promises: seq<Promise>, subscribers: seq<Subscriber>, line: seq<nat>)
    requires Places(promises, subscribers, line)
    ensures Places(promises + [Promise(Pending, Undefined, Some([]))], subscribers, line)
  {
    var promises' := promises + [Promise(Pending, Undefined, Some([]))];
    forall s | 0 <= s < |subscribers| ensures PlaceInv(s, promises', subscribers[s].owner, line) {
      assert PlaceInv(s, promises, subscribers[s].owner, line);
    }
    forall p | 0 <= p < |promises'| ensures WaitingInv(p, promises'[p], subscribers) {
      if p < |promises| { assert WaitingInv(p, promises[p], subscribers); }
    }
    forall i | 0 <= i < |line| ensures FinalAt(promises', subscribers[line[i]].owner) {
      assert FinalAt(promises, subscribers[line[i]].owner);
    }
  }

  lemma AllocateKeeps(w: World, origin: Origin)
    requires Structure(w)
    ensures Structure(Allocate(w, origin))
  {
    PhasesNewPromise(w, origin);
    PlacesNewPromise(w.promises, w.subscribers, Line(w));
    assert Line(Allocate(w, origin)) == Line(w);
  }

  lemma PlacesSamePhase(promises: seq<Promise>, subscribers: seq<Subscriber>, line: seq<nat>, p: nat, rec: Promise)
    requires Places(promises, subscribers, line) && p < |promises|
    requires Final(rec.phase) == Final(promises[p].phase)
    requires !Final(rec.phase) ==> rec.subs == promises[p].subs
    ensures Places(promises[p := rec], subscribers, line)
  {
    var promises' := promises[p := rec];
    forall s | 0 <= s < |subscribers| ensures PlaceInv(s, promises', subscribers[s].owner, line) {
      assert PlaceInv(s, promises, subscribers[s].owner, line);
    }
    forall q | 0 <= q < |promises'| ensures WaitingInv(q, promises'[q], subscribers) {
      assert WaitingInv(q, promises[q], subscribers);
    }
    forall i | 0 <= i < |line| ensures FinalAt(promises', subscribers[line[i]].owner) {
      assert FinalAt(promises, subscribers[line[i]].owner);
    }
  }

  lemma PhasesSettle(w: World, p: nat, v: Value, ok: bool)
    requires WF(w) && PhasesOf(w) && p < |w.promises| && ValueOk(w, v) && w.promises[p].phase == Pending
    ensures PhasesOf(Settle(w, p, v, ok))
  {
    var w' := Settle(w, p, v, ok);
    var t := if ok then PublishFulfil(p) else PublishReject(p);
    assert PhaseInv(p, w.promises[p], w.history.trails[p].decided, w.pending, Published(w.control) == Some(p));
    forall q | 0 <= q < |w'.promises|
      ensures PhaseInv(q, w'.promises[q], w'.history.trails[q].decided, w'.pending, Published(w'.control) == Some(q))
    {
      assert PhaseInv(q, w.promises[q], w.history.trails[q].decided, w.pending, Published(w.control) == Some(q));
    }
  }

  lemma SettleKeeps(w: World, p: nat, v: Value, ok: bool)
    requires Structure(w) && p < |w.promises| && ValueOk(w, v)
    ensures Structure(Settle(w, p, v, ok))
  {
    if w.promises[p].phase == Pending {
      var w' := Settle(w, p, v, ok);
      PhasesSettle(w, p, v, ok);
      LineSnoc(w, w', if ok then PublishFulfil(p) else PublishReject(p));
      PlacesSamePhase(w.promises, w.subscribers, Line(w), p, w.promises[p].(phase := Settled, data := v));
    }
  }

  lemma PhasesInvoke(promises: seq<Promise>, trails: seq<Trail>, pending: seq<Task>, published: Option<nat>, s: nat)
    requires Phases(promises, trails, pending, published) && Invoke(s) !in pending
    ensures Phases(promises, trails, pending + [Invoke(s)], published)
  {
    forall q | 0 <= q < |promises|
      ensures PhaseInv(q, promises[q], trails[q].decided, pending + [Invoke(s)], published == Some(q))
    {
      assert PhaseInv(q, promises[q], trails[q].decided, pending, published == Some(q));
    }
  }

  lemma PhasesSubs(promises: seq<Promise>, trails: seq<Trail>, pending: seq<Task>, published: Option<nat>, p: nat,
                   ss: seq<nat>)
    requires Phases(promises, trails, pending, published) && p < |promises| && !Final(promises[p].phase)
    ensures Phases(promises[p := promises[p].(subs := Some(ss))], trails, pending, published)
  {
    var promises' := promises[p := promises[p].(subs := Some(ss))];
    forall q | 0 <= q < |promises'|
      ensures PhaseInv(q, promises'[q], trails[q].decided, pending, published == Some(q))
    {
      assert PhaseInv(q, promises[q], trails[q].decided, pending, published == Some(q));
    }
  }

  lemma PlacesInvoke(promises: seq<Promise>, subscribers: seq<Subscriber>, line: seq<nat>, sub: Subscriber)
    requires Places(promises, subscribers, line) && FinalAt(promises, sub.owner)
    ensures Places(promises, subscribers + [sub], line + [|subscribers|])
  {
    var subscribers', line' := subscribers + [sub], line + [|subscribers|];
    forall s | 0 <= s < |subscribers'| ensures PlaceInv(s, promises, subscribers'[s].owner, line') {
      if s < |subscribers| { assert PlaceInv(s, promises, subscribers[s].owner, line); }
    }
    forall p | 0 <= p < |promises| ensures WaitingInv(p, promises[p], subscribers') {
      assert WaitingInv(p, promises[p], subscribers);
      OrderedMore(promises[p], subscribers, sub);
    }
    forall i, j | 0 <= i < j < |line'| ensures InOrder(subscribers', line'[i], line'[j]) {
      if j < |line| { assert InOrder(subscribers, line[i], line[j]); }
    }
  }

  lemma OrderedMore(rec: Promise, subscribers: seq<Subscriber>, sub: Subscriber)
    ensures rec.subs.Some? && Ordered(subscribers, rec.subs.value) ==> Ordered(subscribers + [sub], rec.subs.value)
  {
    if rec.subs.Some? && Ordered(subscribers, rec.subs.value) {
      forall i, j | 0 <= i < j < |rec.subs.value|
        ensures InOrder(subscribers + [sub], rec.subs.value[i], rec.subs.value[j])
      {
        assert InOrder(subscribers, rec.subs.value[i], rec.subs.value[j]);
      }
    }
  }

  lemma PlacesWait(promises: seq<Promise>, subscribers: seq<Subscriber>, line: seq<nat>, sub: Subscriber, p: nat)
    requires Places(promises, subscribers, line) && sub.owner == p < |promises|
    requires !Final(promises[p].phase) && promises[p].subs.Some?
    ensures Places(promises[p := promises[p].(subs := Some(promises[p].subs.value + [|subscribers|]))],
                   subscribers + [sub], line)
  {
    var s' := |subscribers|;
    var promises', subscribers' :=
      promises[p := promises[p].(subs := Some(promises[p].subs.value + [s']))], subscribers + [sub];
    forall s | 0 <= s < |subscribers'| ensures PlaceInv(s, promises', subscribers'[s].owner, line) {
      if s < s' { assert PlaceInv(s, promises, subscribers[s].owner, line); }
    }
    forall q | 0 <= q < |promises'| ensures WaitingInv(q, promises'[q], subscribers') {
      assert WaitingInv(q, promises[q], subscribers);
      OrderedMore(promises[q], subscribers, sub);
    }
    forall i, j | 0 <= i < j < |line| ensures InOrder(subscribers', line[i], line[j]) {
      assert InOrder(subscribers, line[i], line[j]);
    }
    forall i | 0 <= i < |line| ensures FinalAt(promises', subscribers'[line[i]].owner) {
      assert FinalAt(promises, subscribers[line[i]].owner);
    }
  }

  lemma SubscribeKeeps(w: World, p: nat, f: Callback, r: Callback)
    requires Structure(w) && p < |w.promises| && CallbackOk(w, f) && CallbackOk(w, r)
    ensures Structure(Subscribe(w, p, f, r))
  {
    var d, s := |w.promises|, |w.subscribers|;
    var w1, w' := Allocate(w, Derived), Subscribe(w, p, f, r);
    AllocateKeeps(w, Derived);
    var sub := Subscriber(p, d, f, r);
    if Final(w.promises[p].phase) {
      LineSnoc(w1, w', Invoke(s));
      forall t | t in w.pending ensures t != Invoke(s) { assert TaskOk(w, t); }
      PhasesInvoke(w1.promises, w1.history.trails, w1.pending, Published(w1.control), s);
      PlacesInvoke(w1.promises, w1.subscribers, Line(w1), sub);
    } else {
      assert PhaseInv(p, w.promises[p], w.history.trails[p].decided, w.pending, Published(w.control) == Some(p));
      PhasesSubs(w1.promises, w1.history.trails, w1.pending, Published(w1.control), p, w.promises[p].subs.value + [s]);
      PlacesWait(w1.promises, w1.subscribers, Line(w1), sub, p);
      assert Line(w') == Line(w1);
    }
  }

  /** Parts of the world the structure does not look at may change freely. */
  ghost predicate SameStructure(w: World, w': World) {
    && w'.promises == w.promises && w'.subscribers == w.subscribers && w'.pending == w.pending
    && w'.timer == w.timer && w'.scheduled == w.scheduled && w'.control == w.control
    && w'.history.log == w.history.log && w'.history.enqueued == w.history.enqueued
    && w'.history.started == w.history.started
    && |w'.history.trails| == |w.history.trails|
    && forall p :: 0 <= p < |w.history.trails| ==> w'.history.trails[p].decided == w.history.trails[p].decided
  }

  lemma NeutralKeeps(w: World, w': World)
    requires Structure(w) && WF(w') && SameStructure(w, w')
    ensures Structure(w')
  {
    forall q | 0 <= q < |w'.promises|
      ensures PhaseInv(q, w'.promises[q], w'.history.trails[q].decided, w'.pending, Published(w'.control) == Some(q))
    {
      assert PhaseInv(q, w.promises[q], w.history.trails[q].decided, w.pending, Published(w.control) == Some(q));
    }
  }

  // ---------------------------------------------------------------- resolution keeps it

  lemma HandleThenableKeeps(w: World, p: nat, v: Value)
    requires Structure(w) && p < |w.promises| && ValueOk(w, v)
    ensures Structure(HandleThenable(w, p, v))
  {
    SettleKeeps(w, p, CycleError, false);
    if IsThenable(v) && v != PromiseRef(p) {
      var w1 := OpenLatch(w, p, v);
      NeutralKeeps(w, w1);
      if v.PromiseRef? {
        SubscribeKeeps(w1, v.p, AdoptFulfil(|w.latches|), AdoptReject(|w.latches|));
      }
    }
  }

  lemma ResolveKeeps(w: World, p: nat, v: Value)
    requires Structure(w) && p < |w.promises| && ValueOk(w, v)
    ensures Structure(Resolve(w, p, v))
  {
    SettleKeeps(w, p, v, true);
    HandleThenableKeeps(w, p, v);
  }

  lemma LatchResolveKeeps(w: World, l: nat, v: Value)
    requires Structure(w) && l < |w.latches| && ValueOk(w, v)
    ensures Structure(LatchResolve(w, l, v))
  {
    var w1, p := CloseLatch(w, l), w.latches[l].target;
    NeutralKeeps(w, w1);
    if w.latches[l].source == v {
      SettleKeeps(w1, p, v, true);
    } else {
      ResolveKeeps(w1, p, v);
    }
  }

  lemma LatchRejectKeeps(w: World, l: nat, r: Value)
    requires Structure(w) && l < |w.latches| && ValueOk(w, r)
    ensures Structure(LatchReject(w, l, r)) && Structure(LatchThrow(w, l, r))
  {
    NeutralKeeps(w, CloseLatch(w, l));
    SettleKeeps(CloseLatch(w, l), w.latches[l].target, r, false);
    SettleKeeps(w, w.latches[l].target, r, false);
  }

  lemma CallKeeps(w: World, p: nat, v: Value)
    requires Structure(w) && p < |w.promises| && ValueOk(w, v)
    ensures Structure(CallResolve(w, p, v)) && Structure(CallReject(w, p, v))
  {
    var w1, w2 := RecordCall(w, p, ResolveCall(v, |w.subscribers|)), RecordCall(w, p, RejectCall(v));
    NeutralKeeps(w, w1);
    NeutralKeeps(w, w2);
    ResolveKeeps(w1, p, v);
    SettleKeeps(w2, p, v, false);
  }

  lemma WatchKeeps(w: World, a: nat, i: nat, q: nat)
    requires Structure(w) && a < |w.aggregates| && AggregateOk(w, w.aggregates[a])
    requires i < |w.aggregates[a].items| && q < |w.promises|
    ensures Structure(Watch(w, a, i, q))
  {
    NeutralKeeps(w, Count(w, a, i));
    SubscribeKeeps(Count(w, a, i), q, StoreResult(a, i), RejectTarget(w.aggregates[a].target));
  }

  lemma AllEntryKeeps(w: World, a: nat, i: nat)
    requires Structure(w) && a < |w.aggregates| && i < |w.aggregates[a].items|
    requires forall v <- w.aggregates[a].items :: ValueOk(w, v)
    ensures Structure(AllEntry(w, a, i))
  {
    var v := w.aggregates[a].items[i];
    assert v in w.aggregates[a].items;
    if v.PromiseRef? {
      WatchKeeps(w, a, i, v.p);
    } else {
      NeutralKeeps(w, AllEntry(w, a, i));
    }
  }

  lemma {:induction false} AllLoopKeeps(w: World, a: nat, i: nat)
    requires Structure(w) && a < |w.aggregates| && i <= |w.aggregates[a].items|
    requires forall v <- w.aggregates[a].items :: ValueOk(w, v)
    ensures Structure(AllLoop(w, a, i))
    decreases |w.aggregates[a].items| - i
  {
    hide WF, PhasesOf, PlacesOf, Schedule, Fifo, ControlInv, AllLoop, AllEntry, ValueOk;
    AllLoopStep(w, a, i);
    if i < |w.aggregates[a].items| {
      AllEntryKeeps(w, a, i);
      AllLoopKeeps(AllEntry(w, a, i), a, i + 1);
    }
  }

  lemma AllKeeps(w: World, items: seq<Value>)
    requires Structure(w) && forall v <- items :: ValueOk(w, v)
    ensures Structure(All(w, items))
  {
    var a := |w.aggregates|;
    AllocateKeeps(w, Combined(a));
    NeutralKeeps(Allocate(w, Combined(a)), AllBegin(w, items));
    AllLoopKeeps(AllBegin(w, items), a, 0);
    var w1 := AllLoop(AllBegin(w, items), a, 0);
    if w1.aggregates[a].remaining == 0 {
      assert AggregateOk(w1, w1.aggregates[a]);
      CallKeeps(w1, w1.aggregates[a].target, ResultArray(a));
    }
  }

  lemma StoreKeeps(w: World, a: nat, i: nat, v: Value)
    requires Structure(w) && a < |w.aggregates| && i < |w.aggregates[a].results| && ValueOk(w, v)
    ensures Structure(Store(w, a, i, v))
  {
    var g := w.aggregates[a];
    var w1 := SetAggregate(w, a, g.(results := g.results[i := Some(v)], remaining := g.remaining - 1));
    NeutralKeeps(w, w1);
    if g.remaining - 1 == 0 {
      CallKeeps(w1, g.target, ResultArray(a));
    }
  }

  // ---------------------------------------------------------------- the flush keeps it

  lemma TakeWorkKeeps(w: World)
    requires Structure(w) && w.control.Flushing? && w.control.current != NoTask
    requires w.control.work != [] && w.control.call == NoCall
    ensures Structure(TakeWork(w)) && Line(TakeWork(w)) == Line(w)
  {
    var w' := TakeWork(w);
    var s := w.control.work[0];
    calc {
      Line(w');
      w.history.log + [s] + w.control.work[1..] + Invokes(w.pending);
      { assert [s] + w.control.work[1..] == w.control.work; }
      Line(w);
    }
  }

  lemma EndCallKeeps(w: World, s: nat, v: Value)
    requires Structure(w) && s < |w.subscribers|
    requires w.control.Flushing? ==> w.control.call == InCallback(s)
    ensures Structure(EndCall(w, s, v))
  {
    assert Line(EndCall(w, s, v)) == Line(w);
  }

  lemma ConcludeKeeps(w: World, d: nat, v: Value, ok: bool)
    requires Structure(w) && d < |w.promises| && ValueOk(w, v)
    ensures Structure(Conclude(w, d, v, ok)) && Conclude(w, d, v, ok).control == w.control
  {
    hide PhasesOf, PlacesOf, Schedule, Fifo, ControlInv;
    HandleThenableKeeps(w, d, v);
    ResolveKeeps(w, d, v);
    SettleKeeps(w, d, v, false);
  }

  lemma ResumeKeeps(w: World, s: nat, v: Value, ok: bool)
    requires Structure(w) && s < |w.subscribers| && ValueOk(w, v)
    requires w.control.Flushing? ==> w.control.call == InCallback(s)
    ensures Structure(Resume(w, s, v, ok))
  {
    var d := w.subscribers[s].derived;
    assert SubscriberOk(w, w.subscribers[s]);
    ConcludeKeeps(w, d, v, ok);
    EndCallKeeps(Conclude(w, d, v, ok), s, v);
  }

  lemma FinishKeeps(w: World, s: nat, c: Call, v: Value, ok: bool)
    requires Structure(w) && s < |w.subscribers| && ValueOk(w, v)
    requires w.control.Flushing? ==> w.control.call == InCallback(s)
    ensures Structure(Finish(w, s, c, v, ok))
  {
    var d := w.subscribers[s].derived;
    assert SubscriberOk(w, w.subscribers[s]);
    NeutralKeeps(w, RecordCall(w, d, c));
    ResumeKeeps(RecordCall(w, d, c), s, v, ok);
  }

  lemma DispatchKeeps(w: World, s: nat)
    requires Structure(w) && s < |w.subscribers|
    requires w.control.Flushing? ==> w.control.call == InCallback(s)
    ensures Structure(Dispatch(w, s))
  {
    var v := OwnerData(w, s);
    assert SubscriberOk(w, w.subscribers[s]);
    match Slot(w, s)
    case Absent =>
      var d, ok := w.subscribers[s].derived, w.promises[w.subscribers[s].owner].phase != Rejected;
      FinishKeeps(w, s, ConclusionCall(w, d, v, ok), v, ok);
    case User(_) =>
    case AdoptFulfil(l) => LatchResolveKeeps(w, l, v);
    case AdoptReject(l) => LatchRejectKeeps(w, l, v);
    case StoreResult(a, i) => StoreKeeps(w, a, i, v);
    case RejectTarget(p) => CallKeeps(w, p, v);
  }

  lemma EndCallbackKeeps(w: World, s: nat, o: Outcome)
    requires Structure(w) && s < |w.subscribers| && ValueOk(w, if o.Returned? then o.v else o.e)
    requires w.control.Flushing? && w.control.call == InCallback(s)
    ensures Structure(EndCallback(w, s, o))
  {
    var d := w.subscribers[s].derived;
    assert SubscriberOk(w, w.subscribers[s]);
    match o
    case Returned(v) => FinishKeeps(w, s, ConclusionCall(w, d, v, true), v, true);
    case Thrown(e) =>
      CallKeeps(w, d, e);
      ResumeKeeps(CallReject(w, d, e), s, OwnerData(w, s), true);
  }

  /** Taking an invocation off the queue moves it from the queue's part of the line to the work's part. */
  lemma StartInvokeKeeps(w: World)
    requires Structure(w) && w.control == Flushing(NoTask, [], NoCall) && w.pending != [] && w.pending[0].Invoke?
    ensures Structure(StartTask(w))
  {
    var w', s := StartTask(w), w.pending[0].s;
    assert w.pending == [w.pending[0]] + w.pending[1..];
    calc {
      Line(w');
      w.history.log + [s] + Invokes(w.pending[1..]);
      w.history.log + ([s] + Invokes(w.pending[1..]));
      w.history.log + [] + Invokes(w.pending);
      Line(w);
    }
    forall q | 0 <= q < |w'.promises|
      ensures PhaseInv(q, w'.promises[q], w'.history.trails[q].decided, w'.pending, Published(w'.control) == Some(q))
    {
      assert PhaseInv(q, w.promises[q], w.history.trails[q].decided, w.pending, Published(w.control) == Some(q));
    }
  }

  lemma PhasesPublish(w: World, p: nat)
    requires Structure(w) && w.control == Flushing(NoTask, [], NoCall) && w.pending != []
    requires w.pending[0] == PublishFulfil(p) || w.pending[0] == PublishReject(p)
    ensures PhasesOf(StartTask(w)) && p < |w.promises| && w.promises[p].phase == Settled && w.promises[p].subs.Some?
  {
    var w' := StartTask(w);
    assert w.pending[0] in w.pending && TaskOk(w, w.pending[0]);
    assert w.pending == [w.pending[0]] + w.pending[1..];
    forall q | 0 <= q < |w'.promises|
      ensures PhaseInv(q, w'.promises[q], w'.history.trails[q].decided, w'.pending, Published(w'.control) == Some(q))
    {
      assert PhaseInv(q, w.promises[q], w.history.trails[q].decided, w.pending, Published(w.control) == Some(q));
      assert PhaseInv(p, w.promises[p], w.history.trails[p].decided, w.pending, Published(w.control) == Some(p));
    }
  }

  /** Publishing moves a promise's waiting subscribers into the line, in front of the queued ones. */
  lemma PlacesPublish(promises: seq<Promise>, subscribers: seq<Subscriber>, log: seq<nat>, queued: seq<nat>, p: nat,
                      ph: Phase)
    requires Places(promises, subscribers, log + queued) && p < |promises|
    requires !Final(promises[p].phase) && promises[p].subs.Some? && Final(ph)
    ensures Places(promises[p := promises[p].(phase := ph)], subscribers, log + promises[p].subs.value + queued)
  {
    var line, ss := log + queued, promises[p].subs.value;
    var promises', line' := promises[p := promises[p].(phase := ph)], log + ss + queued;
    assert WaitingInv(p, promises[p], subscribers);
    forall i | 0 <= i < |line'|
      ensures line'[i] < |subscribers| && FinalAt(promises', subscribers[line'[i]].owner)
    {
      PublishOwner(promises, subscribers, log, queued, p, i);
    }
    forall i, j | 0 <= i < j < |line'| ensures InOrder(subscribers, line'[i], line'[j]) {
      PublishOwner(promises, subscribers, log, queued, p, i);
      PublishOwner(promises, subscribers, log, queued, p, j);
      PublishOrder(promises, subscribers, log, queued, p, i, j);
    }
    forall s | 0 <= s < |subscribers| ensures PlaceInv(s, promises', subscribers[s].owner, line') {
      assert PlaceInv(s, promises, subscribers[s].owner, line);
      assert s in ss ==> s in line';
      assert s in line ==> s in log || s in queued;
    }
    forall q | 0 <= q < |promises'| ensures WaitingInv(q, promises'[q], subscribers) {
      assert WaitingInv(q, promises[q], subscribers);
    }
  }

  lemma PublishOwner(promises: seq<Promise>, subscribers: seq<Subscriber>, log: seq<nat>, queued: seq<nat>, p: nat,
                     i: nat)
    requires LineInv(promises, subscribers, log + queued) && p < |promises| && promises[p].subs.Some?
    requires OwnedBy(subscribers, promises[p].subs.value, p)
    requires i < |log + promises[p].subs.value + queued|
    ensures var ss := promises[p].subs.value; var s := (log + ss + queued)[i];
      && s < |subscribers|
      && if |log| <= i < |log| + |ss| then subscribers[s].owner == p else FinalAt(promises, subscribers[s].owner)
  {
    var ss := promises[p].subs.value;
    if i < |log| {
      assert (log + queued)[i] == (log + ss + queued)[i];
    } else if i >= |log| + |ss| {
      assert (log + queued)[i - |ss|] == (log + ss + queued)[i];
    }
  }

  lemma PublishOrder(promises: seq<Promise>, subscribers: seq<Subscriber>, log: seq<nat>, queued: seq<nat>, p: nat,
                     i: nat, j: nat)
    requires Places(promises, subscribers, log + queued) && p < |promises|
    requires !Final(promises[p].phase) && promises[p].subs.Some?
    requires i < j < |log + promises[p].subs.value + queued|
    ensures var line' := log + promises[p].subs.value + queued; InOrder(subscribers, line'[i], line'[j])
  {
    var ss := promises[p].subs.value;
    var line, line' := log + queued, log + ss + queued;
    assert WaitingInv(p, promises[p], subscribers);
    PublishOwner(promises, subscribers, log, queued, p, i);
    PublishOwner(promises, subscribers, log, queued, p, j);
    var inI, inJ := |log| <= i < |log| + |ss|, |log| <= j < |log| + |ss|;
    if inI && inJ {
      assert InOrder(subscribers, ss[i - |log|], ss[j - |log|]);
    } else if !inI && !inJ {
      var i', j' := if i < |log| then i else i - |ss|, if j < |log| then j else j - |ss|;
      assert line[i'] == line'[i] && line[j'] == line'[j];
      assert InOrder(subscribers, line[i'], line[j']);
    }
  }

  lemma StartPublishKeeps(w: World, p: nat)
    requires Structure(w) && w.control == Flushing(NoTask, [], NoCall) && w.pending != []
    requires w.pending[0] == PublishFulfil(p) || w.pending[0] == PublishReject(p)
    ensures Structure(StartTask(w))
  {
    PhasesPublish(w, p);
    StartPublishPlaces(w, p);
    StartTaskFifo(w);
  }

  lemma StartTaskFifo(w: World)
    requires WF(w) && Schedule(w) && Fifo(w.history, w.pending)
    requires w.control == Flushing(NoTask, [], NoCall) && w.pending != []
    ensures Fifo(StartTask(w).history, StartTask(w).pending)
    ensures Schedule(StartTask(w)) && ControlInv(StartTask(w).control, StartTask(w).history.log)
  {
    assert w.pending == [w.pending[0]] + w.pending[1..];
  }

  lemma StartPublishPlaces(w: World, p: nat)
    requires WF(w) && PlacesOf(w) && w.control == Flushing(NoTask, [], NoCall) && w.pending != []
    requires w.pending[0] == PublishFulfil(p) || w.pending[0] == PublishReject(p)
    requires p < |w.promises| && w.promises[p].phase == Settled && w.promises[p].subs.Some?
    ensures PlacesOf(StartTask(w))
  {
    var w', queued := StartTask(w), Invokes(w.pending);
    assert w.history.log + [] == w.history.log;
    assert Line(w) == w.history.log + queued;
    PlacesPublish(w.promises, w.subscribers, w.history.log, queued, p, w'.promises[p].phase);
  }

  lemma EndTaskKeeps(w: World)
    requires Structure(w) && w.control.Flushing? && w.control.work == [] && w.control.call == NoCall
    ensures Structure(EndTask(w))
  {
    var w' := EndTask(w);
    assert Line(w') == Line(w);
    forall q | 0 <= q < |w'.promises|
      ensures PhaseInv(q, w'.promises[q], w'.history.trails[q].decided, w'.pending, Published(w'.control) == Some(q))
    {
      assert PhaseInv(q, w.promises[q], w.history.trails[q].decided, w.pending, Published(w.control) == Some(q));
    }
    if w.control.current.Publishing? {
      var p := w.control.current.p;
      assert PhaseInv(p, w.promises[p], w.history.trails[p].decided, w.pending, Published(w.control) == Some(p));
      PlacesSamePhase(w.promises, w.subscribers, Line(w), p, w.promises[p].(subs := None));
    }
  }

  lemma FlushKeeps(w: World, e: Event)
    requires Structure(w) && Enabled(w, e) && (e.FlushBegins? || e.FlushEnds? || e.ThenableEnds?)
    ensures Structure(Apply(w, e))
  {
    var w' := Apply(w, e);
    assert Line(w') == Line(w);
    assert Published(w'.control) == Published(w.control);
  }

  lemma EngineStepKeeps(w: World, e: Event)
    requires Structure(w) && Enabled(w, e) && !UserEvent(e)
    ensures Structure(Apply(w, e))
  {
    hide PhasesOf, PlacesOf, Schedule, Fifo;
    match e
    case TaskStarts =>
      assert w.pending[0] in w.pending && TaskOk(w, w.pending[0]);
      match w.pending[0] {
        case PublishFulfil(p) => StartPublishKeeps(w, p);
        case PublishReject(p) => StartPublishKeeps(w, p);
        case Invoke(_) => StartInvokeKeeps(w);
      }
    case CallbackBegins =>
      TakeWorkKeeps(w);
      assert w.control.work[0] in w.control.work;
      DispatchKeeps(TakeWork(w), w.control.work[0]);
    case CallbackEnds(o) => EndCallbackKeeps(w, w.control.call.s, o);
    case TaskEnds => EndTaskKeeps(w);
    case _ => FlushKeeps(w, e);
  }

  lemma UserStepKeeps(w: World, e: Event)
    requires Structure(w) && Enabled(w, e) && UserEvent(e)
    ensures Structure(Apply(w, e))
  {
    match e
    case New => AllocateKeeps(w, Constructed);
    case DoResolve(p, v) => CallKeeps(w, p, v);
    case DoReject(p, r) => CallKeeps(w, p, r);
    case DoThen(p, f, r) => SubscribeKeeps(w, p, f, r);
    case DoAll(items) => AllKeeps(w, items);
    case ThenableResolves(l, v) => LatchResolveKeeps(w, l, v);
    case ThenableRejects(l, r) => LatchRejectKeeps(w, l, r);
    case ThenableThrows(l, x) => LatchRejectKeeps(w, l, x);
  }

  lemma {:induction false} ExecKeeps(w: World, es: seq<Event>)
    requires Structure(w)
    ensures Exec(w, es).Some? ==> Structure(Exec(w, es).value)
    decreases |es|
  {
    if es != [] && Enabled(w, es[0]) {
      if UserEvent(es[0]) { UserStepKeeps(w, es[0]); } else { EngineStepKeeps(w, es[0]); }
      ExecKeeps(Apply(w, es[0]), es[1..]);
    }
  }

  lemma EmptyStructure()
    ensures Structure(EMPTY_WORLD)
  {
    assert Line(EMPTY_WORLD) == [];
  }

  lemma ReachableStructure(w: World)
    requires Reachable(w)
    ensures Structure(w)
  {
    hide Structure;
    EmptyStructure();
    var es :| Exec(EMPTY_WORLD, es) == Some(w);
    ExecKeeps(EMPTY_WORLD, es);
  }
}
