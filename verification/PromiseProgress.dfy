/**
  What no step ever takes back: a promise settles once, calls and invocations are only added,
  and a latch that has been used stays used.
*/
module PromiseProgress {
  import opened Basics
  import opened PromiseWorld
  import opened PromiseStructure

  /** PENDING, then SETTLED, then the phase it was settled for; data is fixed from SETTLED on. */
  ghost predicate SettlesOnce(rec: Promise, rec': Promise, t: Trail, t': Trail) {
    && (rec.phase != Pending ==> rec'.phase != Pending && rec'.data == rec.data && t'.decided == t.decided)
    && (Final(rec.phase) ==> rec'.phase == rec.phase)
  }

  ghost predicate TrailGrows(t: Trail, t': Trail) { t'.origin == t.origin && t.calls <= t'.calls }

  ghost predicate LatchStays(l: Latch, l': Latch) {
    l'.target == l.target && l'.source == l.source && (l.closed ==> l'.closed)
  }

  ghost predicate PromisesAdvance(w: World, w': World) {
    && |w.history.trails| == |w.promises| <= |w'.promises| == |w'.history.trails|
    && forall p :: 0 <= p < |w.promises| ==>
         && SettlesOnce(w.promises[p], w'.promises[p], w.history.trails[p], w'.history.trails[p])
         && TrailGrows(w.history.trails[p], w'.history.trails[p])
  }

  ghost predicate Advances(w: World, w': World) {
    && PromisesAdvance(w, w')
    && w.subscribers <= w'.subscribers
    && w.history.log <= w'.history.log
    && w.history.started <= w'.history.started
    && w.history.enqueued <= w'.history.enqueued
    && |w.latches| <= |w'.latches|
    && (forall l :: 0 <= l < |w.latches| ==> LatchStays(w.latches[l], w'.latches[l]))
  }

  lemma Trans(w1: World, w2: World, w3: World)
    requires Advances(w1, w2) && Advances(w2, w3)
    ensures Advances(w1, w3)
  {
    forall p | 0 <= p < |w1.promises|
      ensures SettlesOnce(w1.promises[p], w3.promises[p], w1.history.trails[p], w3.history.trails[p])
      ensures TrailGrows(w1.history.trails[p], w3.history.trails[p])
    {
      assert SettlesOnce(w1.promises[p], w2.promises[p], w1.history.trails[p], w2.history.trails[p]);
      assert SettlesOnce(w2.promises[p], w3.promises[p], w2.history.trails[p], w3.history.trails[p]);
      assert TrailGrows(w1.history.trails[p], w2.history.trails[p]);
      assert TrailGrows(w2.history.trails[p], w3.history.trails[p]);
    }
    forall l | 0 <= l < |w1.latches| ensures LatchStays(w1.latches[l], w3.latches[l]) {
      assert LatchStays(w1.latches[l], w2.latches[l]);
      assert LatchStays(w2.latches[l], w3.latches[l]);
    }
  }

  lemma SettleAdvances(w: World, p: nat, v: Value, ok: bool)
    requires WF(w) && p < |w.promises| && ValueOk(w, v)
    ensures Advances(w, Settle(w, p, v, ok))
  {
  }

  lemma AllocateAdvances(w: World, origin: Origin)
    requires WF(w)
    ensures Advances(w, Allocate(w, origin))
  {
  }

  lemma SubscribeAdvances(w: World, p: nat, f: Callback, r: Callback)
    requires WF(w) && p < |w.promises| && CallbackOk(w, f) && CallbackOk(w, r)
    ensures Advances(w, Subscribe(w, p, f, r))
  {
  }

  lemma HandleAdvances(w: World, p: nat, v: Value)
    requires WF(w) && p < |w.promises| && ValueOk(w, v)
    ensures Advances(w, HandleThenable(w, p, v))
  {
    SettleAdvances(w, p, CycleError, false);
    OpenAdvances(w, p, v);
    if v.PromiseRef? && v.p != p {
      var w1 := OpenLatch(w, p, v);
      SubscribeAdvances(w1, v.p, AdoptFulfil(|w.latches|), AdoptReject(|w.latches|));
      Trans(w, w1, Subscribe(w1, v.p, AdoptFulfil(|w.latches|), AdoptReject(|w.latches|)));
    }
  }

  lemma OpenAdvances(w: World, p: nat, v: Value)
    requires WF(w) && p < |w.promises| && ValueOk(w, v)
    ensures Advances(w, OpenLatch(w, p, v))
  {
  }

  lemma ResolveAdvances(w: World, p: nat, v: Value)
    requires WF(w) && p < |w.promises| && ValueOk(w, v)
    ensures Advances(w, Resolve(w, p, v))
  {
    SettleAdvances(w, p, v, true);
    HandleAdvances(w, p, v);
  }

  lemma CloseAdvances(w: World, l: nat)
    requires WF(w) && l < |w.latches|
    ensures Advances(w, CloseLatch(w, l))
  {
  }

  lemma LatchAdvances(w: World, l: nat, v: Value)
    requires WF(w) && l < |w.latches| && ValueOk(w, v)
    ensures Advances(w, LatchResolve(w, l, v))
    ensures Advances(w, LatchReject(w, l, v)) && Advances(w, LatchThrow(w, l, v))
  {
    hide Advances, Settle, Resolve;
    var w1, p := CloseLatch(w, l), w.latches[l].target;
    if !w.latches[l].closed {
      CloseAdvances(w, l);
      SettleAdvances(w1, p, v, true);
      SettleAdvances(w1, p, v, false);
      SettleAdvances(w, p, v, false);
      ResolveAdvances(w1, p, v);
      Trans(w, w1, LatchResolve(w, l, v));
      Trans(w, w1, LatchReject(w, l, v));
    } else {
      Reflexive(w);
    }
  }

  lemma RecordAdvances(w: World, p: nat, c: Call)
    requires WF(w) && p < |w.promises|
    ensures Advances(w, RecordCall(w, p, c))
  {
  }

  lemma CallResolveAdvances(w: World, p: nat, v: Value)
    requires WF(w) && p < |w.promises| && ValueOk(w, v)
    ensures Advances(w, CallResolve(w, p, v))
  {
    var c := ResolveCall(v, |w.subscribers|);
    RecordAdvances(w, p, c);
    ResolveAdvances(RecordCall(w, p, c), p, v);
    Trans(w, RecordCall(w, p, c), CallResolve(w, p, v));
  }

  lemma CallRejectAdvances(w: World, p: nat, r: Value)
    requires WF(w) && p < |w.promises| && ValueOk(w, r)
    ensures Advances(w, CallReject(w, p, r))
  {
    RecordAdvances(w, p, RejectCall(r));
    SettleAdvances(RecordCall(w, p, RejectCall(r)), p, r, false);
    Trans(w, RecordCall(w, p, RejectCall(r)), CallReject(w, p, r));
  }

  lemma AllEntryAdvances(w: World, a: nat, i: nat)
    requires WF(w) && a < |w.aggregates| && i < |w.aggregates[a].items|
    requires forall v <- w.aggregates[a].items :: ValueOk(w, v)
    ensures Advances(w, AllEntry(w, a, i))
  {
    var v := w.aggregates[a].items[i];
    assert v in w.aggregates[a].items;
    if v.PromiseRef? {
      var w1 := Count(w, a, i);
      SubscribeAdvances(w1, v.p, StoreResult(a, i), RejectTarget(w.aggregates[a].target));
      Trans(w, w1, Watch(w, a, i, v.p));
    }
  }

  lemma {:induction false} AllLoopAdvances(w: World, a: nat, i: nat)
    requires WF(w) && a < |w.aggregates| && i <= |w.aggregates[a].items|
    requires forall v <- w.aggregates[a].items :: ValueOk(w, v)
    ensures Advances(w, AllLoop(w, a, i))
    decreases |w.aggregates[a].items| - i
  {
    hide WF, Advances, AllLoop, AllEntry, ValueOk;
    AllLoopStep(w, a, i);
    if i == |w.aggregates[a].items| {
      Reflexive(w);
    } else {
      AllEntryAdvances(w, a, i);
      AllLoopAdvances(AllEntry(w, a, i), a, i + 1);
      Trans(w, AllEntry(w, a, i), AllLoop(w, a, i));
    }
  }

  lemma AllAdvances(w: World, items: seq<Value>)
    requires WF(w) && forall v <- items :: ValueOk(w, v)
    ensures Advances(w, All(w, items))
  {
    var a, w0 := |w.aggregates|, AllBegin(w, items);
    var w1 := AllLoop(w0, a, 0);
    AllocateAdvances(w, Combined(a));
    Trans(w, Allocate(w, Combined(a)), w0);
    AllLoopAdvances(w0, a, 0);
    Trans(w, w0, w1);
    assert AggregateOk(w1, w1.aggregates[a]);
    CallResolveAdvances(w1, w1.aggregates[a].target, ResultArray(a));
    if w1.aggregates[a].remaining == 0 { Trans(w, w1, All(w, items)); }
  }

  lemma StoreAdvances(w: World, a: nat, i: nat, v: Value)
    requires WF(w) && a < |w.aggregates| && i < |w.aggregates[a].results| && ValueOk(w, v)
    ensures Advances(w, Store(w, a, i, v))
  {
    var g := w.aggregates[a];
    assert AggregateOk(w, g);
    var g' := g.(results := g.results[i := Some(v)], remaining := g.remaining - 1);
    var w1 := SetAggregate(w, a, g');
    if g'.remaining == 0 {
      CallResolveAdvances(w1, g.target, ResultArray(a));
      Trans(w, w1, Store(w, a, i, v));
    }
  }

  lemma ConcludeAdvances(w: World, d: nat, v: Value, ok: bool)
    requires WF(w) && d < |w.promises| && ValueOk(w, v)
    ensures Advances(w, Conclude(w, d, v, ok))
  {
    HandleAdvances(w, d, v);
    ResolveAdvances(w, d, v);
    SettleAdvances(w, d, v, false);
  }

  lemma ResumeAdvances(w: World, s: nat, v: Value, ok: bool)
    requires WF(w) && s < |w.subscribers| && ValueOk(w, v)
    ensures Advances(w, Resume(w, s, v, ok))
  {
    assert SubscriberOk(w, w.subscribers[s]);
    var d := w.subscribers[s].derived;
    ConcludeAdvances(w, d, v, ok);
    EndCallAdvances(Conclude(w, d, v, ok), s, v);
    Trans(w, Conclude(w, d, v, ok), EndCall(Conclude(w, d, v, ok), s, v));
  }

  lemma EndCallAdvances(w: World, s: nat, v: Value)
    requires WF(w) && s < |w.subscribers|
    ensures Advances(w, EndCall(w, s, v))
  {
  }

  lemma FinishAdvances(w: World, s: nat, c: Call, v: Value, ok: bool)
    requires WF(w) && s < |w.subscribers| && ValueOk(w, v)
    ensures Advances(w, Finish(w, s, c, v, ok))
  {
    assert SubscriberOk(w, w.subscribers[s]);
    var w1 := RecordCall(w, w.subscribers[s].derived, c);
    RecordAdvances(w, w.subscribers[s].derived, c);
    ResumeAdvances(w1, s, v, ok);
    Trans(w, w1, Finish(w, s, c, v, ok));
  }

  lemma DispatchAdvances(w: World, s: nat)
    requires WF(w) && s < |w.subscribers|
    ensures Advances(w, Dispatch(w, s))
  {
    var v := OwnerData(w, s);
    assert SubscriberOk(w, w.subscribers[s]);
    match Slot(w, s)
    case Absent =>
      var d, ok := w.subscribers[s].derived, w.promises[w.subscribers[s].owner].phase != Rejected;
      FinishAdvances(w, s, ConclusionCall(w, d, v, ok), v, ok);
    case User(_) =>
    case AdoptFulfil(l) => LatchAdvances(w, l, v);
    case AdoptReject(l) => LatchAdvances(w, l, v);
    case StoreResult(a, i) => StoreAdvances(w, a, i, v);
    case RejectTarget(p) => CallRejectAdvances(w, p, v);
  }

  lemma EndCallbackAdvances(w: World, s: nat, o: Outcome)
    requires WF(w) && s < |w.subscribers| && ValueOk(w, if o.Returned? then o.v else o.e)
    ensures Advances(w, EndCallback(w, s, o))
  {
    assert SubscriberOk(w, w.subscribers[s]);
    match o
    case Returned(v) => FinishAdvances(w, s, ConclusionCall(w, w.subscribers[s].derived, v, true), v, true);
    case Thrown(e) =>
      var w1 := CallReject(w, w.subscribers[s].derived, e);
      CallRejectAdvances(w, w.subscribers[s].derived, e);
      ResumeAdvances(w1, s, OwnerData(w, s), true);
      Trans(w, w1, EndCallback(w, s, o));
  }

  lemma StartTaskAdvances(w: World)
    requires Structure(w) && Enabled(w, TaskStarts)
    ensures Advances(w, StartTask(w))
  {
    hide PlacesOf, Schedule, Fifo, ControlInv;
    var t := w.pending[0];
    assert t in w.pending && TaskOk(w, t);
    if !t.Invoke? {
      PhasesPublish(w, t.p);
      var p := t.p;
      assert PhaseInv(p, w.promises[p], w.history.trails[p].decided, w.pending, Published(w.control) == Some(p));
    }
  }

  lemma BeginAdvances(w: World)
    requires WF(w) && Enabled(w, CallbackBegins)
    ensures Advances(w, BeginCallback(w))
  {
    hide Dispatch;
    var s := w.control.work[0];
    assert s in w.control.work;
    DispatchAdvances(TakeWork(w), s);
    Trans(w, TakeWork(w), BeginCallback(w));
  }

  lemma StepAdvances(w: World, e: Event)
    requires Structure(w) && Enabled(w, e)
    ensures Advances(w, Apply(w, e))
  {
    hide PhasesOf, PlacesOf, Schedule, Fifo, ControlInv, CallResolve, CallReject, All, LatchResolve, LatchReject,
      LatchThrow, StartTask, EndCallback, BeginCallback;
    match e
    case New => AllocateAdvances(w, Constructed);
    case DoResolve(p, v) => CallResolveAdvances(w, p, v);
    case DoReject(p, r) => CallRejectAdvances(w, p, r);
    case DoThen(p, f, r) => SubscribeAdvances(w, p, f, r);
    case DoAll(items) => AllAdvances(w, items);
    case ThenableResolves(l, v) => LatchAdvances(w, l, v);
    case ThenableRejects(l, r) => LatchAdvances(w, l, r);
    case ThenableThrows(l, x) => LatchAdvances(w, l, x);
    case TaskStarts => StartTaskAdvances(w);
    case CallbackBegins => BeginAdvances(w);
    case CallbackEnds(o) => EndCallbackAdvances(w, w.control.call.s, o);
    case _ =>
  }

  lemma Reflexive(w: World)
    requires WF(w)
    ensures Advances(w, w)
  {
  }

  /** Over every run from a reachable state: settled promises keep their outcome, logs and calls only grow. */
  lemma {:induction false} RunsAdvance(w: World, es: seq<Event>)
    requires Structure(w)
    ensures Exec(w, es).Some? ==> Advances(w, Exec(w, es).value) && Structure(Exec(w, es).value)
    decreases |es|
  {
    if es == [] {
      Reflexive(w);
    } else if Enabled(w, es[0]) {
      var w1 := Apply(w, es[0]);
      if UserEvent(es[0]) { UserStepKeeps(w, es[0]); } else { EngineStepKeeps(w, es[0]); }
      StepAdvances(w, es[0]);
      RunsAdvance(w1, es[1..]);
      if Exec(w1, es[1..]).Some? { Trans(w, w1, Exec(w1, es[1..]).value); }
    }
  }
}
