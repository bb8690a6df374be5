/**
  What settles a promise, step by step: a call of its own resolver functions or a latch open for it.
  From that, how a promise that follows another one ends, also when the other was fulfilled with a promise.
*/
module PromiseAdoption {
  import opened Basics
  import opened PromiseWorld
  import opened PromiseStructure
  import opened PromiseProgress
  import opened PromiseFates

  // ---------------------------------------------------------------- the effect of one event

  ghost predicate FulfilledWith(w: World, p: nat, v: Value) {
    p < |w.promises| && p < |w.history.trails| && SettledAs(w.promises[p], w.history.trails[p], v, Fulfilled)
  }

  ghost predicate SelfFulfilled(w: World, r: nat) { FulfilledWith(w, r, PromiseRef(r)) }

  ghost predicate SameSettlement(rec: Promise, rec': Promise, t: Trail, t': Trail) {
    (rec'.phase == Pending <==> rec.phase == Pending) && rec'.data == rec.data && t'.decided == t.decided
  }

  /** From w to w' promise p was not settled; a new promise is pending. */
  ghost predicate Kept(w: World, w': World, p: nat) {
    && |w.history.trails| == |w.promises| <= |w'.promises| == |w'.history.trails|
    && p < |w'.promises|
    && if p < |w.promises| then
         SameSettlement(w.promises[p], w'.promises[p], w.history.trails[p], w'.history.trails[p])
       else w'.promises[p].phase == Pending && w'.history.trails[p].decided == Pending
  }

  ghost predicate AllKept(w: World, w': World) {
    && |w.history.trails| == |w.promises| <= |w'.promises| == |w'.history.trails|
    && forall p :: 0 <= p < |w'.promises| ==> Kept(w, w', p)
  }

  /** Event e runs one of the two closures of latch l, or the catch block beside them. */
  ghost predicate Uses(w: World, e: Event, l: nat) {
    || ((e.ThenableResolves? || e.ThenableRejects? || e.ThenableThrows?) && e.l == l)
    || (&& e.CallbackBegins? && w.control.Flushing? && w.control.work != []
        && w.control.work[0] < |w.subscribers|
        && w.subscribers[w.control.work[0]].onFulfil == AdoptFulfil(l))
  }

  ghost predicate Called(w: World, w': World, x: nat) {
    x < |w.history.trails| && x < |w'.history.trails| && |w.history.trails[x].calls| < |w'.history.trails[x].calls|
  }

  ghost predicate OpenUsed(w: World, e: Event, x: nat) {
    exists l: nat :: Uses(w, e, l) && OpenFor(w.latches, l, x)
  }

  /** x is new, or its resolver functions were called, or a latch open for it was used. */
  ghost predicate Caused(w: World, w': World, e: Event, x: nat) {
    x < |w.promises| ==> Called(w, w', x) || OpenUsed(w, e, x)
  }

  /** x was fulfilled with another promise only if that one is fulfilled with itself. */
  ghost predicate Sound(w: World, w': World, x: nat) {
    forall r: nat :: FulfilledWith(w', x, PromiseRef(r)) ==> r == x || SelfFulfilled(w, r)
  }

  function LogAfter(w: World, e: Event): seq<nat> {
    if e.CallbackBegins? && w.control.Flushing? && w.control.work != [] then w.history.log + [w.control.work[0]]
    else w.history.log
  }

  /** Event e, from w to w', settles no promise but x. */
  ghost predicate Effect(w: World, w': World, e: Event, x: nat) {
    && |w.history.trails| == |w.promises| <= |w'.promises| == |w'.history.trails|
    && w'.history.log == LogAfter(w, e)
    && (forall p :: 0 <= p < |w'.promises| && p != x ==> Kept(w, w', p))
    && (x < |w'.promises| ==> Kept(w, w', x) || (Sound(w, w', x) && Caused(w, w', e, x)))
  }

  /** w1 is w before anything was settled, with the cause for settling x recorded. */
  ghost predicate Prepared(w: World, w1: World, e: Event, x: nat) {
    && WF(w1) && AllKept(w, w1) && w1.history.log == LogAfter(w, e)
    && x < |w1.promises| && Caused(w, w1, e, x)
  }

  ghost predicate SameAt(w: World, w': World, x: nat) {
    && x < |w.promises| && x < |w.history.trails| && x < |w'.promises| && x < |w'.history.trails|
    && SameOutcome(w.promises[x], w'.promises[x], w.history.trails[x], w'.history.trails[x])
  }

  lemma KeptTrans(w: World, w1: World, w': World, x: nat)
    requires AllKept(w, w1) && Resolves(w1, w', x)
    ensures forall p :: 0 <= p < |w'.promises| && p != x ==> Kept(w, w', p)
    ensures x < |w1.promises| && w1.promises[x].phase != Pending ==> Kept(w, w', x)
    ensures x < |w1.promises| && SameAt(w1, w', x) ==> Kept(w, w', x)
  {
    forall p | 0 <= p < |w'.promises| && p != x ensures Kept(w, w', p) {
      if p < |w1.promises| {
        assert Kept(w, w1, p);
        assert SameOutcome(w1.promises[p], w'.promises[p], w1.history.trails[p], w'.history.trails[p]);
      }
    }
    if x < |w1.promises| {
      assert Kept(w, w1, x);
      assert PromiseAdvances(w1.promises[x], w'.promises[x], w1.history.trails[x], w'.history.trails[x]);
    }
  }

  lemma SettleEffect(w: World, w1: World, e: Event, x: nat, v: Value, ok: bool)
    requires Prepared(w, w1, e, x) && ValueOk(w1, v)
    requires ok && v.PromiseRef? ==> v.p == x || SelfFulfilled(w, v.p)
    ensures Effect(w, Settle(w1, x, v, ok), e, x)
  {
    hide WF, Settle;
    SettleResolves(w1, x, v, ok);
    KeptTrans(w, w1, Settle(w1, x, v, ok), x);
  }

  lemma ResolveEffect(w: World, w1: World, e: Event, x: nat, v: Value)
    requires Prepared(w, w1, e, x) && ValueOk(w1, v)
    ensures Effect(w, Resolve(w1, x, v), e, x)
  {
    hide WF, Resolve;
    ResolveResolves(w1, x, v);
    KeptTrans(w, w1, Resolve(w1, x, v), x);
  }

  lemma HandleEffect(w: World, w1: World, e: Event, x: nat, v: Value)
    requires Prepared(w, w1, e, x) && ValueOk(w1, v) && IsThenable(v)
    ensures Effect(w, HandleThenable(w1, x, v), e, x)
  {
    hide WF, HandleThenable;
    HandleResolves(w1, x, v);
    KeptTrans(w, w1, HandleThenable(w1, x, v), x);
  }

  lemma ConcludeEffect(w: World, w1: World, e: Event, d: nat, v: Value, ok: bool)
    requires Prepared(w, w1, e, d) && ValueOk(w1, v)
    ensures Effect(w, Conclude(w1, d, v, ok), e, d)
  {
    hide WF, HandleThenable, Resolve, Settle, Prepared, Effect;
    if IsThenable(v) {
      HandleEffect(w, w1, e, d, v);
    } else if ok {
      ResolveEffect(w, w1, e, d, v);
    } else {
      SettleEffect(w, w1, e, d, v, false);
    }
  }

  /** What settles nothing more leaves the effect as it is. */
  lemma EffectThen(w: World, w1: World, w': World, e: Event, x: nat)
    requires Effect(w, w1, e, x) && AllKept(w1, w') && w'.history.log == w1.history.log
    requires x < |w1.promises| ==> w'.history.trails[x].calls == w1.history.trails[x].calls
    requires x < |w'.promises| ==> x < |w1.promises|
    ensures Effect(w, w', e, x)
  {
    forall p | 0 <= p < |w'.promises|
      ensures Kept(w1, w', p) && (p < |w1.promises| && Kept(w, w1, p) ==> Kept(w, w', p))
    {
      assert Kept(w1, w', p);
    }
    if x < |w1.promises| && Sound(w, w1, x) {
      forall r: nat | FulfilledWith(w', x, PromiseRef(r)) ensures r == x || SelfFulfilled(w, r) {
        assert Kept(w1, w', x);
        assert FulfilledWith(w1, x, PromiseRef(r));
      }
    }
  }

  lemma EndCallKept(w: World, s: nat, v: Value)
    requires WF(w) && s < |w.subscribers|
    ensures AllKept(w, EndCall(w, s, v)) && EndCall(w, s, v).history == w.history
    ensures |EndCall(w, s, v).promises| == |w.promises|
  {
  }

  /** The last lines of invokeCallback, for a derived promise with a call recorded or settled already. */
  lemma ResumeEffect(w: World, w1: World, e: Event, s: nat, d: nat, v: Value, ok: bool)
    requires WF(w1) && s < |w1.subscribers| && w1.subscribers[s].derived == d && ValueOk(w1, v)
    requires Prepared(w, w1, e, d)
    ensures Effect(w, Resume(w1, s, v, ok), e, d)
  {
    hide Conclude, Effect, AllKept, EndCall;
    assert SubscriberOk(w1, w1.subscribers[s]);
    var w2 := Conclude(w1, d, v, ok);
    ConcludeEffect(w, w1, e, d, v, ok);
    EndCallKept(w2, s, v);
    EffectThen(w, w2, EndCall(w2, s, v), e, d);
  }

  /** The same for a derived promise that was settled before. */
  lemma ResumeAgain(w: World, w1: World, e: Event, s: nat, d: nat, v: Value, ok: bool)
    requires WF(w1) && s < |w1.subscribers| && w1.subscribers[s].derived == d && ValueOk(w1, v)
    requires d < |w1.promises| && w1.promises[d].phase != Pending && Effect(w, w1, e, d)
    ensures Effect(w, Resume(w1, s, v, ok), e, d)
  {
    hide Conclude, Effect, EndCall, WF, Adopts;
    var w2 := Conclude(w1, d, v, ok);
    ConcludeResolves(w1, d, v, ok);
    SelfKept(w1);
    KeptTrans(w1, w1, w2, d);
    EffectThen(w, w1, w2, e, d);
    EndCallKept(w2, s, v);
    EffectThen(w, w2, EndCall(w2, s, v), e, d);
  }

  lemma SelfKept(w: World)
    requires WF(w)
    ensures AllKept(w, w)
  {
  }

  // ---------------------------------------------------------------- what prepares a settlement

  ghost predicate SamePromises(w: World, w1: World) {
    && |w.history.trails| == |w.promises| && w1.promises == w.promises && w1.history.trails == w.history.trails
  }

  lemma RecordPrepares(w: World, w1: World, e: Event, x: nat, c: Call)
    requires WF(w1) && SamePromises(w, w1) && w1.history.log == LogAfter(w, e) && x < |w.promises|
    ensures Prepared(w, RecordCall(w1, x, c), e, x)
  {
  }

  lemma LatchPrepares(w: World, w1: World, e: Event, x: nat, l: nat)
    requires WF(w1) && SamePromises(w, w1) && w1.history.log == LogAfter(w, e) && x < |w.promises|
    requires Uses(w, e, l) && OpenFor(w.latches, l, x)
    ensures Prepared(w, w1, e, x)
  {
  }

  lemma NothingSettled(w: World, w': World, e: Event, x: nat)
    requires AllKept(w, w') && w'.history.log == LogAfter(w, e)
    ensures Effect(w, w', e, x)
  {
  }

  lemma CallEffect(w: World, w1: World, e: Event, x: nat, v: Value)
    requires WF(w1) && SamePromises(w, w1) && w1.history.log == LogAfter(w, e) && x < |w.promises| && ValueOk(w1, v)
    ensures Effect(w, CallResolve(w1, x, v), e, x) && Effect(w, CallReject(w1, x, v), e, x)
  {
    hide WF, Resolve, Settle, Prepared, Effect, SamePromises;
    var c := ResolveCall(v, |w1.subscribers|);
    RecordPrepares(w, w1, e, x, c);
    ResolveEffect(w, RecordCall(w1, x, c), e, x, v);
    RecordPrepares(w, w1, e, x, RejectCall(v));
    SettleEffect(w, RecordCall(w1, x, RejectCall(v)), e, x, v, false);
  }

  // ---------------------------------------------------------------- carrying an outcome over

  /** A promise that still waits for the subscriber it follows is pending. */
  lemma Awaits(w: World, p: nat, s: nat)
    requires InvBut(w, None, None) && Follows(w, p, s) && s !in w.history.log
    ensures s < |w.subscribers| && p < |w.promises| && w.promises[p].phase == Pending
    ensures w.subscribers[s].onFulfil.AdoptFulfil? && w.subscribers[s].onFulfil.l < |w.latches|
    ensures w.latches[w.subscribers[s].onFulfil.l].target == p
  {
    hide PhasesOf, PlacesOf, Schedule, Fifo, ControlInv, LatchesInv, AdoptersInv, CombinedsInv, DerivedsBut,
      TokensBut, FatesBut;
    Pick(w, None, p);
  }

  lemma BeginIsAdoption(w: World, l: nat)
    requires InvBut(w, None, None) && Taking(w) && w.control.work[0] < |w.subscribers|
    requires w.subscribers[w.control.work[0]].onFulfil == AdoptFulfil(l)
    ensures l < |w.latches|
    ensures var q, x := w.subscribers[w.control.work[0]].owner, w.latches[l].target;
      var w2 := CloseLatch(TakeWork(w), l);
      && FinalAt(w.promises, q) && x < |w2.promises| && ValueOk(w2, w.promises[q].data)
      && BeginCallback(w) == Delivery(w, w2, q, x)
  {
    hide PhasesOf, PlacesOf, Schedule, Fifo, ControlInv, LatchesInv, CombinedsInv, DerivedsBut, TokensBut, FatesBut,
      BeginCallback, Delivery;
    var s := w.control.work[0];
    WorkIsNew(w);
    LatchOf(w, s, l);
    assert AdopterInv(s, w.subscribers[s], w.latches, w.history.log);
    BeginIsDelivery(w, l);
  }

  lemma DeliverySettles(w: World, w2: World, q: nat, p: nat)
    requires WF(w) && FinalAt(w.promises, q) && WF(w2) && p < |w2.promises| && ValueOk(w2, w.promises[q].data)
    requires q < |w.history.trails| && w.history.trails[q].decided == w.promises[q].phase
    requires w2.promises[p].phase == Pending
    ensures var w' := Delivery(w, w2, q, p);
      && p < |w'.promises| && p < |w'.history.trails|
      && (SettledAs(w'.promises[p], w'.history.trails[p], w.promises[q].data, w.promises[q].phase) <==>
          Transparent(p, q, w.promises[q], w.history.trails[q]))
  {
    hide Settle, Resolve, Adopts;
    ResolveResolves(w2, p, w.promises[q].data);
    SettleResolves(w2, p, w.promises[q].data, true);
    SettleResolves(w2, p, w.promises[q].data, false);
  }

  // ---------------------------------------------------------------- every event

  /** A promise fulfilled with a promise is fulfilled with one that is fulfilled with itself. */
  ghost predicate SelfInv(w: World) {
    forall p: nat, r: nat :: FulfilledWith(w, p, PromiseRef(r)) ==> SelfFulfilled(w, r)
  }

  lemma LatchEffect(w: World, e: Event, l: nat, v: Value)
    requires InvBut(w, None, None) && l < |w.latches| && w.latches[l].source.Thenable? && ValueOk(w, v)
    requires (e.ThenableResolves? || e.ThenableRejects? || e.ThenableThrows?) && e.l == l
    ensures Effect(w, LatchResolve(w, l, v), e, w.latches[l].target)
    ensures Effect(w, LatchReject(w, l, v), e, w.latches[l].target)
    ensures Effect(w, LatchThrow(w, l, v), e, w.latches[l].target)
  {
    hide PhasesOf, PlacesOf, Schedule, Fifo, ControlInv, LatchesInv, AdoptersInv, CombinedsInv, DerivedsBut, TokensBut,
      FatesBut, Settle, Resolve, Effect, Prepared;
    var x, w1 := w.latches[l].target, CloseLatch(w, l);
    if w.latches[l].closed {
      SelfKept(w);
      NothingSettled(w, w, e, x);
    } else {
      LatchPrepares(w, w1, e, x, l);
      LatchPrepares(w, w, e, x, l);
      SettleEffect(w, w1, e, x, v, false);
      SettleEffect(w, w, e, x, v, false);
      ResolveEffect(w, w1, e, x, v);
      if v == w.latches[l].source { SettleEffect(w, w1, e, x, v, true); }
    }
  }

  lemma SubscribeKept(w: World, q: nat, f: Callback, r: Callback)
    requires WF(w) && q < |w.promises| && CallbackOk(w, f) && CallbackOk(w, r)
    ensures AllKept(w, Subscribe(w, q, f, r)) && Subscribe(w, q, f, r).history.log == w.history.log
  {
    hide Subscribe;
    var x := |w.promises|;
    SubscribeResolves(w, q, f, r, x + 1);
    SelfKept(w);
    KeptTrans(w, w, Subscribe(w, q, f, r), x + 1);
  }

  lemma WatchKept(w: World, a: nat, i: nat, q: nat)
    requires WF(w) && a < |w.aggregates| && AggregateOk(w, w.aggregates[a]) && i < |w.aggregates[a].items|
    requires q < |w.promises|
    ensures AllKept(w, Watch(w, a, i, q)) && Watch(w, a, i, q).history.log == w.history.log
  {
    hide Subscribe, AllKept;
    SubscribeKept(Count(w, a, i), q, StoreResult(a, i), RejectTarget(w.aggregates[a].target));
    assert AllKept(w, Watch(w, a, i, q)) by { SameKept(w, Count(w, a, i), Watch(w, a, i, q)); }
  }

  lemma SameKept(w: World, w1: World, w': World)
    requires SamePromises(w, w1) && AllKept(w1, w')
    ensures AllKept(w, w')
  {
    forall p | 0 <= p < |w'.promises| ensures Kept(w, w', p) { assert Kept(w1, w', p); }
  }

  lemma AllEntryKept(w: World, a: nat, i: nat)
    requires WF(w) && a < |w.aggregates| && i < |w.aggregates[a].items|
    requires forall v <- w.aggregates[a].items :: ValueOk(w, v)
    ensures AllKept(w, AllEntry(w, a, i)) && AllEntry(w, a, i).history.log == w.history.log
  {
    var g := w.aggregates[a];
    assert g.items[i] in g.items && AggregateOk(w, g);
    if g.items[i].PromiseRef? {
      WatchKept(w, a, i, g.items[i].p);
    } else {
      SelfKept(w);
    }
  }

  lemma AllKeptTrans(w1: World, w2: World, w3: World)
    requires AllKept(w1, w2) && AllKept(w2, w3)
    ensures AllKept(w1, w3)
  {
    forall p | 0 <= p < |w3.promises| ensures Kept(w1, w3, p) {
      assert Kept(w2, w3, p);
      if p < |w2.promises| { assert Kept(w1, w2, p); }
    }
  }

  lemma {:induction false} AllLoopKept(w: World, a: nat, i: nat)
    requires WF(w) && a < |w.aggregates| && i <= |w.aggregates[a].items|
    requires forall v <- w.aggregates[a].items :: ValueOk(w, v)
    ensures AllKept(w, AllLoop(w, a, i)) && AllLoop(w, a, i).history.log == w.history.log
    decreases |w.aggregates[a].items| - i
  {
    hide WF, AllKept, AllLoop, AllEntry, ValueOk;
    AllLoopStep(w, a, i);
    if i == |w.aggregates[a].items| {
      SelfKept(w);
    } else {
      AllEntryKept(w, a, i);
      AllLoopKept(AllEntry(w, a, i), a, i + 1);
      AllKeptTrans(w, AllEntry(w, a, i), AllLoop(w, a, i));
    }
  }

  lemma AllEffect(w: World, items: seq<Value>)
    requires WF(w) && Enabled(w, DoAll(items))
    ensures Effect(w, All(w, items), DoAll(items), |w.promises|)
  {
    hide Resolve, Effect, AllLoop;
    var a, x, e := |w.aggregates|, |w.promises|, DoAll(items);
    var w0, w1 := AllBegin(w, items), AllLoop(AllBegin(w, items), a, 0);
    assert AllKept(w, w0);
    AllLoopKept(w0, a, 0);
    AllKeptTrans(w, w0, w1);
    if w1.aggregates[a].remaining == 0 {
      assert AggregateOk(w1, w1.aggregates[a]);
      var c := ResolveCall(ResultArray(a), |w1.subscribers|);
      RecordKept(w, w1, x, c);
      ResolveEffect(w, RecordCall(w1, x, c), e, x, ResultArray(a));
    } else {
      NothingSettled(w, w1, e, x);
    }
  }

  lemma RecordKept(w: World, w1: World, x: nat, c: Call)
    requires WF(w1) && AllKept(w, w1) && x < |w1.promises|
    ensures AllKept(w, RecordCall(w1, x, c))
  {
    var w2 := RecordCall(w1, x, c);
    forall p | 0 <= p < |w2.promises| ensures Kept(w, w2, p) { assert Kept(w, w1, p); }
  }

  lemma StoreEffect(w: World, w1: World, e: Event, a: nat, i: nat, v: Value)
    requires WF(w1) && SamePromises(w, w1) && w1.history.log == LogAfter(w, e)
    requires a < |w1.aggregates| && i < |w1.aggregates[a].results| && ValueOk(w1, v)
    ensures Effect(w, Store(w1, a, i, v), e, w1.aggregates[a].target)
  {
    hide CallResolve, Effect;
    var g := w1.aggregates[a];
    assert AggregateOk(w1, g);
    var g' := g.(results := g.results[i := Some(v)], remaining := g.remaining - 1);
    var w2 := SetAggregate(w1, a, g');
    if g'.remaining == 0 {
      CallEffect(w, w2, e, g.target, ResultArray(a));
    } else {
      NothingSettled(w, w2, e, g.target);
    }
  }

  /** An adoption closure delivers what its promise waits for: an outcome, or a promise fulfilled with itself. */
  lemma DeliveryEffect(w: World, l: nat)
    requires InvBut(w, None, None) && SelfInv(w) && Taking(w) && w.control.work[0] < |w.subscribers|
    requires w.subscribers[w.control.work[0]].onFulfil == AdoptFulfil(l)
    ensures l < |w.latches| && Effect(w, BeginCallback(w), CallbackBegins, w.latches[l].target)
  {
    hide PhasesOf, PlacesOf, Schedule, Fifo, ControlInv, LatchesInv, AdoptersInv, CombinedsInv, DerivedsBut, TokensBut,
      FatesBut, BeginCallback, Settle, Resolve, Effect, Prepared, SelfInv;
    BeginIsAdoption(w, l);
    WorkIsNew(w);
    var s := w.control.work[0];
    LatchOf(w, s, l);
    var q, x := w.subscribers[s].owner, w.latches[l].target;
    var w2, v := CloseLatch(TakeWork(w), l), w.promises[q].data;
    LatchPrepares(w, w2, CallbackBegins, x, l);
    DecidedIsPhase(w, q);
    if w.promises[q].phase == Rejected {
      SettleEffect(w, w2, CallbackBegins, x, v, false);
    } else if v == PromiseRef(q) {
      assert SelfFulfilled(w, q);
      SettleEffect(w, w2, CallbackBegins, x, v, true);
    } else {
      ResolveEffect(w, w2, CallbackBegins, x, v);
    }
  }

  lemma DispatchEffect(w: World) returns (x: nat)
    requires InvBut(w, None, None) && Enabled(w, CallbackBegins) && w.control.work[0] < |w.subscribers|
    requires !w.subscribers[w.control.work[0]].onFulfil.AdoptFulfil?
    ensures Effect(w, BeginCallback(w), CallbackBegins, x)
  {
    hide PhasesOf, PlacesOf, Schedule, Fifo, ControlInv, LatchesInv, CombinedsInv, DerivedsBut, TokensBut, FatesBut,
      Effect, Prepared, Resume, Store, CallReject, CallResolve;
    var s, w1, e := w.control.work[0], TakeWork(w), CallbackBegins;
    var v := OwnerData(w1, s);
    assert SubscriberOk(w, w.subscribers[s]);
    assert AdopterInv(s, w.subscribers[s], w.latches, w.history.log);
    x := |w.promises|;
    match Slot(w1, s)
    case Absent =>
      x := w.subscribers[s].derived;
      var ok := w.promises[w.subscribers[s].owner].phase != Rejected;
      var c := ConclusionCall(w1, x, v, ok);
      RecordPrepares(w, w1, e, x, c);
      ResumeEffect(w, RecordCall(w1, x, c), e, s, x, v, ok);
    case User(f) =>
      NothingSettled(w, EnterUser(w1, s, f, v), e, x) by { assert AllKept(w, EnterUser(w1, s, f, v)); }
    case StoreResult(a, i) =>
      x := w1.aggregates[a].target;
      StoreEffect(w, w1, e, a, i, v);
    case RejectTarget(p) =>
      x := p;
      CallEffect(w, w1, e, p, v);
  }

  lemma EndEffect(w: World, o: Outcome)
    requires InvBut(w, None, None) && Enabled(w, CallbackEnds(o)) && w.control.call.s < |w.subscribers|
    ensures var s := w.control.call.s;
      Effect(w, EndCallback(w, s, o), CallbackEnds(o), w.subscribers[s].derived)
  {
    hide PhasesOf, PlacesOf, Schedule, Fifo, ControlInv, LatchesInv, AdoptersInv, CombinedsInv, DerivedsBut, TokensBut,
      FatesBut, Effect, Prepared, Resume, CallReject;
    var s, e := w.control.call.s, CallbackEnds(o);
    var d := w.subscribers[s].derived;
    assert SubscriberOk(w, w.subscribers[s]);
    match o
    case Returned(v) =>
      var c := ConclusionCall(w, d, v, true);
      RecordPrepares(w, w, e, d, c);
      ResumeEffect(w, RecordCall(w, d, c), e, s, d, v, true);
    case Thrown(r) =>
      CallEffect(w, w, e, d, r);
      RejectedNow(w, d, r, s);
      ResumeAgain(w, CallReject(w, d, r), e, s, d, OwnerData(w, s), true);
  }

  lemma RejectedNow(w: World, d: nat, r: Value, s: nat)
    requires WF(w) && d < |w.promises| && ValueOk(w, r) && s < |w.subscribers|
    ensures var w1 := CallReject(w, d, r);
      && w1.subscribers == w.subscribers && d < |w1.promises| && w1.promises[d].phase != Pending
      && ValueOk(w1, OwnerData(w, s))
  {
  }

  /** Every event settles one promise at most, and never without its cause. */
  lemma EventEffect(w: World, e: Event) returns (x: nat)
    requires InvBut(w, None, None) && SelfInv(w) && Enabled(w, e)
    ensures Effect(w, Apply(w, e), e, x)
  {
    hide PhasesOf, PlacesOf, Schedule, Fifo, ControlInv, LatchesInv, AdoptersInv, CombinedsInv, DerivedsBut, TokensBut,
      FatesBut, Effect, SelfInv, WF, CallResolve, CallReject, Subscribe, All, LatchResolve, LatchReject, LatchThrow,
      BeginCallback, EndCallback, StartTask, EndTask;
    x := |w.promises| + 1;
    OwnPromises(w);
    match e
    case New => NewKept(w); NothingSettled(w, Apply(w, e), e, x);
    case DoResolve(p, v) => x := p; CallEffect(w, w, e, p, v);
    case DoReject(p, r) => x := p; CallEffect(w, w, e, p, r);
    case DoThen(p, f, r) => SubscribeKept(w, p, f, r); NothingSettled(w, Apply(w, e), e, x);
    case DoAll(items) => x := |w.promises|; AllEffect(w, items);
    case ThenableResolves(l, v) => x := w.latches[l].target; LatchEffect(w, e, l, v);
    case ThenableRejects(l, r) => x := w.latches[l].target; LatchEffect(w, e, l, r);
    case ThenableThrows(l, r) => x := w.latches[l].target; LatchEffect(w, e, l, r);
    case CallbackBegins => x := BeginEffect(w);
    case CallbackEnds(o) => x := EndsEffect(w, o);
    case _ => LoopEventSteps(w, e); LoopKept(w, e, x);
  }

  lemma OwnPromises(w: World)
    requires WF(w)
    ensures SamePromises(w, w)
  {
  }

  lemma NewKept(w: World)
    requires WF(w)
    ensures AllKept(w, Allocate(w, Constructed)) && Allocate(w, Constructed).history.log == w.history.log
  {
  }

  lemma LoopKept(w: World, e: Event, x: nat)
    requires WF(w) && Enabled(w, e) && LoopEvent(e) && LoopStep(w, Apply(w, e))
    ensures Effect(w, Apply(w, e), e, x)
  {
    hide StartTask, EndTask;
    var w' := Apply(w, e);
    forall p | 0 <= p < |w'.promises| ensures Kept(w, w', p) { }
  }

  lemma BeginEffect(w: World) returns (x: nat)
    requires InvBut(w, None, None) && SelfInv(w) && Enabled(w, CallbackBegins)
    ensures Effect(w, BeginCallback(w), CallbackBegins, x)
  {
    hide PhasesOf, PlacesOf, Schedule, Fifo, ControlInv, Links, Settlements, Effect, SelfInv, BeginCallback, WF;
    WorkIsNew(w);
    var s := w.control.work[0];
    if w.subscribers[s].onFulfil.AdoptFulfil? {
      DeliveryEffect(w, w.subscribers[s].onFulfil.l);
      x := w.latches[w.subscribers[s].onFulfil.l].target;
    } else {
      x := DispatchEffect(w);
    }
  }

  lemma EndsEffect(w: World, o: Outcome) returns (x: nat)
    requires InvBut(w, None, None) && Enabled(w, CallbackEnds(o))
    ensures Effect(w, Apply(w, CallbackEnds(o)), CallbackEnds(o), x)
  {
    hide PhasesOf, PlacesOf, Schedule, Fifo, Links, Settlements, Effect, EndCallback;
    EndEffect(w, o);
    x := w.subscribers[w.control.call.s].derived;
  }

  // ---------------------------------------------------------------- promises fulfilled with promises

  lemma SelfStep(w: World, w': World, e: Event, x: nat)
    requires SelfInv(w) && PromisesAdvance(w, w') && Effect(w, w', e, x)
    ensures SelfInv(w')
  {
    forall p: nat, r: nat | FulfilledWith(w', p, PromiseRef(r)) ensures SelfFulfilled(w', r) {
      if p != r {
        if p == x && !Kept(w, w', x) {
          assert SelfFulfilled(w, r);
        } else {
          assert Kept(w, w', p);
          assert FulfilledWith(w, p, PromiseRef(r));
        }
        assert SettlesOnce(w.promises[r], w'.promises[r], w.history.trails[r], w'.history.trails[r]);
      }
    }
  }

  /** p was resolved once, with a promise that has handed promise r on to it. */
  ghost predicate HandedOn(w: World, p: nat, r: nat) {
    && p < |w.history.trails| && |w.history.trails[p].calls| == 1 && w.history.trails[p].calls[0].ResolveCall?
    && Follows(w, p, w.history.trails[p].calls[0].adopter) && w.history.trails[p].calls[0].adopter in w.history.log
    && FulfilledWith(w, w.history.trails[p].calls[0].v.p, PromiseRef(r))
    && r != p && r != w.history.trails[p].calls[0].v.p
  }

  /** p waits for r in turn, or has its outcome. */
  ghost predicate Relinked(w: World, p: nat, r: nat) { exists s: nat :: LinkInv(w, p, r, s) }

  ghost predicate HandedInv(w: World) {
    forall p: nat, r: nat :: HandedOn(w, p, r) ==> Relinked(w, p, r)
  }

  ghost predicate Stepped(w: World, w': World, e: Event, x: nat) {
    && InvBut(w, None, None) && InvBut(w', None, None) && SelfInv(w) && Enabled(w, e) && w' == Apply(w, e)
    && Advances(w, w') && Effect(w, w', e, x)
  }

  lemma InLogAfter(w: World, e: Event, s: nat)
    requires Structure(w) && Enabled(w, e) && s in LogAfter(w, e)
    ensures s < |w.subscribers| && FinalAt(w.promises, w.subscribers[s].owner)
    ensures s in w.history.log || (e.CallbackBegins? && Taking(w) && w.control.work[0] == s)
  {
    hide PhasesOf, PlacesOf, Schedule, Fifo, ControlInv;
    if s in w.history.log { InvokedOwner(w, s); } else { WorkIsNew(w); }
  }

  /** Only the invocation of s uses a latch that is open for the promise waiting through s. */
  lemma UsedByInvoking(w: World, e: Event, p: nat, r: nat, s: nat, k: nat)
    requires InvBut(w, None, None) && Enabled(w, e) && LinkInv(w, p, r, s) && s !in w.history.log
    requires |w.history.trails[p].calls| == 1 && Uses(w, e, k) && OpenFor(w.latches, k, p)
    ensures s in LogAfter(w, e)
  {
    hide PhasesOf, PlacesOf, Schedule, Fifo, ControlInv, LatchesInv, CombinedsInv, DerivedsBut, FatesBut;
    assert AdopterInv(s, w.subscribers[s], w.latches, w.history.log);
    assert TokenInv(p, w.promises[p], w.history.trails[p], w.latches);
    assert OpenFor(w.latches, w.subscribers[s].onFulfil.l, p);
    assert k == w.subscribers[s].onFulfil.l;
    assert w.latches[k].source == PromiseRef(r);
    assert LogAfter(w, e)[|w.history.log|] == w.control.work[0];
  }

  /** While p waits for r through s, nothing else settles it. */
  lemma StaysPending(w: World, w': World, e: Event, x: nat, p: nat, r: nat, s: nat)
    requires Stepped(w, w', e, x) && LinkInv(w, p, r, s) && s !in w'.history.log && w.promises[p].phase == Pending
    requires s !in w.history.log && p < |w.promises|
    requires p < |w'.promises| && |w.history.trails[p].calls| == |w'.history.trails[p].calls| == 1
    ensures w'.promises[p].phase == Pending
  {
    hide InvBut, Apply, Advances, SelfInv, LinkInv, Uses, OpenFor;
    if p == x && !Kept(w, w', x) {
      var k: nat :| Uses(w, e, k) && OpenFor(w.latches, k, x);
      UsedByInvoking(w, e, p, r, s, k);
      assert false;
    }
    assert Kept(w, w', p);
  }

  lemma LinkStays(w: World, w': World, e: Event, x: nat, p: nat, r: nat, s: nat)
    requires Stepped(w, w', e, x) && LinkInv(w, p, r, s) && SelfFulfilled(w, r)
    requires p < |w'.promises| && |w.history.trails[p].calls| == |w'.history.trails[p].calls| == 1
    requires s in w.history.log || s !in w'.history.log
    ensures LinkInv(w', p, r, s)
  {
    hide PhasesOf, PlacesOf, Schedule, Fifo, ControlInv, LatchesInv, AdoptersInv, CombinedsInv, DerivedsBut, TokensBut,
      FatesBut, Apply, Effect, SelfInv;
    if s !in w.history.log { StaysPending(w, w', e, x, p, r, s); }
    assert w'.subscribers[s] == w.subscribers[s];
    var l := w.subscribers[s].onFulfil.l;
    assert LatchStays(w.latches[l], w'.latches[l]);
    assert SettlesOnce(w.promises[p], w'.promises[p], w.history.trails[p], w'.history.trails[p]);
    assert SettlesOnce(w.promises[r], w'.promises[r], w.history.trails[r], w'.history.trails[r]);
  }

  /** p takes r's outcome over. */
  lemma LinkDelivers(w: World, w': World, e: Event, x: nat, p: nat, r: nat, s: nat)
    requires Stepped(w, w', e, x) && LinkInv(w, p, r, s) && SelfFulfilled(w, r)
    requires p < |w'.promises| && s !in w.history.log && s in w'.history.log
    ensures LinkInv(w', p, r, s)
  {
    hide PhasesOf, PlacesOf, Schedule, Fifo, ControlInv, LatchesInv, AdoptersInv, CombinedsInv, DerivedsBut, TokensBut,
      FatesBut, SelfInv, BeginCallback, Delivery;
    InLogAfter(w, e, s);
    var l := w.subscribers[s].onFulfil.l;
    BeginIsAdoption(w, l);
    DecidedIsPhase(w, r);
    DeliverySettles(w, CloseLatch(TakeWork(w), l), r, p);
    assert w'.subscribers[s] == w.subscribers[s] && LatchStays(w.latches[l], w'.latches[l]);
    assert SettlesOnce(w.promises[r], w'.promises[r], w.history.trails[r], w'.history.trails[r]);
  }

  /** What p follows was known before the event that invoked it. */
  lemma HandedBefore(w: World, w': World, e: Event, x: nat, p: nat, r: nat)
    requires Stepped(w, w', e, x) && HandedOn(w', p, r)
    ensures p < |w.history.trails| && w.history.trails[p].calls == w'.history.trails[p].calls
    ensures FulfilledWith(w, w'.history.trails[p].calls[0].v.p, PromiseRef(r))
  {
    hide PhasesOf, PlacesOf, Schedule, Fifo, ControlInv, CombinedsInv, DerivedsBut, TokensBut, FatesBut, Apply, SelfInv;
    var q, s := w'.history.trails[p].calls[0].v.p, w'.history.trails[p].calls[0].adopter;
    Pick(w', None, p);
    assert LinkInv(w', p, q, s);
    InLogAfter(w, e, s);
    assert w'.subscribers[s] == w.subscribers[s];
    assert AdopterInv(s, w.subscribers[s], w.latches, w.history.log);
    var l := w.subscribers[s].onFulfil.l;
    assert LatchStays(w.latches[l], w'.latches[l]) && LatchInv(w.latches[l], w.history.trails);
    assert TrailGrows(w.history.trails[p], w'.history.trails[p]);
    assert SettlesOnce(w.promises[q], w'.promises[q], w.history.trails[q], w'.history.trails[q]);
  }

  /** The event that hands r on makes p follow r. */
  lemma HandsOn(w: World, w': World, e: Event, x: nat, p: nat, r: nat)
    requires Stepped(w, w', e, x) && HandedOn(w', p, r) && !HandedOn(w, p, r)
    ensures Relinked(w', p, r)
  {
    hide PhasesOf, PlacesOf, Schedule, Fifo, ControlInv, LatchesInv, AdoptersInv, CombinedsInv, DerivedsBut, TokensBut,
      FatesBut, SelfInv, BeginCallback, Resolve;
    HandedBefore(w, w', e, x, p, r);
    var q, s := w'.history.trails[p].calls[0].v.p, w'.history.trails[p].calls[0].adopter;
    InLogAfter(w, e, s);
    Awaits(w, p, s);
    Pick(w, None, p);
    var l := w.subscribers[s].onFulfil.l;
    BeginIsAdoption(w, l);
    DecidedIsPhase(w, q);
    FollowsNext(w, CloseLatch(TakeWork(w), l), p, r);
  }

  lemma FollowsNext(w: World, w2: World, p: nat, r: nat)
    requires Structure(w) && Taking(w) && WF(w2) && p < |w2.promises| == |w.promises| && r < |w2.promises| && r != p
    requires |w2.history.trails| == |w2.promises|
    requires w2.subscribers == w.subscribers && w2.history.log == w.history.log + [w.control.work[0]]
    requires w2.promises[p].phase == Pending
    ensures Relinked(Resolve(w2, p, PromiseRef(r)), p, r)
  {
    hide PhasesOf, PlacesOf, Schedule, Fifo, ControlInv, Resolve;
    var n, w' := |w.subscribers|, Resolve(w2, p, PromiseRef(r));
    ResolveResolves(w2, p, PromiseRef(r));
    WorkIsNew(w);
    if n in w.history.log { LogInRange(w, n); assert false; }
    assert LinkInv(w', p, r, n);
  }

  lemma HandedStep(w: World, w': World, e: Event, x: nat, p: nat, r: nat)
    requires Stepped(w, w', e, x) && HandedInv(w) && HandedOn(w', p, r)
    ensures Relinked(w', p, r)
  {
    hide InvBut, Apply, Effect, Advances, LinkInv;
    HandedBefore(w, w', e, x, p, r);
    if HandedOn(w, p, r) {
      var s: nat :| LinkInv(w, p, r, s);
      assert SelfFulfilled(w, r);
      if s in w.history.log || s !in w'.history.log {
        LinkStays(w, w', e, x, p, r, s);
      } else {
        LinkDelivers(w, w', e, x, p, r, s);
      }
    } else {
      HandsOn(w, w', e, x, p, r);
    }
  }

  ghost predicate AdoptInv(w: World) { InvBut(w, None, None) && SelfInv(w) && HandedInv(w) }

  lemma StepKeepsAdoption(w: World, e: Event)
    requires AdoptInv(w) && Enabled(w, e)
    ensures AdoptInv(Apply(w, e))
  {
    hide PhasesOf, PlacesOf, Schedule, Fifo, ControlInv, Links, Settlements, Apply, HandedOn, Relinked, SelfInv;
    var w' := Apply(w, e);
    var x := EventEffect(w, e);
    StepKeepsFates(w, e);
    StepAdvances(w, e);
    SelfStep(w, w', e, x);
    forall p: nat, r: nat | HandedOn(w', p, r) ensures Relinked(w', p, r) {
      HandedStep(w, w', e, x, p, r);
    }
  }

  lemma {:induction false} ExecKeepsAdoption(w: World, es: seq<Event>)
    requires AdoptInv(w)
    ensures Exec(w, es).Some? ==> AdoptInv(Exec(w, es).value)
    decreases |es|
  {
    hide PhasesOf, PlacesOf, Schedule, Fifo, ControlInv, Links, Settlements, SelfInv, HandedInv;
    if es != [] && Enabled(w, es[0]) {
      StepKeepsAdoption(w, es[0]);
      ExecKeepsAdoption(Apply(w, es[0]), es[1..]);
    }
  }

  lemma ReachableAdoption(w: World)
    requires Reachable(w)
    ensures AdoptInv(w)
  {
    hide InvBut;
    EmptyFates();
    var es :| Exec(EMPTY_WORLD, es) == Some(w);
    ExecKeepsAdoption(EMPTY_WORLD, es);
  }

  // ---------------------------------------------------------------- foreign thenables

  lemma ResolveLatch(w: World, l: nat, e: Event)
    requires WF(w) && Enabled(w, e)
    requires (e.ThenableResolves? || e.ThenableRejects?) && e.l == l
    ensures Closed(Apply(w, e).latches, l)
  {
    if !w.latches[l].closed && e.ThenableResolves? {
      ResolveResolves(CloseLatch(w, l), w.latches[l].target, e.v);
    }
  }

  /**
    d was resolved once, with the foreign thenable v, and may be settled through one latch at a time. While v has
    called neither of the functions it was given, d is pending, unless v's `then` threw: then d is rejected.
  */
  ghost predicate AwaitsForeign(w: World, d: nat, l: nat, v: Value) {
    && d < |w.promises| && d < |w.history.trails| && |w.history.trails[d].calls| == 1 && v.Thenable?
    && l < |w.latches| && w.latches[l].target == d && w.latches[l].source == v
    && OneOpen(w.latches, d)
    && (!w.latches[l].closed ==> w.promises[d].phase == Pending || w.history.trails[d].decided == Rejected)
  }

  lemma ForeignIsNotAdopted(w: World, s: nat, l: nat)
    requires AdoptersInv(w) && s < |w.subscribers| && l < |w.latches| && w.latches[l].source.Thenable?
    ensures w.subscribers[s].onFulfil != AdoptFulfil(l)
  {
    assert AdopterInv(s, w.subscribers[s], w.latches, w.history.log);
  }

  /** What the event that settles d through its foreign thenable's latch leaves. */
  lemma ForeignUsed(w: World, e: Event, d: nat, l: nat, v: Value)
    requires InvBut(w, None, None) && Enabled(w, e) && AwaitsForeign(w, d, l, v) && OpenFor(w.latches, l, d)
    requires Uses(w, e, l)
    ensures var w' := Apply(w, e);
      Closed(w'.latches, l) || (d < |w'.history.trails| && w'.history.trails[d].decided == Rejected)
  {
    hide PhasesOf, PlacesOf, Schedule, Fifo, ControlInv, LatchesInv, CombinedsInv, DerivedsBut, TokensBut, FatesBut,
      BeginCallback, LatchResolve, LatchReject, Settle;
    if e.CallbackBegins? {
      ForeignIsNotAdopted(w, w.control.work[0], l);
      assert false;
    } else if e.ThenableThrows? {
      ThrownSettles(w, l, e.e, d);
    } else {
      ResolveLatch(w, l, e);
    }
  }

  lemma ThrownSettles(w: World, l: nat, r: Value, d: nat)
    requires Structure(w) && l < |w.latches| && ValueOk(w, r) && OpenFor(w.latches, l, d)
    requires d < |w.promises| && (w.promises[d].phase == Pending || w.history.trails[d].decided == Rejected)
    ensures var w' := LatchThrow(w, l, r); d < |w'.history.trails| && w'.history.trails[d].decided == Rejected
  {
    hide PhasesOf, PlacesOf, Schedule, Fifo, ControlInv;
    SettleResolves(w, d, r, false);
  }

  lemma ForeignStep(w: World, w': World, e: Event, x: nat, d: nat, l: nat, v: Value)
    requires Stepped(w, w', e, x) && AwaitsForeign(w, d, l, v)
    requires d < |w'.history.trails| && |w'.history.trails[d].calls| == 1
    ensures AwaitsForeign(w', d, l, v)
  {
    hide PhasesOf, PlacesOf, Schedule, Fifo, ControlInv, Links, DerivedsBut, FatesBut, Apply, SelfInv, Uses;
    assert LatchStays(w.latches[l], w'.latches[l]);
    assert TokenInv(d, w'.promises[d], w'.history.trails[d], w'.latches);
    assert TokenInv(d, w.promises[d], w.history.trails[d], w.latches);
    if !w'.latches[l].closed {
      assert OpenFor(w.latches, l, d);
      if d == x && !Kept(w, w', x) {
        var k: nat :| Uses(w, e, k) && OpenFor(w.latches, k, x);
        assert k == l;
        ForeignUsed(w, e, d, l, v);
      } else {
        assert Kept(w, w', d);
      }
    }
  }

  /** Over every run in which d's own resolvers are not called again. */
  lemma {:induction false} ForeignOnward(w: World, es: seq<Event>, d: nat, l: nat, v: Value)
    requires AdoptInv(w) && Exec(w, es).Some? && AwaitsForeign(w, d, l, v)
    requires d < |Exec(w, es).value.history.trails| && |Exec(w, es).value.history.trails[d].calls| == 1
    ensures AwaitsForeign(Exec(w, es).value, d, l, v)
    decreases |es|
  {
    hide PhasesOf, PlacesOf, Schedule, Fifo, ControlInv, Links, Settlements, SelfInv, HandedInv, Apply;
    if es != [] {
      var e := es[0];
      var w1 := Apply(w, e);
      StepKeepsAdoption(w, e);
      var x := EventEffect(w, e);
      StepAdvances(w, e);
      RunsAdvance(w1, es[1..]);
      assert TrailGrows(w1.history.trails[d], Exec(w, es).value.history.trails[d]);
      assert TrailGrows(w.history.trails[d], w1.history.trails[d]);
      ForeignStep(w, w1, e, x, d, l, v);
      ForeignOnward(w1, es[1..], d, l, v);
    }
  }
}
