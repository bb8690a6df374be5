/** P.all over promises and plain values: its counter, its results and its outcome. */
module PromiseAll {
  import opened Basics
  import opened PromiseWorld
  import opened PromiseStructure
  import opened PromiseProgress
  import opened PromiseFates
  import opened PromiseTheorems

  // ---------------------------------------------------------------- the invariant

  function CountTrue(flags: seq<bool>): nat {
    if flags == [] then 0 else CountTrue(flags[..|flags| - 1]) + (if flags[|flags| - 1] then 1 else 0)
  }

  /** Subscriber s has been invoked with a fulfilled owner. */
  ghost predicate Delivered(w: World, s: nat) {
    && s in w.history.log && s < |w.subscribers| && w.subscribers[s].owner < |w.promises|
    && w.promises[w.subscribers[s].owner].phase == Fulfilled
  }

  /** Entry i is a promise that has not delivered its value yet. */
  ghost predicate Waiting(w: World, g: Aggregate, i: nat) {
    i < |g.items| && g.items[i].PromiseRef? && i < |g.slots| &&
    !(g.slots[i].Some? && Delivered(w, g.slots[i].value))
  }

  ghost function Flags(w: World, g: Aggregate, k: nat): (r: seq<bool>)
    ensures |r| == k
  {
    seq(k, (i: nat) => Waiting(w, g, i))
  }

  ghost predicate Watches(w: World, a: nat, g: Aggregate, i: nat, s: nat) {
    && s < |w.subscribers| && i < |g.items| && g.items[i].PromiseRef?
    && w.subscribers[s].owner == g.items[i].p < |w.promises|
    && w.subscribers[s].onFulfil == StoreResult(a, i) && w.subscribers[s].onReject == RejectTarget(g.target)
  }

  /** Entry i: a plain value is its own result; a promise is watched, and its result is its value once delivered. */
  ghost predicate EntryInv(w: World, a: nat, g: Aggregate, i: nat)
    requires i < |g.items| == |g.results| == |g.slots|
  {
    if g.items[i].PromiseRef? then
      && g.slots[i].Some? && Watches(w, a, g, i, g.slots[i].value)
      && g.results[i] == if Delivered(w, g.slots[i].value) then Some(w.promises[g.items[i].p].data) else None
    else
      g.slots[i] == None && g.results[i] == Some(g.items[i])
  }

  /** The first k entries have been set up, the others not touched. */
  ghost predicate EntriesInv(w: World, a: nat, g: Aggregate, k: nat) {
    && k <= |g.items| == |g.results| == |g.slots|
    && (forall i :: 0 <= i < k ==> EntryInv(w, a, g, i))
    && (forall i :: k <= i < |g.items| ==> g.slots[i] == None && g.results[i] == None)
    && g.remaining == CountTrue(Flags(w, g, k))
  }

  /** The k-th invocation is one of a's entries being rejected. */
  ghost predicate RejectedAt(w: World, a: nat, k: nat) {
    && k < |w.history.log| && RejectedEntry(w, a, w.history.log[k])
  }

  ghost predicate RejectedEntry(w: World, a: nat, s: nat) {
    && s < |w.subscribers| && w.subscribers[s].onFulfil.StoreResult? && w.subscribers[s].onFulfil.a == a
    && w.subscribers[s].owner < |w.promises| && w.promises[w.subscribers[s].owner].phase == Rejected
  }

  ghost predicate FirstRejected(w: World, a: nat, k: nat) {
    RejectedAt(w, a, k) && forall j: nat :: j < k ==> !RejectedAt(w, a, j)
  }

  /** Fulfilled with the results exactly when nothing is outstanding; rejected with the first rejection processed. */
  ghost predicate OutcomeInv(w: World, a: nat, g: Aggregate) {
    && g.target < |w.promises| == |w.history.trails|
    && w.history.trails[g.target].origin == Combined(a)
    && (w.history.trails[g.target].decided == Fulfilled <==> g.remaining == 0)
    && (w.history.trails[g.target].decided == Fulfilled ==> w.promises[g.target].data == ResultArray(a))
    && (w.history.trails[g.target].decided == Rejected <==> exists k: nat :: RejectedAt(w, a, k))
    && (forall k: nat :: FirstRejected(w, a, k) ==>
          w.promises[g.target].data == w.promises[w.subscribers[w.history.log[k]].owner].data)
  }

  ghost predicate AggregateInv(w: World, a: nat) {
    && a < |w.aggregates|
    && EntriesInv(w, a, w.aggregates[a], |w.aggregates[a].items|)
    && OutcomeInv(w, a, w.aggregates[a])
  }

  /** A subscriber made by P.all is the one its entry recorded. */
  ghost predicate SlotInv(w: World, s: nat) {
    && s < |w.subscribers|
    && (w.subscribers[s].onFulfil.StoreResult? <==> w.subscribers[s].onReject.RejectTarget?)
    && (w.subscribers[s].onFulfil.StoreResult? ==>
          var a, i := w.subscribers[s].onFulfil.a, w.subscribers[s].onFulfil.i;
          a < |w.aggregates| && i < |w.aggregates[a].slots| && w.aggregates[a].slots[i] == Some(s))
  }

  ghost predicate Uncombined(w: World, p: nat) {
    p < |w.history.trails| && !w.history.trails[p].origin.Combined?
  }

  ghost predicate SlotsInv(w: World) { forall s :: 0 <= s < |w.subscribers| ==> SlotInv(w, s) }

  ghost predicate LatchTargets(w: World) {
    forall l :: 0 <= l < |w.latches| ==> Uncombined(w, w.latches[l].target)
  }

  ghost predicate AllsBut(w: World, x: Option<nat>) {
    forall a :: 0 <= a < |w.aggregates| && Some(a) != x ==> AggregateInv(w, a)
  }

  ghost predicate Alls(w: World) { AllsBut(w, None) && SlotsInv(w) && LatchTargets(w) }

  // ---------------------------------------------------------------- counting

  lemma {:induction false} CountClear(flags: seq<bool>, i: nat)
    requires i < |flags| && flags[i]
    ensures CountTrue(flags[i := false]) == CountTrue(flags) - 1
  {
    var n, flags' := |flags| - 1, flags[i := false];
    if i < n {
      assert flags'[..n] == flags[..n][i := false];
      CountClear(flags[..n], i);
    } else {
      assert flags'[..n] == flags[..n];
    }
  }

  lemma {:induction false} CountTwo(flags: seq<bool>, i: nat, j: nat)
    requires i < j < |flags| && flags[i] && flags[j]
    ensures CountTrue(flags) >= 2
  {
    CountClear(flags, i);
    CountClear(flags[i := false], j);
  }

  lemma CountSnoc(flags: seq<bool>, b: bool)
    ensures CountTrue(flags + [b]) == CountTrue(flags) + (if b then 1 else 0)
  {
    assert (flags + [b])[..|flags|] == flags;
  }

  // ---------------------------------------------------------------- steps that leave an aggregate alone

  /** Combined promises other than x's, and aggregates other than x, are as before. */
  ghost predicate Undisturbed(w: World, w': World, x: Option<nat>) {
    && |w.aggregates| <= |w'.aggregates|
    && (forall a :: 0 <= a < |w.aggregates| && Some(a) != x ==> w'.aggregates[a] == w.aggregates[a])
    && |w.history.trails| == |w.promises| <= |w'.promises| == |w'.history.trails|
    && (forall p :: 0 <= p < |w.promises| ==> CombinedStays(w, w', p, x))
  }

  ghost predicate CombinedStays(w: World, w': World, p: nat, x: Option<nat>)
    requires p < |w.promises| == |w.history.trails| && p < |w'.promises| == |w'.history.trails|
  {
    w.history.trails[p].origin.Combined? && Some(w.history.trails[p].origin.a) != x ==>
      w'.promises[p].data == w.promises[p].data && w'.history.trails[p] == w.history.trails[p]
  }

  ghost predicate EntryOf(w: World, a: nat, s: nat) {
    s < |w.subscribers| && w.subscribers[s].onFulfil.StoreResult? && w.subscribers[s].onFulfil.a == a
  }

  /** New invocations, if any, are not of a's entries. */
  ghost predicate LogFor(w: World, w': World, a: nat) {
    && w.history.log <= w'.history.log
    && forall k :: |w.history.log| <= k < |w'.history.log| ==> !EntryOf(w', a, w'.history.log[k])
  }

  lemma DeliveredStays(w: World, w': World, a: nat, s: nat)
    requires Structure(w) && Advances(w, w') && LogFor(w, w', a) && EntryOf(w, a, s)
    ensures Delivered(w', s) <==> Delivered(w, s)
    ensures Delivered(w, s) ==>
      w'.promises[w.subscribers[s].owner].data == w.promises[w.subscribers[s].owner].data
  {
    assert w'.subscribers[s] == w.subscribers[s];
    if s in w.history.log {
      InvokedOwner(w, s);
      var p := w.subscribers[s].owner;
      assert SettlesOnce(w.promises[p], w'.promises[p], w.history.trails[p], w'.history.trails[p]);
    } else {
      forall k | 0 <= k < |w'.history.log| ensures w'.history.log[k] != s {
        if k < |w.history.log| {
          assert w'.history.log[k] == w.history.log[k];
        }
      }
    }
  }

  lemma EntriesStay(w: World, w': World, a: nat, g: Aggregate, k: nat)
    requires Structure(w) && Advances(w, w') && LogFor(w, w', a)
    requires EntriesInv(w, a, g, k)
    ensures EntriesInv(w', a, g, k)
  {
    forall i | 0 <= i < k
      ensures EntryInv(w', a, g, i) && (Waiting(w', g, i) <==> Waiting(w, g, i))
    {
      assert EntryInv(w, a, g, i);
      if g.items[i].PromiseRef? {
        var s := g.slots[i].value;
        DeliveredStays(w, w', a, s);
        assert w'.subscribers[s] == w.subscribers[s];
      }
    }
    assert Flags(w', g, k) == Flags(w, g, k);
  }

  ghost predicate SameRejection(w: World, w': World, s: nat) {
    && s < |w.subscribers| && s < |w'.subscribers| && w'.subscribers[s] == w.subscribers[s]
    && w.subscribers[s].owner < |w.promises| && w.subscribers[s].owner < |w'.promises|
    && w'.promises[w.subscribers[s].owner].data == w.promises[w.subscribers[s].owner].data
  }

  lemma RejectedStays(w: World, w': World, a: nat, k: nat)
    requires Structure(w) && Advances(w, w') && LogFor(w, w', a)
    ensures RejectedAt(w', a, k) <==> RejectedAt(w, a, k)
    ensures RejectedAt(w, a, k) ==> SameRejection(w, w', w.history.log[k])
    ensures RejectedAt(w, a, k) ==> w'.history.log[k] == w.history.log[k]
  {
    if k < |w.history.log| {
      var s := w.history.log[k];
      assert w'.history.log[k] == s && s in w.history.log;
      InvokedOwner(w, s);
      assert w'.subscribers[s] == w.subscribers[s];
      var p := w.subscribers[s].owner;
      assert SettlesOnce(w.promises[p], w'.promises[p], w.history.trails[p], w'.history.trails[p]);
    } else if k < |w'.history.log| {
      assert !EntryOf(w', a, w'.history.log[k]);
    }
  }

  lemma OutcomeStays(w: World, w': World, a: nat, g: Aggregate, x: Option<nat>)
    requires Structure(w) && Advances(w, w') && LogFor(w, w', a) && Undisturbed(w, w', x) && Some(a) != x
    requires OutcomeInv(w, a, g)
    ensures OutcomeInv(w', a, g)
  {
    assert CombinedStays(w, w', g.target, x);
    forall k: nat
      ensures RejectedAt(w', a, k) <==> RejectedAt(w, a, k)
      ensures FirstRejected(w', a, k) ==>
        w'.promises[g.target].data == w'.promises[w'.subscribers[w'.history.log[k]].owner].data
    {
      RejectedStays(w, w', a, k);
      if FirstRejected(w', a, k) {
        forall j: nat | j < k ensures !RejectedAt(w, a, j) {
          RejectedStays(w, w', a, j);
        }
        assert FirstRejected(w, a, k);
      }
    }
  }

  lemma AllsStay(w: World, w': World, x: Option<nat>)
    requires Structure(w) && Advances(w, w') && Undisturbed(w, w', x) && AllsBut(w, x)
    requires forall a :: 0 <= a < |w.aggregates| && Some(a) != x ==> LogFor(w, w', a)
    requires forall a :: |w.aggregates| <= a < |w'.aggregates| ==> Some(a) == x
    ensures AllsBut(w', x)
  {
    forall a | 0 <= a < |w'.aggregates| && Some(a) != x ensures AggregateInv(w', a) {
      assert AggregateInv(w, a) && LogFor(w, w', a);
      EntriesStay(w, w', a, w.aggregates[a], |w.aggregates[a].items|);
      OutcomeStays(w, w', a, w.aggregates[a], x);
    }
  }

  // ---------------------------------------------------------------- steps that settle other promises

  /** Slots survive when subscribers and aggregates only grow and no new subscriber is P.all's. */
  lemma SlotsStay(w: World, w': World)
    requires SlotsInv(w) && w.subscribers <= w'.subscribers && |w.aggregates| <= |w'.aggregates|
    requires forall a :: 0 <= a < |w.aggregates| ==> w'.aggregates[a].slots == w.aggregates[a].slots
    requires forall s :: |w.subscribers| <= s < |w'.subscribers| ==>
      !w'.subscribers[s].onFulfil.StoreResult? && !w'.subscribers[s].onReject.RejectTarget?
    ensures SlotsInv(w')
  {
    forall s | 0 <= s < |w'.subscribers| ensures SlotInv(w', s) {
      if s < |w.subscribers| { assert SlotInv(w, s) && w'.subscribers[s] == w.subscribers[s]; }
    }
  }

  lemma LatchTargetsStay(w: World, w': World, x: nat)
    requires LatchTargets(w) && Uncombined(w, x) && |w.latches| <= |w'.latches|
    requires |w.history.trails| <= |w'.history.trails|
    requires forall p :: 0 <= p < |w.history.trails| ==> w'.history.trails[p].origin == w.history.trails[p].origin
    requires forall l :: 0 <= l < |w.latches| ==> w'.latches[l].target == w.latches[l].target
    requires forall l :: |w.latches| <= l < |w'.latches| ==> w'.latches[l].target == x
    ensures LatchTargets(w')
  {
    forall l | 0 <= l < |w'.latches| ensures Uncombined(w', w'.latches[l].target) {
      if l < |w.latches| { assert Uncombined(w, w.latches[l].target); }
    }
  }

  /** Resolving a promise that is not a combined one leaves every P.all alone. */
  lemma ResolvingElsewhere(w: World, w': World, x: nat, v: Value)
    requires Structure(w) && Alls(w) && Advances(w, w') && Resolves(w, w', x) && Adopts(w, w', x, v) && Uncombined(w, x)
    ensures Alls(w')
  {
    forall p | 0 <= p < |w.promises| ensures CombinedStays(w, w', p, None) {
      if p != x {
        assert SameOutcome(w.promises[p], w'.promises[p], w.history.trails[p], w'.history.trails[p]);
      }
    }
    AllsStay(w, w', None);
    SlotsStay(w, w');
    TrailsGrow(w, w', x);
    LatchTargetsStay(w, w', x);
  }

  /** Control, counters of the queue and call records are no part of P.all. */
  lemma QuietStep(w: World, w': World)
    requires Structure(w) && Alls(w) && Advances(w, w')
    requires w'.subscribers == w.subscribers && w'.aggregates == w.aggregates && w'.history.log == w.history.log
    requires |w'.latches| == |w.latches|
    requires |w'.promises| == |w.promises|
    requires forall p :: 0 <= p < |w.promises| && !Uncombined(w, p) ==>
      w'.promises[p].data == w.promises[p].data && w'.history.trails[p] == w.history.trails[p]
    ensures Alls(w')
  {
    forall p | 0 <= p < |w.promises| ensures CombinedStays(w, w', p, None) { }
    AllsStay(w, w', None);
    SlotsStay(w, w');
    forall p | 0 <= p < |w.promises| ensures w'.history.trails[p].origin == w.history.trails[p].origin {
      assert TrailGrows(w.history.trails[p], w'.history.trails[p]);
    }
    forall l | 0 <= l < |w'.latches| ensures Uncombined(w', w'.latches[l].target) {
      assert LatchStays(w.latches[l], w'.latches[l]) && Uncombined(w, w.latches[l].target);
    }
  }

  lemma ResolveElsewhere(w: World, x: nat, v: Value)
    requires Structure(w) && Alls(w) && x < |w.promises| && Uncombined(w, x) && ValueOk(w, v)
    ensures Alls(Resolve(w, x, v))
  {
    ResolveResolves(w, x, v);
    ResolveAdvances(w, x, v);
    ResolvingElsewhere(w, Resolve(w, x, v), x, v);
  }

  lemma SettleElsewhere(w: World, x: nat, v: Value, ok: bool)
    requires Structure(w) && Alls(w) && x < |w.promises| && Uncombined(w, x) && ValueOk(w, v)
    ensures Alls(Settle(w, x, v, ok))
  {
    SettleResolves(w, x, v, ok);
    SettleAdvances(w, x, v, ok);
    ResolvingElsewhere(w, Settle(w, x, v, ok), x, Undefined);
  }

  lemma RecordElsewhere(w: World, x: nat, c: Call)
    requires Structure(w) && Alls(w) && x < |w.promises| && Uncombined(w, x)
    ensures Structure(RecordCall(w, x, c)) && Alls(RecordCall(w, x, c)) && Uncombined(RecordCall(w, x, c), x)
  {
    NeutralKeeps(w, RecordCall(w, x, c));
    RecordAdvances(w, x, c);
    QuietStep(w, RecordCall(w, x, c));
  }

  lemma EnterElsewhere(w: World, s: nat, f: nat, v: Value)
    requires Structure(w) && Alls(w)
    ensures Alls(EnterUser(w, s, f, v))
  {
    var w' := EnterUser(w, s, f, v);
    forall l | 0 <= l < |w'.latches| ensures Uncombined(w', w'.latches[l].target) {
      assert Uncombined(w, w.latches[l].target);
    }
    forall p | 0 <= p < |w.promises| ensures CombinedStays(w, w', p, None) { }
    AllsStay(w, w', None);
    SlotsStay(w, w');
  }

  lemma CallElsewhere(w: World, x: nat, v: Value)
    requires Structure(w) && Alls(w) && x < |w.promises| && Uncombined(w, x) && ValueOk(w, v)
    ensures Alls(CallResolve(w, x, v)) && Alls(CallReject(w, x, v))
  {
    var c := ResolveCall(v, |w.subscribers|);
    RecordElsewhere(w, x, c);
    ResolveElsewhere(RecordCall(w, x, c), x, v);
    RecordElsewhere(w, x, RejectCall(v));
    SettleElsewhere(RecordCall(w, x, RejectCall(v)), x, v, false);
  }

  lemma CloseElsewhere(w: World, l: nat)
    requires Structure(w) && Alls(w) && l < |w.latches|
    ensures Structure(CloseLatch(w, l)) && Alls(CloseLatch(w, l))
    ensures Uncombined(CloseLatch(w, l), w.latches[l].target) && Uncombined(w, w.latches[l].target)
  {
    NeutralKeeps(w, CloseLatch(w, l));
    CloseAdvances(w, l);
    QuietStep(w, CloseLatch(w, l));
  }

  lemma LatchElsewhere(w: World, l: nat, v: Value)
    requires Structure(w) && Alls(w) && l < |w.latches| && ValueOk(w, v)
    ensures Alls(LatchResolve(w, l, v)) && Alls(LatchReject(w, l, v)) && Alls(LatchThrow(w, l, v))
  {
    hide PhasesOf, PlacesOf, Schedule, Fifo, ControlInv, Settle, Resolve;
    CloseElsewhere(w, l);
    var w1, x := CloseLatch(w, l), w.latches[l].target;
    ResolveElsewhere(w1, x, v);
    SettleElsewhere(w1, x, v, true);
    SettleElsewhere(w1, x, v, false);
    SettleElsewhere(w, x, v, false);
  }

  lemma HandleElsewhere(w: World, x: nat, v: Value)
    requires Structure(w) && Alls(w) && x < |w.promises| && Uncombined(w, x) && ValueOk(w, v)
    ensures Alls(HandleThenable(w, x, v))
  {
    HandleResolves(w, x, v);
    HandleAdvances(w, x, v);
    ResolvingElsewhere(w, HandleThenable(w, x, v), x, v);
  }

  lemma ResumeElsewhere(w: World, s: nat, v: Value, ok: bool)
    requires Structure(w) && Alls(w) && s < |w.subscribers| && ValueOk(w, v)
    requires Uncombined(w, w.subscribers[s].derived)
    requires w.control.Flushing? ==> w.control.call == InCallback(s)
    ensures Alls(Resume(w, s, v, ok))
  {
    var d := w.subscribers[s].derived;
    assert SubscriberOk(w, w.subscribers[s]);
    HandleElsewhere(w, d, v);
    ResolveElsewhere(w, d, v);
    SettleElsewhere(w, d, v, false);
    var w1 := Conclude(w, d, v, ok);
    ConcludeKeeps(w, d, v, ok);
    EndCallAdvances(w1, s, v);
    QuietStep(w1, EndCall(w1, s, v));
  }

  lemma AllocateElsewhere(w: World, origin: Origin)
    requires Structure(w) && Alls(w)
    ensures Alls(Allocate(w, origin))
  {
    var w' := Allocate(w, origin);
    AllocateAdvances(w, origin);
    forall p | 0 <= p < |w.promises| ensures CombinedStays(w, w', p, None) { }
    AllsStay(w, w', None);
    SlotsStay(w, w');
    forall l | 0 <= l < |w'.latches| ensures Uncombined(w', w'.latches[l].target) {
      assert Uncombined(w, w.latches[l].target);
    }
  }

  lemma SubscribeElsewhere(w: World, q: nat, f: Callback, r: Callback)
    requires Structure(w) && Alls(w) && q < |w.promises| && CallbackOk(w, f) && CallbackOk(w, r)
    requires !f.StoreResult? && !r.RejectTarget?
    ensures Alls(Subscribe(w, q, f, r))
  {
    var w', x := Subscribe(w, q, f, r), |w.promises|;
    SubscribeResolves(w, q, f, r, x);
    SubscribeAdvances(w, q, f, r);
    forall p | 0 <= p < |w.promises| ensures CombinedStays(w, w', p, None) {
      assert SameOutcome(w.promises[p], w'.promises[p], w.history.trails[p], w'.history.trails[p]);
    }
    AllsStay(w, w', None);
    SlotsStay(w, w');
    forall l | 0 <= l < |w'.latches| ensures Uncombined(w', w'.latches[l].target) {
      assert Uncombined(w, w.latches[l].target);
    }
  }

  /** Invoking a subscriber that is not P.all's. */
  lemma TakeElsewhere(w: World)
    requires Structure(w) && Alls(w) && Taking(w)
    requires w.control.work[0] < |w.subscribers| && !w.subscribers[w.control.work[0]].onFulfil.StoreResult?
    ensures Alls(TakeWork(w))
  {
    var w' := TakeWork(w);
    forall p | 0 <= p < |w.promises| ensures CombinedStays(w, w', p, None) { }
    AllsStay(w, w', None);
    SlotsStay(w, w');
    forall l | 0 <= l < |w'.latches| ensures Uncombined(w', w'.latches[l].target) {
      assert Uncombined(w, w.latches[l].target);
    }
  }

  // ---------------------------------------------------------------- an entry's promise is final

  /** The next subscriber to invoke watches entry i of a. */
  ghost predicate TakingEntry(w: World, a: nat, i: nat) {
    && Taking(w) && w.control.work[0] < |w.subscribers|
    && w.subscribers[w.control.work[0]].onFulfil == StoreResult(a, i)
  }

  lemma EntryFacts(w: World, a: nat, i: nat)
    requires Structure(w) && Alls(w) && TakingEntry(w, a, i)
    ensures a < |w.aggregates| && i < |w.aggregates[a].items| == |w.aggregates[a].slots| == |w.aggregates[a].results|
    ensures w.aggregates[a].slots[i] == Some(w.control.work[0]) && w.control.work[0] !in w.history.log
    ensures Watches(w, a, w.aggregates[a], i, w.control.work[0])
    ensures FinalAt(w.promises, w.subscribers[w.control.work[0]].owner)
    ensures Waiting(w, w.aggregates[a], i) && AggregateInv(w, a)
  {
    WorkIsNew(w);
    assert SlotInv(w, w.control.work[0]) && AggregateInv(w, a);
    assert EntryInv(w, a, w.aggregates[a], i);
  }

  function Stored(g: Aggregate, i: nat, v: Value): Aggregate
    requires i < |g.results|
  {
    g.(results := g.results[i := Some(v)], remaining := g.remaining - 1)
  }

  lemma TakeEntry(w: World, a: nat, g: Aggregate, g': Aggregate, i: nat, ok: bool, j: nat)
    requires Taking(w) && WF(w) && w.control.work[0] < |w.subscribers| && w.control.work[0] !in w.history.log
    requires |g.items| == |g.results| == |g.slots| && i < |g.items| && j < |g.items|
    requires EntryInv(w, a, g, i) && EntryInv(w, a, g, j) && g.slots[i] == Some(w.control.work[0])
    requires ok <==> w.promises[w.subscribers[w.control.work[0]].owner].phase == Fulfilled
    requires g' == if ok then Stored(g, i, w.promises[w.subscribers[w.control.work[0]].owner].data) else g
    ensures EntryInv(TakeWork(w), a, g', j)
    ensures Waiting(TakeWork(w), g', j) <==> Waiting(w, g, j) && (j != i || !ok)
  {
    var w1, s0 := TakeWork(w), w.control.work[0];
    if g.items[j].PromiseRef? {
      var s := g.slots[j].value;
      assert s in w1.history.log <==> s in w.history.log || s == s0;
      assert s == s0 ==> j == i;
    }
  }

  /** After the invocation only entry i can have changed: it is delivered if its promise was fulfilled. */
  lemma TakeEntries(w: World, a: nat, i: nat, ok: bool)
    requires Structure(w) && Alls(w) && TakingEntry(w, a, i)
    requires w.subscribers[w.control.work[0]].owner < |w.promises|
    requires ok <==> w.promises[w.subscribers[w.control.work[0]].owner].phase == Fulfilled
    ensures a < |w.aggregates| && i < |w.aggregates[a].results|
    ensures var g, v := w.aggregates[a], w.promises[w.subscribers[w.control.work[0]].owner].data;
      EntriesInv(TakeWork(w), a, if ok then Stored(g, i, v) else g, |g.items|)
  {
    hide PhasesOf, PlacesOf, Schedule, Fifo, ControlInv, AllsBut, SlotsInv, LatchTargets, WF, EntryInv;
    EntryFacts(w, a, i);
    var w1, g := TakeWork(w), w.aggregates[a];
    var v, n := w.promises[w.subscribers[w.control.work[0]].owner].data, |w.aggregates[a].items|;
    var g' := if ok then Stored(g, i, v) else g;
    forall j | 0 <= j < n
      ensures EntryInv(w1, a, g', j) && (Waiting(w1, g', j) <==> (Waiting(w, g, j) && (j != i || !ok)))
    {
      TakeEntry(w, a, g, g', i, ok, j);
    }
    if ok {
      CountClear(Flags(w, g, n), i);
      assert Flags(w1, g', n) == Flags(w, g, n)[i := false];
    } else {
      assert Flags(w1, g', n) == Flags(w, g, n);
    }
  }

  /** An earlier rejection leaves its own entry outstanding besides the one now taken. */
  lemma RejectedMeansTwo(w: World, a: nat, i: nat, k: nat)
    requires Structure(w) && Alls(w) && TakingEntry(w, a, i) && RejectedAt(w, a, k)
    ensures a < |w.aggregates| && w.aggregates[a].remaining >= 2
  {
    EntryFacts(w, a, i);
    var g, s := w.aggregates[a], w.history.log[k];
    assert s in w.history.log && SlotInv(w, s);
    var j := w.subscribers[s].onFulfil.i;
    assert EntryInv(w, a, g, j);
    assert Waiting(w, g, j) && Waiting(w, g, i) && i != j;
    var flags := Flags(w, g, |g.items|);
    assert flags[i] && flags[j];
    if i < j { CountTwo(flags, i, j); } else { CountTwo(flags, j, i); }
  }

  lemma {:induction false} CountSome(flags: seq<bool>, i: nat)
    requires i < |flags| && flags[i]
    ensures CountTrue(flags) >= 1
  {
    CountClear(flags, i);
  }

  lemma OutstandingMeansUnfulfilled(w: World, a: nat, i: nat)
    requires Structure(w) && Alls(w) && TakingEntry(w, a, i)
    ensures a < |w.aggregates| && w.aggregates[a].remaining >= 1
  {
    EntryFacts(w, a, i);
    var g := w.aggregates[a];
    assert Flags(w, g, |g.items|)[i];
    CountSome(Flags(w, g, |g.items|), i);
  }

  /** The other P.alls, slots and latches do not notice a's entry being taken. */
  lemma OthersAtEntry(w: World, w': World, a: nat, i: nat)
    requires Structure(w) && Alls(w) && TakingEntry(w, a, i) && Advances(w, w')
    requires w'.subscribers == w.subscribers && w'.history.log == w.history.log + [w.control.work[0]]
    requires w'.latches == w.latches && Undisturbed(w, w', Some(a)) && |w'.aggregates| == |w.aggregates|
    requires a < |w.aggregates| && w'.aggregates[a].slots == w.aggregates[a].slots
    ensures AllsBut(w', Some(a)) && SlotsInv(w') && LatchTargets(w')
  {
    AllsStay(w, w', Some(a));
    SlotsStay(w, w');
    forall l | 0 <= l < |w'.latches| ensures Uncombined(w', w'.latches[l].target) {
      assert Uncombined(w, w.latches[l].target);
      assert TrailGrows(w.history.trails[w.latches[l].target], w'.history.trails[w.latches[l].target]);
    }
  }

  lemma TakeAdvances(w: World)
    requires WF(w) && Taking(w)
    ensures Advances(w, TakeWork(w))
  {
  }

  /** What a call of its resolvers by P.all touches: the combined promise t. */
  ghost predicate OnlyTarget(w: World, w': World, t: nat) {
    && w'.subscribers == w.subscribers && w'.history.log == w.history.log && w'.latches == w.latches
    && w'.aggregates == w.aggregates
    && |w'.promises| == |w.promises| == |w.history.trails| == |w'.history.trails| && t < |w.promises|
    && w'.history.trails[t].origin == w.history.trails[t].origin
    && (forall p :: 0 <= p < |w.promises| && p != t ==>
          w'.promises[p].data == w.promises[p].data && w'.history.trails[p] == w.history.trails[p])
    && (forall p :: 0 <= p < |w.promises| ==> (Final(w'.promises[p].phase) <==> Final(w.promises[p].phase)))
    && (forall p :: 0 <= p < |w.promises| && Final(w.promises[p].phase) ==>
          w'.promises[p].phase == w.promises[p].phase && w'.promises[p].data == w.promises[p].data)
  }

  ghost predicate TargetAfter(w: World, w': World, t: nat, v: Value, decided: Phase)
    requires OnlyTarget(w, w', t)
  {
    if w.promises[t].phase == Pending
    then w'.promises[t].data == v && w'.history.trails[t].decided == decided
    else w'.promises[t].data == w.promises[t].data && w'.history.trails[t].decided == w.history.trails[t].decided
  }

  lemma ResolveTarget(w: World, t: nat, a: nat)
    requires Structure(w) && t < |w.promises| && a < |w.aggregates|
    ensures var w' := CallResolve(w, t, ResultArray(a));
      Advances(w, w') && OnlyTarget(w, w', t) && TargetAfter(w, w', t, ResultArray(a), Fulfilled)
  {
    hide PhasesOf, PlacesOf, Schedule, Fifo, ControlInv, Advances;
    CallResolveAdvances(w, t, ResultArray(a));
  }

  lemma RejectTargetWith(w: World, t: nat, v: Value)
    requires Structure(w) && t < |w.promises| && ValueOk(w, v)
    ensures var w' := CallReject(w, t, v);
      Advances(w, w') && OnlyTarget(w, w', t) && TargetAfter(w, w', t, v, Rejected)
  {
    CallRejectAdvances(w, t, v);
  }

  lemma TargetUndisturbed(w: World, w1: World, w': World, a: nat, t: nat)
    requires |w.history.trails| == |w.promises| == |w1.promises| && t < |w.promises|
    requires w1.promises == w.promises && w1.history.trails == w.history.trails
    requires |w.aggregates| == |w1.aggregates|
    requires forall b :: 0 <= b < |w.aggregates| && b != a ==> w1.aggregates[b] == w.aggregates[b]
    requires w' == w1 || OnlyTarget(w1, w', t)
    requires w.history.trails[t].origin == Combined(a)
    ensures Undisturbed(w, w', Some(a))
  {
    forall p | 0 <= p < |w.promises| ensures CombinedStays(w, w', p, Some(a)) { }
  }

  lemma PendingUndecided(w: World, t: nat)
    requires Structure(w) && t < |w.promises|
    ensures w.promises[t].phase == Pending <==> w.history.trails[t].decided == Pending
    ensures Final(w.history.trails[t].decided) || w.history.trails[t].decided == Pending
  {
    assert PhaseInv(t, w.promises[t], w.history.trails[t].decided, w.pending, Published(w.control) == Some(t));
  }

  /** The combined promise after an entry has been delivered. */
  lemma DeliveredOutcome(w: World, w2: World, w': World, a: nat, i: nat)
    requires Structure(w) && Alls(w) && TakingEntry(w, a, i)
    requires w.subscribers[w.control.work[0]].owner < |w.promises|
    requires w.promises[w.subscribers[w.control.work[0]].owner].phase == Fulfilled
    requires a < |w.aggregates| && i < |w.aggregates[a].results|
    requires w2.promises == w.promises && w2.history.trails == w.history.trails
    requires w2.subscribers == w.subscribers && w2.history.log == w.history.log + [w.control.work[0]]
    requires var g, g' := w.aggregates[a], w2.aggregates;
      && |w2.aggregates| == |w.aggregates| && w2.aggregates[a].remaining == g.remaining - 1
      && w2.aggregates[a].target == g.target
      && (if g.remaining - 1 == 0 then
            OnlyTarget(w2, w', g.target) && TargetAfter(w2, w', g.target, ResultArray(a), Fulfilled)
          else w' == w2)
    ensures OutcomeInv(w', a, w'.aggregates[a])
  {
    EntryFacts(w, a, i);
    var t := w.aggregates[a].target;
    assert OutcomeInv(w, a, w.aggregates[a]);
    OutstandingMeansUnfulfilled(w, a, i);
    PendingUndecided(w, t);
    if k: nat :| RejectedAt(w, a, k) { RejectedMeansTwo(w, a, i, k); }
    forall k: nat
      ensures RejectedAt(w', a, k) <==> RejectedAt(w, a, k)
      ensures FirstRejected(w', a, k) ==>
        w'.promises[t].data == w'.promises[w'.subscribers[w'.history.log[k]].owner].data
    {
      RejectedSame(w, w', a, k);
      if FirstRejected(w', a, k) {
        forall j: nat | j < k ensures !RejectedAt(w, a, j) { RejectedSame(w, w', a, j); }
        assert FirstRejected(w, a, k);
        InvokedFinal(w, k);
      }
    }
  }

  lemma InvokedFinal(w: World, k: nat)
    requires Structure(w) && k < |w.history.log|
    ensures w.history.log[k] < |w.subscribers| && FinalAt(w.promises, w.subscribers[w.history.log[k]].owner)
  {
    assert w.history.log[k] in w.history.log;
    InvokedOwner(w, w.history.log[k]);
  }

  /** One more invocation, of an entry whose promise was fulfilled, adds no rejection. */
  lemma RejectedSame(w: World, w': World, a: nat, k: nat)
    requires Structure(w) && Taking(w) && w.control.work[0] < |w.subscribers|
    requires w'.subscribers == w.subscribers && w'.history.log == w.history.log + [w.control.work[0]]
    requires |w'.promises| == |w.promises|
    requires forall p :: 0 <= p < |w.promises| ==> (Final(w'.promises[p].phase) <==> Final(w.promises[p].phase))
    requires forall p :: 0 <= p < |w.promises| && Final(w.promises[p].phase) ==>
      w'.promises[p].phase == w.promises[p].phase
    requires FinalAt(w.promises, w.subscribers[w.control.work[0]].owner)
    ensures RejectedAt(w', a, k) <==>
      RejectedAt(w, a, k) || (k == |w.history.log| && RejectedEntry(w, a, w.control.work[0]))
  {
    if k < |w.history.log| {
      InvokedFinal(w, k);
    }
  }

  /** The state between counting the delivered value and settling the combined promise. */
  function StoredWorld(w: World, a: nat, i: nat, v: Value): (r: World)
    requires WF(w) && a < |w.aggregates| && i < |w.aggregates[a].results|
    ensures WF(r)
  {
    assert AggregateOk(w, w.aggregates[a]);
    SetAggregate(w, a, Stored(w.aggregates[a], i, v))
  }

  ghost predicate StoreStep(w: World, w2: World, w': World, a: nat) {
    a < |w2.aggregates| &&
    if w2.aggregates[a].remaining == 0
    then OnlyTarget(w2, w', w2.aggregates[a].target) &&
         TargetAfter(w2, w', w2.aggregates[a].target, ResultArray(a), Fulfilled)
    else w' == w2
  }

  lemma StoreSteps(w: World, a: nat, i: nat, v: Value)
    requires Structure(w) && a < |w.aggregates| && i < |w.aggregates[a].results| && ValueOk(w, v)
    ensures Advances(w, Store(w, a, i, v)) && StoreStep(w, StoredWorld(w, a, i, v), Store(w, a, i, v), a)
  {
    StoreAdvances(w, a, i, v);
    assert AggregateOk(w, w.aggregates[a]);
    NeutralKeeps(w, StoredWorld(w, a, i, v));
    ResolveTarget(StoredWorld(w, a, i, v), w.aggregates[a].target, a);
  }

  lemma BeginIsStore(w: World, a: nat, i: nat)
    requires Structure(w) && TakingEntry(w, a, i) && a < |w.aggregates| && i < |w.aggregates[a].results|
    requires FinalAt(w.promises, w.subscribers[w.control.work[0]].owner)
    requires w.promises[w.subscribers[w.control.work[0]].owner].phase == Fulfilled
    ensures ValueOk(TakeWork(w), w.promises[w.subscribers[w.control.work[0]].owner].data)
    ensures BeginCallback(w) == Store(TakeWork(w), a, i, w.promises[w.subscribers[w.control.work[0]].owner].data)
  {
    assert PromiseOk(w, w.promises[w.subscribers[w.control.work[0]].owner]);
  }

  /**
    resolver(i)'s closure runs: the value is stored at its own index, and the last one fulfils the combined
    promise.
  */
  lemma DeliverEntry(w: World, a: nat, i: nat)
    requires Structure(w) && Alls(w) && TakingEntry(w, a, i)
    requires w.subscribers[w.control.work[0]].owner < |w.promises|
    requires w.promises[w.subscribers[w.control.work[0]].owner].phase == Fulfilled
    ensures Alls(BeginCallback(w))
  {
    EntryFacts(w, a, i);
    BeginIsStore(w, a, i);
    var v := w.promises[w.subscribers[w.control.work[0]].owner].data;
    TakeWorkKeeps(w);
    StoreSteps(TakeWork(w), a, i, v);
    DeliveredAll(w, a, i, v, StoredWorld(TakeWork(w), a, i, v), BeginCallback(w));
  }

  lemma DeliveredAll(w: World, a: nat, i: nat, v: Value, w2: World, w': World)
    requires Structure(w) && Alls(w) && TakingEntry(w, a, i)
    requires FinalAt(w.promises, w.subscribers[w.control.work[0]].owner)
    requires w.promises[w.subscribers[w.control.work[0]].owner].phase == Fulfilled
    requires v == w.promises[w.subscribers[w.control.work[0]].owner].data
    requires a < |w.aggregates| && i < |w.aggregates[a].results|
    requires w2 == StoredWorld(TakeWork(w), a, i, v) && StoreStep(w, w2, w', a)
    requires Structure(TakeWork(w)) && Advances(TakeWork(w), w')
    ensures Alls(w')
  {
    TakeEntries(w, a, i, true);
    TakeAdvances(w);
    Trans(w, TakeWork(w), w');
    var g := w.aggregates[a];
    assert AggregateInv(w, a);
    DeliveredOutcome(w, w2, w', a, i);
    TargetUndisturbed(w, w2, w', a, g.target);
    OthersAtEntry(w, w', a, i);
    EntriesStay(TakeWork(w), w', a, Stored(g, i, v), |g.items|);
    assert w'.aggregates[a] == Stored(g, i, v);
  }

  // ---------------------------------------------------------------- an entry is rejected

  lemma BeginIsReject(w: World, a: nat, i: nat)
    requires Structure(w) && Alls(w) && TakingEntry(w, a, i)
    requires FinalAt(w.promises, w.subscribers[w.control.work[0]].owner)
    requires w.promises[w.subscribers[w.control.work[0]].owner].phase == Rejected
    ensures a < |w.aggregates| && w.aggregates[a].target < |w.promises|
    ensures ValueOk(TakeWork(w), w.promises[w.subscribers[w.control.work[0]].owner].data)
    ensures BeginCallback(w) ==
      CallReject(TakeWork(w), w.aggregates[a].target, w.promises[w.subscribers[w.control.work[0]].owner].data)
  {
    hide PhasesOf, PlacesOf, Schedule, Fifo, ControlInv, AggregateInv, CallReject;
    EntryFacts(w, a, i);
    assert PromiseOk(w, w.promises[w.subscribers[w.control.work[0]].owner]);
    assert AggregateOk(w, w.aggregates[a]);
  }

  /** The first rejection processed decides the combined promise; later ones change nothing. */
  lemma RejectedOutcome(w: World, w': World, a: nat, i: nat)
    requires Structure(w) && Alls(w) && TakingEntry(w, a, i)
    requires FinalAt(w.promises, w.subscribers[w.control.work[0]].owner)
    requires w.promises[w.subscribers[w.control.work[0]].owner].phase == Rejected && a < |w.aggregates|
    requires OnlyTarget(TakeWork(w), w', w.aggregates[a].target)
    requires TargetAfter(TakeWork(w), w', w.aggregates[a].target,
                         w.promises[w.subscribers[w.control.work[0]].owner].data, Rejected)
    ensures OutcomeInv(w', a, w'.aggregates[a])
  {
    EntryFacts(w, a, i);
    var t, n := w.aggregates[a].target, |w.history.log|;
    assert OutcomeInv(w, a, w.aggregates[a]);
    OutstandingMeansUnfulfilled(w, a, i);
    PendingUndecided(w, t);
    assert RejectedEntry(w, a, w.control.work[0]);
    RejectedSame(w, w', a, n);
    forall k: nat
      ensures RejectedAt(w', a, k) <==> RejectedAt(w, a, k) || k == n
      ensures FirstRejected(w', a, k) ==>
        w'.promises[t].data == w'.promises[w'.subscribers[w'.history.log[k]].owner].data
    {
      RejectedSame(w, w', a, k);
      if FirstRejected(w', a, k) {
        forall j: nat | j < k ensures !RejectedAt(w, a, j) { RejectedSame(w, w', a, j); }
        if k < n {
          assert FirstRejected(w, a, k);
          InvokedFinal(w, k);
        }
      }
    }
    assert RejectedAt(w', a, n);
  }

  lemma RejectEntry(w: World, a: nat, i: nat)
    requires Structure(w) && Alls(w) && TakingEntry(w, a, i)
    requires FinalAt(w.promises, w.subscribers[w.control.work[0]].owner)
    requires w.promises[w.subscribers[w.control.work[0]].owner].phase == Rejected
    ensures Alls(BeginCallback(w))
  {
    BeginIsReject(w, a, i);
    TakeWorkKeeps(w);
    RejectTargetWith(TakeWork(w), w.aggregates[a].target, w.promises[w.subscribers[w.control.work[0]].owner].data);
    RejectedAll(w, a, i, BeginCallback(w));
  }

  lemma RejectedAll(w: World, a: nat, i: nat, w': World)
    requires Structure(w) && Alls(w) && TakingEntry(w, a, i)
    requires FinalAt(w.promises, w.subscribers[w.control.work[0]].owner)
    requires w.promises[w.subscribers[w.control.work[0]].owner].phase == Rejected && a < |w.aggregates|
    requires OnlyTarget(TakeWork(w), w', w.aggregates[a].target)
    requires TargetAfter(TakeWork(w), w', w.aggregates[a].target,
                         w.promises[w.subscribers[w.control.work[0]].owner].data, Rejected)
    requires Structure(TakeWork(w)) && Advances(TakeWork(w), w')
    ensures Alls(w')
  {
    TakeEntries(w, a, i, false);
    TakeAdvances(w);
    Trans(w, TakeWork(w), w');
    var g := w.aggregates[a];
    assert AggregateInv(w, a);
    RejectedOutcome(w, w', a, i);
    TargetUndisturbed(w, TakeWork(w), w', a, g.target);
    OthersAtEntry(w, w', a, i);
    EntriesStay(TakeWork(w), w', a, g, |g.items|);
  }

  // ---------------------------------------------------------------- setting a P.all up

  /** Aggregate a, the newest one, has its first k entries set up and its combined promise untouched. */
  ghost predicate BuildInv(w: World, a: nat, k: nat) {
    && Structure(w) && AllsBut(w, Some(a)) && SlotsInv(w) && LatchTargets(w)
    && a + 1 == |w.aggregates| && EntriesInv(w, a, w.aggregates[a], k)
    && FreshTarget(w, a)
    && (forall s: nat :: EntryOf(w, a, s) ==> s !in w.history.log)
  }

  ghost predicate FreshTarget(w: World, a: nat)
    requires a < |w.aggregates|
  {
    var t := w.aggregates[a].target;
    t < |w.promises| == |w.history.trails| && w.promises[t].phase == Pending &&
    w.history.trails[t] == Trail(Combined(a), [], Pending)
  }

  lemma BuildBegins(w: World, items: seq<Value>)
    requires Structure(w) && Alls(w) && forall v <- items :: ValueOk(w, v)
    ensures BuildInv(AllBegin(w, items), |w.aggregates|, 0)
  {
    hide PhasesOf, PlacesOf, Schedule, Fifo, ControlInv;
    var a, w1, w' := |w.aggregates|, Allocate(w, Combined(|w.aggregates|)), AllBegin(w, items);
    AllocateKeeps(w, Combined(a));
    AllocateElsewhere(w, Combined(a));
    NeutralKeeps(w1, w');
    AllocateAdvances(w, Combined(a));
    forall p | 0 <= p < |w1.promises| ensures CombinedStays(w1, w', p, Some(a)) { }
    AllsStay(w1, w', Some(a));
    SlotsStay(w1, w');
    forall l | 0 <= l < |w'.latches| ensures Uncombined(w', w'.latches[l].target) {
      assert Uncombined(w1, w1.latches[l].target);
    }
    forall s | 0 <= s < |w'.subscribers| ensures !EntryOf(w', a, s) { assert SlotInv(w1, s); }
    assert Flags(w', w'.aggregates[a], 0) == [];
  }

  /** What setting up a plain entry changes. */
  ghost predicate PlainStep(w: World, w': World, a: nat, k: nat) {
    && a < |w.aggregates| && k < |w.aggregates[a].items| == |w.aggregates[a].results|
    && w' == w.(aggregates := w.aggregates[a := w.aggregates[a].(results :=
         w.aggregates[a].results[k := Some(w.aggregates[a].items[k])])])
  }

  lemma PlainOthers(w: World, w': World, a: nat, k: nat)
    requires BuildInv(w, a, k) && WF(w') && PlainStep(w, w', a, k)
    ensures Structure(w') && AllsBut(w', Some(a)) && SlotsInv(w') && LatchTargets(w')
  {
    NeutralKeeps(w, w');
    forall p | 0 <= p < |w.promises| ensures CombinedStays(w, w', p, Some(a)) { }
    AllsStay(w, w', Some(a));
    SlotsStay(w, w');
    forall l | 0 <= l < |w'.latches| ensures Uncombined(w', w'.latches[l].target) {
      assert Uncombined(w, w.latches[l].target);
    }
  }

  lemma PlainEntries(w: World, w': World, a: nat, k: nat)
    requires a < |w.aggregates| && EntriesInv(w, a, w.aggregates[a], k) && PlainStep(w, w', a, k)
    requires !w.aggregates[a].items[k].PromiseRef?
    ensures EntriesInv(w', a, w'.aggregates[a], k + 1)
  {
    var g, g' := w.aggregates[a], w'.aggregates[a];
    forall i | 0 <= i < k + 1
      ensures EntryInv(w', a, g', i) && (i < k ==> (Waiting(w', g', i) <==> Waiting(w, g, i)))
    {
      if i < k { assert EntryInv(w, a, g, i); }
    }
    assert Flags(w', g', k + 1) == Flags(w, g, k) + [false];
    CountSnoc(Flags(w, g, k), false);
  }

  lemma BuildPlain(w: World, a: nat, k: nat)
    requires BuildInv(w, a, k) && k < |w.aggregates[a].items| && !w.aggregates[a].items[k].PromiseRef?
    requires forall v <- w.aggregates[a].items :: ValueOk(w, v)
    ensures BuildInv(AllEntry(w, a, k), a, k + 1)
  {
    var w' := AllEntry(w, a, k);
    PlainOthers(w, w', a, k);
    PlainEntries(w, w', a, k);
    forall s: nat | EntryOf(w', a, s) ensures s !in w'.history.log { assert EntryOf(w, a, s); }
  }

  /** What setting up one promise entry changes. */
  ghost predicate WatchStep(w: World, w': World, a: nat, k: nat, q: nat) {
    && a < |w.aggregates| && k < |w.aggregates[a].slots|
    && w'.subscribers ==
         w.subscribers + [Subscriber(q, |w.promises|, StoreResult(a, k), RejectTarget(w.aggregates[a].target))]
    && w'.aggregates == w.aggregates[a := Counted(w.aggregates[a], k, |w.subscribers|)]
    && w'.latches == w.latches && w'.history.log == w.history.log
    && |w'.promises| == |w.promises| + 1
    && w'.history.trails == w.history.trails + [Trail(Derived, [], Pending)]
    && (forall p :: 0 <= p < |w.promises| ==>
          w'.promises[p].data == w.promises[p].data && w'.promises[p].phase == w.promises[p].phase)
  }

  lemma WatchSteps(w: World, a: nat, k: nat, q: nat)
    requires WF(w) && a < |w.aggregates| && AggregateOk(w, w.aggregates[a])
    requires k < |w.aggregates[a].items| && q < |w.promises|
    ensures Advances(w, Watch(w, a, k, q)) && WatchStep(w, Watch(w, a, k, q), a, k, q)
  {
    var w1 := Count(w, a, k);
    SubscribeAdvances(w1, q, StoreResult(a, k), RejectTarget(w.aggregates[a].target));
    Trans(w, w1, Watch(w, a, k, q));
  }

  lemma WatchedSlots(w: World, w': World, a: nat, k: nat, q: nat)
    requires SlotsInv(w) && WatchStep(w, w', a, k, q) && w.aggregates[a].slots[k] == None
    ensures SlotsInv(w')
  {
    forall s | 0 <= s < |w'.subscribers| ensures SlotInv(w', s) {
      if s < |w.subscribers| { assert SlotInv(w, s); }
    }
  }

  lemma WatchedFresh(w: World, w': World, a: nat, k: nat, q: nat)
    requires Structure(w) && WatchStep(w, w', a, k, q) && FreshTarget(w, a)
    requires forall s: nat :: EntryOf(w, a, s) ==> s !in w.history.log
    ensures a < |w'.aggregates| && FreshTarget(w', a)
    ensures forall s: nat :: EntryOf(w', a, s) ==> s !in w'.history.log
  {
    forall s: nat | EntryOf(w', a, s) ensures s !in w'.history.log {
      if s < |w.subscribers| { assert EntryOf(w, a, s); } else { NotInvoked(w, s); }
    }
  }

  lemma NotInvoked(w: World, s: nat)
    requires Structure(w) && |w.subscribers| <= s
    ensures s !in w.history.log
  {
    if s in w.history.log { InvokedOwner(w, s); }
  }

  lemma WatchedOthers(w: World, w': World, a: nat, k: nat, q: nat)
    requires BuildInv(w, a, k) && WatchStep(w, w', a, k, q) && Advances(w, w')
    ensures AllsBut(w', Some(a)) && LatchTargets(w')
  {
    forall p | 0 <= p < |w.promises| ensures CombinedStays(w, w', p, Some(a)) { }
    AllsStay(w, w', Some(a));
    forall l | 0 <= l < |w'.latches| ensures Uncombined(w', w'.latches[l].target) {
      assert Uncombined(w, w.latches[l].target);
    }
  }

  lemma WatchedEntry(w: World, w': World, a: nat, k: nat, q: nat, i: nat)
    requires Structure(w) && WatchStep(w, w', a, k, q) && EntriesInv(w, a, w.aggregates[a], k)
    requires i <= k < |w.aggregates[a].items| && w.aggregates[a].items[k] == PromiseRef(q) && q < |w.promises|
    ensures EntryInv(w', a, w'.aggregates[a], i)
    ensures Waiting(w', w'.aggregates[a], i) <==> i == k || Waiting(w, w.aggregates[a], i)
  {
    var g := w.aggregates[a];
    if i < k {
      assert EntryInv(w, a, g, i);
      if g.items[i].PromiseRef? {
        assert w'.subscribers[g.slots[i].value] == w.subscribers[g.slots[i].value];
      }
    } else {
      NotInvoked(w, |w.subscribers|);
    }
  }

  lemma WatchedEntries(w: World, w': World, a: nat, k: nat, q: nat)
    requires Structure(w) && WatchStep(w, w', a, k, q) && EntriesInv(w, a, w.aggregates[a], k)
    requires k < |w.aggregates[a].items| && w.aggregates[a].items[k] == PromiseRef(q) && q < |w.promises|
    ensures a < |w'.aggregates| && EntriesInv(w', a, w'.aggregates[a], k + 1)
  {
    var g, g' := w.aggregates[a], w'.aggregates[a];
    forall i | 0 <= i < k + 1
      ensures EntryInv(w', a, g', i) && (Waiting(w', g', i) <==> i == k || Waiting(w, g, i))
    {
      WatchedEntry(w, w', a, k, q, i);
    }
    assert Flags(w', g', k + 1) == Flags(w, g, k) + [true];
    CountSnoc(Flags(w, g, k), true);
  }

  lemma BuildPromise(w: World, a: nat, k: nat, q: nat)
    requires BuildInv(w, a, k) && k < |w.aggregates[a].items| && w.aggregates[a].items[k] == PromiseRef(q)
    requires q < |w.promises| && AggregateOk(w, w.aggregates[a])
    ensures BuildInv(Watch(w, a, k, q), a, k + 1)
  {
    var w' := Watch(w, a, k, q);
    WatchKeeps(w, a, k, q);
    WatchSteps(w, a, k, q);
    WatchedSlots(w, w', a, k, q);
    WatchedFresh(w, w', a, k, q);
    WatchedOthers(w, w', a, k, q);
    WatchedEntries(w, w', a, k, q);
  }

  lemma {:induction false} BuildLoops(w: World, a: nat, k: nat)
    requires BuildInv(w, a, k) && forall v <- w.aggregates[a].items :: ValueOk(w, v)
    ensures BuildInv(AllLoop(w, a, k), a, |w.aggregates[a].items|)
    ensures AllLoop(w, a, k).aggregates[a].items == w.aggregates[a].items
    decreases |w.aggregates[a].items| - k
  {
    if k < |w.aggregates[a].items| {
      var v := w.aggregates[a].items[k];
      assert v in w.aggregates[a].items && AggregateOk(w, w.aggregates[a]);
      if v.PromiseRef? { BuildPromise(w, a, k, v.p); } else { BuildPlain(w, a, k); }
      BuildLoops(AllEntry(w, a, k), a, k + 1);
    }
  }

  /** When every entry has been set up, the combined promise is fulfilled at once if none is outstanding. */
  lemma BuildEnds(w: World, a: nat)
    requires a < |w.aggregates| && BuildInv(w, a, |w.aggregates[a].items|) && w.aggregates[a].remaining != 0
    ensures Alls(w)
  {
    forall k: nat ensures !RejectedAt(w, a, k) {
      if k < |w.history.log| {
        assert w.history.log[k] in w.history.log;
        assert !EntryOf(w, a, w.history.log[k]);
      }
    }
    assert AggregateInv(w, a);
  }

  lemma BuildFulfils(w: World, a: nat)
    requires a < |w.aggregates| && BuildInv(w, a, |w.aggregates[a].items|) && w.aggregates[a].remaining == 0
    ensures Alls(CallResolve(w, w.aggregates[a].target, ResultArray(a)))
  {
    var g := w.aggregates[a];
    var w' := CallResolve(w, g.target, ResultArray(a));
    ResolveTarget(w, g.target, a);
    TargetUndisturbed(w, w, w', a, g.target);
    AllsStay(w, w', Some(a));
    SlotsStay(w, w');
    EntriesStay(w, w', a, g, |g.items|);
    forall l | 0 <= l < |w'.latches| ensures Uncombined(w', w'.latches[l].target) {
      assert Uncombined(w, w.latches[l].target);
    }
    forall k: nat ensures !RejectedAt(w', a, k) {
      if k < |w.history.log| {
        assert w.history.log[k] in w.history.log;
        assert !EntryOf(w, a, w.history.log[k]);
      }
    }
    assert AggregateInv(w', a);
  }

  lemma AllKeepsAlls(w: World, items: seq<Value>)
    requires Structure(w) && Alls(w) && forall v <- items :: ValueOk(w, v)
    ensures Alls(All(w, items))
  {
    var a := |w.aggregates|;
    BuildBegins(w, items);
    BuildLoops(AllBegin(w, items), a, 0);
    var w1 := AllLoop(AllBegin(w, items), a, 0);
    if w1.aggregates[a].remaining == 0 { BuildFulfils(w1, a); } else { BuildEnds(w1, a); }
  }

  // ---------------------------------------------------------------- every step

  lemma FinishElsewhere(w: World, s: nat, c: Call, v: Value, ok: bool)
    requires Structure(w) && Alls(w) && s < |w.subscribers| && ValueOk(w, v)
    requires Uncombined(w, w.subscribers[s].derived)
    requires w.control.Flushing? ==> w.control.call == InCallback(s)
    ensures Alls(Finish(w, s, c, v, ok))
  {
    assert SubscriberOk(w, w.subscribers[s]);
    RecordElsewhere(w, w.subscribers[s].derived, c);
    ResumeElsewhere(RecordCall(w, w.subscribers[s].derived, c), s, v, ok);
  }

  lemma DerivedUncombined(w: World, s: nat)
    requires InvBut(w, None, None) && s < |w.subscribers|
    ensures Uncombined(w, w.subscribers[s].derived)
  {
    assert DerivedOrigin(w.subscribers[s], w.history.trails);
  }

  lemma BeginKeepsAlls(w: World)
    requires InvBut(w, None, None) && Alls(w) && Enabled(w, CallbackBegins)
    ensures Alls(BeginCallback(w))
  {
    WorkIsNew(w);
    var s := w.control.work[0];
    var sub, q := w.subscribers[s], w.subscribers[s].owner;
    assert SlotInv(w, s) && SubscriberOk(w, sub);
    if sub.onFulfil.StoreResult? {
      if w.promises[q].phase == Fulfilled {
        DeliverEntry(w, sub.onFulfil.a, sub.onFulfil.i);
      } else {
        RejectEntry(w, sub.onFulfil.a, sub.onFulfil.i);
      }
    } else {
      TakeElsewhere(w);
      TakeWorkKeeps(w);
      DerivedUncombined(w, s);
      DispatchElsewhere(TakeWork(w), s);
    }
  }

  lemma DispatchElsewhere(w: World, s: nat)
    requires Structure(w) && Alls(w) && s < |w.subscribers| && Uncombined(w, w.subscribers[s].derived)
    requires !w.subscribers[s].onFulfil.StoreResult? && !w.subscribers[s].onReject.StoreResult?
    requires !w.subscribers[s].onFulfil.RejectTarget?
    requires w.control.Flushing? && w.control.call == InCallback(s)
    ensures Alls(Dispatch(w, s))
  {
    assert SlotInv(w, s) && SubscriberOk(w, w.subscribers[s]);
    var v, d := OwnerData(w, s), w.subscribers[s].derived;
    match Slot(w, s)
    case Absent =>
      var ok := w.promises[w.subscribers[s].owner].phase != Rejected;
      FinishElsewhere(w, s, ConclusionCall(w, d, v, ok), v, ok);
    case User(f) => EnterElsewhere(w, s, f, v);
    case AdoptFulfil(l) => LatchElsewhere(w, l, v);
    case AdoptReject(l) => LatchElsewhere(w, l, v);
  }

  lemma EndKeepsAlls(w: World, o: Outcome)
    requires InvBut(w, None, None) && Alls(w) && Enabled(w, CallbackEnds(o))
    ensures Alls(EndCallback(w, w.control.call.s, o))
  {
    var s := w.control.call.s;
    var d := w.subscribers[s].derived;
    assert SubscriberOk(w, w.subscribers[s]);
    DerivedUncombined(w, s);
    match o
    case Returned(v) => FinishElsewhere(w, s, ConclusionCall(w, d, v, true), v, true);
    case Thrown(e) =>
      CallElsewhere(w, d, e);
      CallKeeps(w, d, e);
      var w1 := CallReject(w, d, e);
      SettleResolves(RecordCall(w, d, RejectCall(e)), d, e, false);
      ResumeElsewhere(w1, s, OwnerData(w, s), true);
  }

  lemma LoopKeepsAlls(w: World, e: Event)
    requires Structure(w) && Alls(w) && Enabled(w, e) && LoopEvent(e)
    ensures Alls(Apply(w, e))
  {
    LoopEventSteps(w, e);
    StepAdvances(w, e);
    QuietStep(w, Apply(w, e));
  }

  lemma StepKeepsAlls(w: World, e: Event)
    requires InvBut(w, None, None) && Alls(w) && Enabled(w, e)
    ensures Alls(Apply(w, e))
  {
    hide PhasesOf, PlacesOf, Schedule, Fifo, ControlInv, LatchesInv, AdoptersInv, CombinedsInv, DerivedsBut,
      TokensBut, FatesBut, AllsBut, SlotsInv, LatchTargets;
    match e
    case New => AllocateElsewhere(w, Constructed);
    case DoResolve(p, v) => CallElsewhere(w, p, v);
    case DoReject(p, r) => CallElsewhere(w, p, r);
    case DoThen(p, f, r) => SubscribeElsewhere(w, p, f, r);
    case DoAll(items) => AllKeepsAlls(w, items);
    case ThenableResolves(l, v) => LatchElsewhere(w, l, v);
    case ThenableRejects(l, r) => LatchElsewhere(w, l, r);
    case ThenableThrows(l, x) => LatchElsewhere(w, l, x);
    case CallbackBegins => BeginKeepsAlls(w);
    case CallbackEnds(o) => EndKeepsAlls(w, o);
    case _ => LoopKeepsAlls(w, e);
  }

  lemma {:induction false} ExecKeepsAlls(w: World, es: seq<Event>)
    requires InvBut(w, None, None) && Alls(w)
    ensures Exec(w, es).Some? ==> Alls(Exec(w, es).value)
    decreases |es|
  {
    if es != [] && Enabled(w, es[0]) {
      StepKeepsFates(w, es[0]);
      StepKeepsAlls(w, es[0]);
      ExecKeepsAlls(Apply(w, es[0]), es[1..]);
    }
  }

  lemma EmptyAlls()
    ensures InvBut(EMPTY_WORLD, None, None) && Alls(EMPTY_WORLD)
  {
    hide InvBut, WF;
    EmptyFates();
  }

  lemma ReachableAlls(w: World)
    requires Reachable(w)
    ensures Alls(w)
  {
    hide InvBut, Alls;
    var es :| Exec(EMPTY_WORLD, es) == Some(w);
    EmptyAlls();
    ExecKeepsAlls(EMPTY_WORLD, es);
  }

  // ---------------------------------------------------------------- what P.all promises

  ghost predicate Outstanding(w: World, g: Aggregate, i: nat) {
    && i < |g.items| && g.items[i].PromiseRef? && i < |g.slots| && g.slots[i].Some?
    && !Delivered(w, g.slots[i].value)
  }

  /**
    At all times: the counter is the number of promise entries not delivered, and results hold the delivered
    values.
  */
  lemma AllCounts(w: World, a: nat, i: nat)
    requires Reachable(w) && a < |w.aggregates| && i < |w.aggregates[a].items|
    ensures var g := w.aggregates[a];
      && |g.results| == |g.items|
      && g.remaining == CountTrue(Flags(w, g, |g.items|))
      && (!g.items[i].PromiseRef? ==> g.results[i] == Some(g.items[i]))
      && (g.items[i].PromiseRef? ==>
            && g.items[i].p < |w.promises| && (Waiting(w, g, i) <==> Outstanding(w, g, i))
            && g.results[i] == if Outstanding(w, g, i) then None else Some(w.promises[g.items[i].p].data))
  {
    ReachableAlls(w);
    assert AggregateInv(w, a);
    assert EntryInv(w, a, w.aggregates[a], i);
  }

  ghost predicate EntryPhase(w: World, v: Value, phase: Phase) {
    v.PromiseRef? && v.p < |w.promises| && w.promises[v.p].phase == phase
  }

  /** When all is quiet, an entry counts as delivered exactly when its promise is fulfilled. */
  lemma QuietEntry(w: World, a: nat, i: nat)
    requires Reachable(w) && Quiescent(w) && a < |w.aggregates| && i < |w.aggregates[a].items|
    requires w.aggregates[a].items[i].PromiseRef?
    ensures Waiting(w, w.aggregates[a], i) <==> !EntryPhase(w, w.aggregates[a].items[i], Fulfilled)
    ensures (exists k: nat ::
        RejectedAt(w, a, k) && w.subscribers[w.history.log[k]].owner == w.aggregates[a].items[i].p)
      <== EntryPhase(w, w.aggregates[a].items[i], Rejected)
  {
    ReachableAlls(w);
    ReachableStructure(w);
    var g := w.aggregates[a];
    assert AggregateInv(w, a);
    assert EntryInv(w, a, g, i);
    var s := g.slots[i].value;
    QuiescentInvoked(w, s);
    if EntryPhase(w, g.items[i], Rejected) {
      assert multiset(w.history.log)[s] == 1;
      var k: nat :| k < |w.history.log| && w.history.log[k] == s;
      assert RejectedAt(w, a, k);
    }
  }

  lemma {:induction false} CountNone(flags: seq<bool>)
    ensures CountTrue(flags) == 0 <==> forall i :: 0 <= i < |flags| ==> !flags[i]
  {
    if flags != [] {
      var n := |flags| - 1;
      CountNone(flags[..n]);
      assert forall i :: 0 <= i < n ==> flags[..n][i] == flags[i];
    }
  }

  ghost predicate AllEntriesFulfilled(w: World, g: Aggregate) {
    forall i :: 0 <= i < |g.items| && g.items[i].PromiseRef? ==> EntryPhase(w, g.items[i], Fulfilled)
  }

  /** Every index holds its entry's value: the entry itself, or what its promise was fulfilled with. */
  ghost predicate ResultsComplete(w: World, g: Aggregate) {
    && |g.results| == |g.items|
    && (forall i :: 0 <= i < |g.items| && !g.items[i].PromiseRef? ==> g.results[i] == Some(g.items[i]))
    && (forall i :: 0 <= i < |g.items| && g.items[i].PromiseRef? ==>
          g.items[i].p < |w.promises| && g.results[i] == Some(w.promises[g.items[i].p].data))
  }

  /** The combined promise of g is settled with v, fulfilled or rejected as decided says. */
  ghost predicate TargetSettled(w: World, g: Aggregate, v: Value, decided: Phase) {
    && g.target < |w.promises| && g.target < |w.history.trails|
    && SettledAs(w.promises[g.target], w.history.trails[g.target], v, decided)
  }

  /**
    At all times: the combined promise is settled as fulfilled exactly when no entry is outstanding, with every value at
    its own index; as rejected exactly when a rejection has been processed, with the data of the first; else pending.
  */
  lemma AllOutcome(w: World, a: nat)
    requires Reachable(w) && a < |w.aggregates|
    ensures var g := w.aggregates[a];
      && g.target < |w.promises|
      && (TargetSettled(w, g, ResultArray(a), Fulfilled) <==> g.remaining == 0)
      && (g.remaining == 0 ==> ResultsComplete(w, g))
      && (forall k: nat :: FirstRejected(w, a, k) ==>
            TargetSettled(w, g, w.promises[w.subscribers[w.history.log[k]].owner].data, Rejected))
      && (w.promises[g.target].phase == Pending <==>
            g.remaining != 0 && !exists k: nat :: FirstRejected(w, a, k))
  {
    hide PlacesOf, Schedule, Fifo, ControlInv, EntriesInv, RejectedAt, FirstRejected;
    ReachableAlls(w);
    ReachableStructure(w);
    assert AggregateInv(w, a);
    var g := w.aggregates[a];
    PendingUndecided(w, g.target);
    FirstOrNone(w, a);
    if g.remaining == 0 { AllDelivered(w, a); }
  }

  /** Among the rejections processed there is a first. */
  lemma {:induction false} LeastRejected(w: World, a: nat, k: nat)
    requires RejectedAt(w, a, k)
    ensures exists j: nat :: FirstRejected(w, a, j)
  {
    if j: nat :| j < k && RejectedAt(w, a, j) {
      LeastRejected(w, a, j);
    } else {
      assert FirstRejected(w, a, k);
    }
  }

  lemma FirstOrNone(w: World, a: nat)
    ensures (exists k: nat :: RejectedAt(w, a, k)) <==> exists k: nat :: FirstRejected(w, a, k)
  {
    if k: nat :| RejectedAt(w, a, k) { LeastRejected(w, a, k); }
  }

  /** With nothing outstanding, every result is there. */
  lemma AllDelivered(w: World, a: nat)
    requires Reachable(w) && a < |w.aggregates| && w.aggregates[a].remaining == 0
    ensures ResultsComplete(w, w.aggregates[a])
  {
    hide Reachable, Outstanding, Waiting;
    var g := w.aggregates[a];
    NoItems(w, a);
    CountNone(Flags(w, g, |g.items|));
    forall i | 0 <= i < |g.items|
      ensures !g.items[i].PromiseRef? ==> g.results[i] == Some(g.items[i])
      ensures g.items[i].PromiseRef? ==>
        g.items[i].p < |w.promises| && g.results[i] == Some(w.promises[g.items[i].p].data)
    {
      AllCounts(w, a, i);
      assert !Flags(w, g, |g.items|)[i];
    }
  }

  lemma NoItems(w: World, a: nat)
    requires Reachable(w) && a < |w.aggregates|
    ensures |w.aggregates[a].results| == |w.aggregates[a].items|
  {
    ReachableStructure(w);
    PartsOk(w);
    assert AggregateOk(w, w.aggregates[a]);
  }

  /**
    When all is quiet, the combined promise is fulfilled, with every value at its own index, exactly when all
    entries are; it is rejected exactly when some entry is, with the data of the first rejection processed;
    and otherwise it is pending.
  */
  lemma AllSettles(w: World, a: nat)
    requires Reachable(w) && Quiescent(w) && a < |w.aggregates|
    ensures w.aggregates[a].target < |w.promises|
    ensures w.promises[w.aggregates[a].target].phase == Fulfilled <==> AllEntriesFulfilled(w, w.aggregates[a])
    ensures AllEntriesFulfilled(w, w.aggregates[a]) ==>
      w.promises[w.aggregates[a].target].data == ResultArray(a) && ResultsComplete(w, w.aggregates[a])
    ensures w.promises[w.aggregates[a].target].phase == Rejected <==>
      exists i :: 0 <= i < |w.aggregates[a].items| && EntryPhase(w, w.aggregates[a].items[i], Rejected)
    ensures w.promises[w.aggregates[a].target].phase == Rejected ==> exists k: nat :: FirstRejected(w, a, k)
    ensures forall k: nat :: FirstRejected(w, a, k) ==>
      w.promises[w.aggregates[a].target].data == w.promises[w.subscribers[w.history.log[k]].owner].data
  {
    ReachableAlls(w);
    ReachableStructure(w);
    assert AggregateInv(w, a);
    var g := w.aggregates[a];
    var n := |g.items|;
    OnePublish(w, g.target);
    PendingUndecided(w, g.target);
    if Final(w.promises[g.target].phase) { DecidedIsPhase(w, g.target); }
    CountNone(Flags(w, g, n));
    forall i | 0 <= i < n
      ensures g.items[i].PromiseRef? ==> (Flags(w, g, n)[i] <==> !EntryPhase(w, g.items[i], Fulfilled))
      ensures !g.items[i].PromiseRef? ==> !Flags(w, g, n)[i]
      ensures EntryInv(w, a, g, i)
      ensures EntryPhase(w, g.items[i], Rejected) ==> exists k: nat :: RejectedAt(w, a, k)
    {
      assert EntryInv(w, a, g, i);
      if g.items[i].PromiseRef? { QuietEntry(w, a, i); }
    }
    if k: nat :| RejectedAt(w, a, k) {
      RejectedIsEntry(w, a, k);
      LeastRejected(w, a, k);
    }
  }

  lemma RejectedIsEntry(w: World, a: nat, k: nat)
    requires Alls(w) && a < |w.aggregates| && RejectedAt(w, a, k)
    ensures exists i :: 0 <= i < |w.aggregates[a].items| && EntryPhase(w, w.aggregates[a].items[i], Rejected)
  {
    var s := w.history.log[k];
    assert SlotInv(w, s) && AggregateInv(w, a);
    var i := w.subscribers[s].onFulfil.i;
    assert EntryInv(w, a, w.aggregates[a], i);
    assert EntryPhase(w, w.aggregates[a].items[i], Rejected);
  }
}
