/**
  How a promise's outcome follows from the calls of its own resolver functions: directly,
  by adopting another promise, or by taking over a callback's result.
*/
module PromiseFates {
  import opened Basics
  import opened PromiseWorld
  import opened PromiseStructure

  // ---------------------------------------------------------------- the invariant

  ghost predicate Closed(latches: seq<Latch>, l: nat) { l < |latches| && latches[l].closed }

  /** Latches come from thenables, and only for promises whose resolver has been called. */
  ghost predicate LatchInv(latch: Latch, trails: seq<Trail>) {
    && (latch.source.Thenable? || latch.source.PromiseRef?)
    && latch.target < |trails| && trails[latch.target].calls != []
  }

  /** A subscriber made by handleThenable holds both closures of one latch, which its invocation closes. */
  ghost predicate AdopterInv(s: nat, sub: Subscriber, latches: seq<Latch>, log: seq<nat>) {
    && (sub.onFulfil.AdoptFulfil? <==> sub.onReject.AdoptReject?)
    && (sub.onFulfil.AdoptFulfil? ==>
          && sub.onReject.l == sub.onFulfil.l < |latches|
          && latches[sub.onFulfil.l].source == PromiseRef(sub.owner)
          && (Closed(latches, sub.onFulfil.l) <==> s in log))
    && !sub.onFulfil.AdoptReject? && !sub.onReject.AdoptFulfil?
  }

  ghost predicate AdoptersUnique(subscribers: seq<Subscriber>) {
    forall s, t :: 0 <= s < t < |subscribers| && subscribers[s].onFulfil.AdoptFulfil?
      ==> subscribers[s].onFulfil != subscribers[t].onFulfil
  }

  /** The slots P.all fills name a combined promise. */
  ghost predicate CombinedInv(sub: Subscriber, trails: seq<Trail>, aggregates: seq<Aggregate>) {
    && (sub.onFulfil.StoreResult? ==> AggregateOrigin(sub.onFulfil.a, trails, aggregates))
    && (sub.onReject.RejectTarget? ==>
          sub.onReject.target < |trails| && trails[sub.onReject.target].origin.Combined?)
    && !sub.onFulfil.RejectTarget? && !sub.onReject.StoreResult?
  }

  ghost predicate AggregateOrigin(a: nat, trails: seq<Trail>, aggregates: seq<Aggregate>) {
    && a < |aggregates| && aggregates[a].target < |trails|
    && trails[aggregates[a].target].origin == Combined(a)
  }

  /** A derived promise is settled by its own subscriber's invocation, and by that alone. */
  ghost predicate DerivedInv(s: nat, sub: Subscriber, trails: seq<Trail>, log: seq<nat>, c: Control) {
    && sub.derived < |trails|
    && |trails[sub.derived].calls| == (if s in log && !InCallbackOf(c, s) then 1 else 0)
  }

  ghost predicate DerivedOrigin(sub: Subscriber, trails: seq<Trail>) {
    sub.derived < |trails| && trails[sub.derived].origin == Derived
  }

  ghost predicate InCallbackOf(c: Control, s: nat) { c.Flushing? && c.call == InCallback(s) }

  ghost predicate DerivedIncreasing(subscribers: seq<Subscriber>) {
    forall s, t :: 0 <= s < t < |subscribers| ==> subscribers[s].derived < subscribers[t].derived
  }

  ghost predicate OpenFor(latches: seq<Latch>, l: nat, p: nat) {
    l < |latches| && latches[l].target == p && !latches[l].closed
  }

  ghost predicate OneOpen(latches: seq<Latch>, p: nat) {
    forall k, l :: 0 <= k < l < |latches| ==> !(OpenFor(latches, k, p) && OpenFor(latches, l, p))
  }

  ghost predicate NoneOpen(latches: seq<Latch>, p: nat) {
    forall l :: 0 <= l < |latches| ==> !OpenFor(latches, l, p)
  }

  /** Before the first call nothing can settle p; after a single call at most one open latch can. */
  ghost predicate TokenInv(p: nat, rec: Promise, trail: Trail, latches: seq<Latch>) {
    && (trail.calls == [] ==> rec.phase == Pending)
    && (|trail.calls| == 1 ==> OneOpen(latches, p))
  }

  ghost predicate SettledAs(rec: Promise, trail: Trail, v: Value, decided: Phase) {
    rec.phase != Pending && rec.data == v && trail.decided == decided
  }

  /** The outcome (rec, trail) of q passes to the adopting promise p unchanged: there is nothing left to adopt. */
  ghost predicate Transparent(p: nat, q: nat, rec: Promise, trail: Trail) {
    trail.decided == Rejected || !IsThenable(rec.data) || rec.data == PromiseRef(q) || rec.data == PromiseRef(p)
  }

  /** p was resolved with q: subscriber s waits for q, and has carried q's outcome over once invoked. */
  ghost predicate LinkInv(w: World, p: nat, q: nat, s: nat) {
    && |w.history.trails| == |w.promises|
    && p < |w.promises| && q < |w.promises|
    && s < |w.subscribers| && w.subscribers[s].owner == q && w.subscribers[s].onFulfil.AdoptFulfil?
    && w.subscribers[s].onFulfil.l < |w.latches|
    && w.latches[w.subscribers[s].onFulfil.l].target == p
    && (s !in w.history.log ==> w.promises[p].phase == Pending)
    && (s in w.history.log && Transparent(p, q, w.promises[q], w.history.trails[q]) ==>
          SettledAs(w.promises[p], w.history.trails[p], w.promises[q].data, w.history.trails[q].decided))
  }

  /** What a promise whose resolver functions were called exactly once has become. */
  ghost predicate FateInv(w: World, p: nat) {
    && |w.history.trails| == |w.promises|
    && p < |w.promises|
    && (|w.history.trails[p].calls| == 1 ==>
          match w.history.trails[p].calls[0]
          case RejectCall(r) => SettledAs(w.promises[p], w.history.trails[p], r, Rejected)
          case ResolveCall(v, s) =>
            if v == PromiseRef(p) || !IsThenable(v)
            then SettledAs(w.promises[p], w.history.trails[p], v, Fulfilled)
            else v.PromiseRef? ==> LinkInv(w, p, v.p, s))
  }

  ghost predicate LatchesInv(w: World) {
    forall l :: 0 <= l < |w.latches| ==> LatchInv(w.latches[l], w.history.trails)
  }

  ghost predicate AdoptersInv(w: World) {
    && AdoptersUnique(w.subscribers)
    && forall s :: 0 <= s < |w.subscribers| ==> AdopterInv(s, w.subscribers[s], w.latches, w.history.log)
  }

  ghost predicate CombinedsInv(w: World) {
    && (forall a :: 0 <= a < |w.aggregates| ==> AggregateOrigin(a, w.history.trails, w.aggregates))
    && (forall s :: 0 <= s < |w.subscribers| ==> CombinedInv(w.subscribers[s], w.history.trails, w.aggregates))
  }

  /** x (here and below): a subscriber or promise whose own part is being worked on and is not claimed. */
  ghost predicate DerivedsBut(w: World, x: Option<nat>) {
    && DerivedIncreasing(w.subscribers)
    && (forall s :: 0 <= s < |w.subscribers| ==> DerivedOrigin(w.subscribers[s], w.history.trails))
    && forall s :: 0 <= s < |w.subscribers| && Some(s) != x ==>
         DerivedInv(s, w.subscribers[s], w.history.trails, w.history.log, w.control)
  }

  ghost predicate TokensBut(w: World, x: Option<nat>) {
    && |w.history.trails| == |w.promises|
    && forall p :: 0 <= p < |w.promises| && Some(p) != x ==> TokenInv(p, w.promises[p], w.history.trails[p], w.latches)
  }

  ghost predicate FatesBut(w: World, x: Option<nat>) {
    forall p :: 0 <= p < |w.promises| && Some(p) != x ==> FateInv(w, p)
  }

  ghost predicate Links(w: World) { LatchesInv(w) && AdoptersInv(w) && CombinedsInv(w) }

  ghost predicate Settlements(w: World, s: Option<nat>, x: Option<nat>) {
    DerivedsBut(w, s) && TokensBut(w, x) && FatesBut(w, x)
  }

  // ---------------------------------------------------------------- resolving one promise

  ghost predicate PromiseAdvances(rec: Promise, rec': Promise, t: Trail, t': Trail) {
    && t'.calls == t.calls && t'.origin == t.origin
    && (rec.phase != Pending ==>
          && rec'.phase != Pending && rec'.data == rec.data && t'.decided == t.decided
          && (Final(rec.phase) ==> rec'.phase == rec.phase))
  }

  ghost predicate SameOutcome(rec: Promise, rec': Promise, t: Trail, t': Trail) {
    rec'.phase == rec.phase && rec'.data == rec.data && t' == t
  }

  ghost predicate FreshPromise(rec: Promise, t: Trail) {
    rec.phase == Pending && t.calls == [] && t.decided == Pending
  }

  /** From w to w' no promise but x was settled; promises, subscribers and latches for x may be new. */
  ghost predicate Resolves(w: World, w': World, x: nat) {
    && |w.history.trails| == |w.promises| <= |w'.promises| == |w'.history.trails|
    && w.subscribers <= w'.subscribers && w'.history.log == w.history.log && w'.control == w.control
    && w'.history.entered == w.history.entered
    && (forall p :: |w.promises| <= p < |w'.promises| ==> FreshPromise(w'.promises[p], w'.history.trails[p]))
    && (forall p :: 0 <= p < |w.promises| && p != x ==>
          SameOutcome(w.promises[p], w'.promises[p], w.history.trails[p], w'.history.trails[p]))
    && (x < |w.promises| ==> PromiseAdvances(w.promises[x], w'.promises[x], w.history.trails[x], w'.history.trails[x]))
    && w.latches <= w'.latches
    && (forall l :: |w.latches| <= l < |w'.latches| ==> w'.latches[l].target == x)
  }

  ghost predicate AdoptsPromise(w: World, w': World, q: nat) {
    && |w'.promises| == |w'.history.trails| == |w.promises| + 1
    && w'.history.trails[|w.promises|] == Trail(Derived, [], Pending)
    && w'.subscribers ==
         w.subscribers + [Subscriber(q, |w.promises|, AdoptFulfil(|w.latches|), AdoptReject(|w.latches|))]
  }

  /** What handleThenable adds for promise x: nothing, a latch, or a latch and the subscriber holding it. */
  ghost predicate Adopts(w: World, w': World, x: nat, v: Value) {
    && w'.aggregates == w.aggregates
    && if IsThenable(v) && v != PromiseRef(x) then
         && w'.latches == w.latches + [Latch(x, v, false)]
         && (v.Thenable? ==> w'.subscribers == w.subscribers && |w'.promises| == |w.promises|)
         && (v.PromiseRef? ==> AdoptsPromise(w, w', v.p))
       else
         w'.latches == w.latches && w'.subscribers == w.subscribers && |w'.promises| == |w.promises|
  }

  lemma SettleResolves(w: World, x: nat, v: Value, ok: bool)
    requires WF(w) && x < |w.promises| && ValueOk(w, v)
    ensures var w' := Settle(w, x, v, ok);
      && Resolves(w, w', x) && Adopts(w, w', x, Undefined)
      && (if w.promises[x].phase == Pending
          then SettledAs(w'.promises[x], w'.history.trails[x], v, if ok then Fulfilled else Rejected)
          else w' == w)
  {
  }

  lemma SubscribeResolves(w: World, q: nat, f: Callback, r: Callback, x: nat)
    requires WF(w) && q < |w.promises| && CallbackOk(w, f) && CallbackOk(w, r)
    ensures var w' := Subscribe(w, q, f, r);
      && Resolves(w, w', x) && |w'.promises| == |w.promises| + 1
      && w'.latches == w.latches && w'.aggregates == w.aggregates
      && w'.subscribers ==
         w.subscribers + [Subscriber(q, |w.promises|, f, r)]
      && w'.history.trails == w.history.trails + [Trail(Derived, [], Pending)]
      && (x < |w.promises| ==> SameOutcome(w.promises[x], w'.promises[x], w.history.trails[x], w'.history.trails[x]))
  {
  }

  lemma OpenResolves(w: World, x: nat, v: Value)
    requires WF(w) && x < |w.promises| && ValueOk(w, v)
    ensures Resolves(w, OpenLatch(w, x, v), x)
  {
  }

  lemma FollowResolves(w: World, x: nat, q: nat)
    requires WF(w) && x < |w.promises| && q < |w.promises| && q != x
    ensures var w' := HandleThenable(w, x, PromiseRef(q));
      && Resolves(w, w', x) && Adopts(w, w', x, PromiseRef(q))
      && SameOutcome(w.promises[x], w'.promises[x], w.history.trails[x], w'.history.trails[x])
  {
    hide WF, Subscribe;
    SubscribeResolves(OpenLatch(w, x, PromiseRef(q)), q, AdoptFulfil(|w.latches|), AdoptReject(|w.latches|), x);
  }

  lemma HandleResolves(w: World, x: nat, v: Value)
    requires WF(w) && x < |w.promises| && ValueOk(w, v)
    ensures var w' := HandleThenable(w, x, v);
      && Resolves(w, w', x) && Adopts(w, w', x, v)
      && (IsThenable(v) && v != PromiseRef(x) ==>
            SameOutcome(w.promises[x], w'.promises[x], w.history.trails[x], w'.history.trails[x]))
      && (v == PromiseRef(x) && w.promises[x].phase == Pending ==>
            SettledAs(w'.promises[x], w'.history.trails[x], CycleError, Rejected))
  {
    match v
    case PromiseRef(q) => if q == x { SettleResolves(w, x, CycleError, false); } else { FollowResolves(w, x, q); }
    case Thenable(_) => OpenResolves(w, x, v);
    case _ =>
  }

  /** resolve settles x with a plain value or with itself, and otherwise starts an adoption. */
  lemma ResolveResolves(w: World, x: nat, v: Value)
    requires WF(w) && x < |w.promises| && ValueOk(w, v)
    ensures var w' := Resolve(w, x, v);
      && Resolves(w, w', x) && Adopts(w, w', x, v)
      && (IsThenable(v) && v != PromiseRef(x) ==>
            SameOutcome(w.promises[x], w'.promises[x], w.history.trails[x], w'.history.trails[x]))
      && (!(IsThenable(v) && v != PromiseRef(x)) && w.promises[x].phase == Pending ==>
            SettledAs(w'.promises[x], w'.history.trails[x], v, Fulfilled))
  {
    SettleResolves(w, x, v, true);
    HandleResolves(w, x, v);
  }

  // ---------------------------------------------------------------- the other promises

  /** Nothing but x's own part of the invariant is at stake when x is being resolved. */
  lemma OthersKeep(w: World, w': World, x: nat)
    requires Structure(w) && Resolves(w, w', x)
    requires TokensBut(w, Some(x)) && FatesBut(w, Some(x))
    ensures TokensBut(w', Some(x)) && FatesBut(w', Some(x))
  {
    forall p | 0 <= p < |w'.promises| && p != x
      ensures TokenInv(p, w'.promises[p], w'.history.trails[p], w'.latches) && FateInv(w', p)
    {
      if p < |w.promises| {
        assert TokenInv(p, w.promises[p], w.history.trails[p], w.latches) && FateInv(w, p);
        assert SameOutcome(w.promises[p], w'.promises[p], w.history.trails[p], w'.history.trails[p]);
        OpenElsewhere(w, w', x, p);
        FateFrame(w, w', x, p);
      }
    }
  }

  lemma OpenElsewhere(w: World, w': World, x: nat, p: nat)
    requires Resolves(w, w', x) && p != x
    ensures OneOpen(w.latches, p) ==> OneOpen(w'.latches, p)
  {
    forall l | 0 <= l < |w'.latches| ensures OpenFor(w'.latches, l, p) ==> OpenFor(w.latches, l, p) { }
  }

  /** The owner of an invoked subscriber is final. */
  lemma InvokedOwner(w: World, s: nat)
    requires Structure(w) && s in w.history.log
    ensures s < |w.subscribers| && FinalAt(w.promises, w.subscribers[s].owner)
  {
    var i :| 0 <= i < |w.history.log| && w.history.log[i] == s;
    assert Line(w)[i] == s;
  }

  /** The claim about a promise survives every resolution that leaves the promise's own outcome alone. */
  lemma FateFrame(w: World, w': World, x: nat, p: nat)
    requires Structure(w) && Resolves(w, w', x) && p < |w.promises|
    requires SameOutcome(w.promises[p], w'.promises[p], w.history.trails[p], w'.history.trails[p])
    requires FateInv(w, p)
    ensures FateInv(w', p)
  {
    if |w.history.trails[p].calls| == 1 && w.history.trails[p].calls[0].ResolveCall? {
      var v, s := w.history.trails[p].calls[0].v, w.history.trails[p].calls[0].adopter;
      if v.PromiseRef? && v.p != p {
        LinkFrame(w, w', x, p, v.p, s);
      }
    }
  }

  lemma LinkFrame(w: World, w': World, x: nat, p: nat, q: nat, s: nat)
    requires Structure(w) && Resolves(w, w', x) && LinkInv(w, p, q, s)
    requires w'.promises[p].phase == w.promises[p].phase && w'.promises[p].data == w.promises[p].data
    requires w'.history.trails[p] == w.history.trails[p]
    ensures LinkInv(w', p, q, s)
  {
    assert w'.subscribers[s] == w.subscribers[s];
    var l := w.subscribers[s].onFulfil.l;
    assert w'.latches[l] == w.latches[l];
    if s in w.history.log {
      InvokedOwner(w, s);
      if q != x {
        assert SameOutcome(w.promises[q], w'.promises[q], w.history.trails[q], w'.history.trails[q]);
      }
    }
  }

  // ---------------------------------------------------------------- links

  /** Adoption adds only well-formed latches and subscribers. */
  lemma LinksAdopt(w: World, w': World, x: nat, v: Value)
    requires Structure(w) && Links(w) && Resolves(w, w', x) && Adopts(w, w', x, v)
    requires x < |w.promises| && w.history.trails[x].calls != []
    ensures Links(w')
  {
    TrailsGrow(w, w', x);
    forall l | 0 <= l < |w'.latches| ensures LatchInv(w'.latches[l], w'.history.trails) {
      if l < |w.latches| { assert LatchInv(w.latches[l], w.history.trails); }
    }
    AdoptersAdopt(w, w', x, v);
    forall a | 0 <= a < |w'.aggregates| ensures AggregateOrigin(a, w'.history.trails, w'.aggregates) {
      assert AggregateOrigin(a, w.history.trails, w.aggregates);
    }
    forall s | 0 <= s < |w'.subscribers| ensures CombinedInv(w'.subscribers[s], w'.history.trails, w'.aggregates) {
      if s < |w.subscribers| { assert CombinedInv(w.subscribers[s], w.history.trails, w.aggregates); }
    }
  }

  lemma TrailsGrow(w: World, w': World, x: nat)
    requires Resolves(w, w', x)
    ensures forall p :: 0 <= p < |w.history.trails| ==>
      && w'.history.trails[p].origin == w.history.trails[p].origin
      && w'.history.trails[p].calls == w.history.trails[p].calls
  {
    forall p | 0 <= p < |w.history.trails|
      ensures w'.history.trails[p].origin == w.history.trails[p].origin
      ensures w'.history.trails[p].calls == w.history.trails[p].calls
    {
      if p != x {
        assert SameOutcome(w.promises[p], w'.promises[p], w.history.trails[p], w'.history.trails[p]);
      }
    }
  }

  lemma LogInRange(w: World, s: nat)
    requires Structure(w) && s in w.history.log
    ensures s < |w.subscribers|
  {
    InvokedOwner(w, s);
  }

  lemma AdoptersAdopt(w: World, w': World, x: nat, v: Value)
    requires Structure(w) && AdoptersInv(w) && Resolves(w, w', x) && Adopts(w, w', x, v)
    ensures AdoptersInv(w')
  {
    forall s | 0 <= s < |w'.subscribers|
      ensures AdopterInv(s, w'.subscribers[s], w'.latches, w'.history.log)
    {
      if s < |w.subscribers| {
        assert AdopterInv(s, w.subscribers[s], w.latches, w.history.log);
      } else if s in w.history.log {
        LogInRange(w, s);
        assert false;
      }
    }
    forall s, t | 0 <= s < t < |w'.subscribers| && w'.subscribers[s].onFulfil.AdoptFulfil?
      ensures w'.subscribers[s].onFulfil != w'.subscribers[t].onFulfil
    {
      assert AdopterInv(s, w.subscribers[s], w.latches, w.history.log);
    }
  }

  lemma DerivedsAdopt(w: World, w': World, x: nat, v: Value, so: Option<nat>)
    requires Structure(w) && DerivedsBut(w, so) && Resolves(w, w', x) && Adopts(w, w', x, v)
    ensures DerivedsBut(w', so)
  {
    TrailsGrow(w, w', x);
    DerivedsFrame(w, w', so);
  }

  /** The derived promises' part survives whatever adds at most one subscriber with a fresh derived promise. */
  lemma DerivedsFrame(w: World, w': World, so: Option<nat>)
    requires Structure(w) && DerivedsBut(w, so)
    requires |w.history.trails| <= |w'.history.trails|
    requires forall p :: 0 <= p < |w.history.trails| ==>
      && w'.history.trails[p].origin == w.history.trails[p].origin
      && w'.history.trails[p].calls == w.history.trails[p].calls
    requires w'.history.log == w.history.log && w'.control == w.control
    requires w.subscribers == w'.subscribers ||
      (exists sub :: w'.subscribers == w.subscribers + [sub] && sub.derived == |w.promises| &&
         |w.promises| < |w'.history.trails| && w'.history.trails[|w.promises|] == Trail(Derived, [], Pending))
    ensures DerivedsBut(w', so)
  {
    forall s | 0 <= s < |w'.subscribers| && Some(s) != so
      ensures DerivedInv(s, w'.subscribers[s], w'.history.trails, w'.history.log, w'.control)
    {
      if s < |w.subscribers| {
        assert DerivedInv(s, w.subscribers[s], w.history.trails, w.history.log, w.control);
      } else if s in w.history.log {
        LogInRange(w, s);
        assert false;
      }
    }
    forall s | 0 <= s < |w'.subscribers| ensures DerivedOrigin(w'.subscribers[s], w'.history.trails) {
      if s < |w.subscribers| { assert DerivedOrigin(w.subscribers[s], w.history.trails); }
    }
    forall s, t | 0 <= s < t < |w'.subscribers| ensures w'.subscribers[s].derived < w'.subscribers[t].derived {
      assert DerivedOrigin(w.subscribers[s], w.history.trails);
    }
  }

  // ---------------------------------------------------------------- calls of a promise's own resolvers

  /** Everything but promise x and, if given, subscriber so. */
  ghost predicate InvBut(w: World, so: Option<nat>, x: Option<nat>) {
    Structure(w) && Links(w) && Settlements(w, so, x)
  }

  /** What holds of all subscribers and promises holds of all but one. */
  lemma Weaken(w: World, so: Option<nat>, x: Option<nat>)
    requires InvBut(w, None, None)
    ensures InvBut(w, so, x)
  {
  }

  lemma Pick(w: World, so: Option<nat>, x: nat)
    requires InvBut(w, so, None) && x < |w.promises|
    ensures FateInv(w, x) && |w.history.trails| == |w.promises|
    ensures TokenInv(x, w.promises[x], w.history.trails[x], w.latches)
  {
  }

  /** Recording a call leaves every other promise alone. */
  lemma RecordKeeps(w: World, x: nat, c: Call, so: Option<nat>)
    requires InvBut(w, so, None) && x < |w.promises|
    requires w.history.trails[x].origin != Derived ||
      ClaimedBy(w.subscribers, x, so)
    ensures InvBut(RecordCall(w, x, c), so, Some(x))
  {
    hide PhasesOf, PlacesOf, Schedule, Fifo, ControlInv, LatchesInv, AdoptersInv, CombinedsInv, DerivedsBut,
      TokensBut, FatesBut;
    NeutralKeeps(w, RecordCall(w, x, c));
    RecordLinks(w, x, c);
    RecordDeriveds(w, x, c, so);
    RecordOthers(w, x, c);
  }

  lemma RecordOthers(w: World, x: nat, c: Call)
    requires WF(w) && TokensBut(w, None) && FatesBut(w, None) && x < |w.promises|
    ensures TokensBut(RecordCall(w, x, c), Some(x)) && FatesBut(RecordCall(w, x, c), Some(x))
  {
    var w' := RecordCall(w, x, c);
    forall p | 0 <= p < |w'.promises| && p != x
      ensures TokenInv(p, w'.promises[p], w'.history.trails[p], w'.latches) && FateInv(w', p)
    {
      assert TokenInv(p, w.promises[p], w.history.trails[p], w.latches);
      assert FateInv(w, p);
    }
  }

  lemma RecordLinks(w: World, x: nat, c: Call)
    requires WF(w) && Links(w) && x < |w.promises|
    ensures Links(RecordCall(w, x, c))
  {
    var w' := RecordCall(w, x, c);
    forall l | 0 <= l < |w'.latches| ensures LatchInv(w'.latches[l], w'.history.trails) {
      assert LatchInv(w.latches[l], w.history.trails);
    }
    forall a | 0 <= a < |w'.aggregates| ensures AggregateOrigin(a, w'.history.trails, w'.aggregates) {
      assert AggregateOrigin(a, w.history.trails, w.aggregates);
    }
    forall s | 0 <= s < |w'.subscribers| ensures CombinedInv(w'.subscribers[s], w'.history.trails, w'.aggregates) {
      assert CombinedInv(w.subscribers[s], w.history.trails, w.aggregates);
    }
  }

  lemma RecordDeriveds(w: World, x: nat, c: Call, so: Option<nat>)
    requires WF(w) && DerivedsBut(w, so) && x < |w.promises|
    requires w.history.trails[x].origin != Derived || ClaimedBy(w.subscribers, x, so)
    ensures DerivedsBut(RecordCall(w, x, c), so)
  {
    var t := w.history.trails[x].(calls := w.history.trails[x].calls + [c]);
    forall s | 0 <= s < |w.subscribers|
      ensures DerivedOrigin(w.subscribers[s], w.history.trails[x := t])
    {
      assert DerivedOrigin(w.subscribers[s], w.history.trails);
    }
    forall s | 0 <= s < |w.subscribers| && Some(s) != so
      ensures DerivedInv(s, w.subscribers[s], w.history.trails[x := t], w.history.log, w.control)
    {
      assert DerivedInv(s, w.subscribers[s], w.history.trails, w.history.log, w.control);
      DerivedElsewhere(w.subscribers, w.history.trails, x, so, s);
    }
  }

  /** Subscriber so is the one whose derived promise is x. */
  ghost predicate ClaimedBy(subscribers: seq<Subscriber>, x: nat, so: Option<nat>) {
    so.Some? && so.value < |subscribers| && subscribers[so.value].derived == x
  }

  lemma DerivedElsewhere(subscribers: seq<Subscriber>, trails: seq<Trail>, x: nat, so: Option<nat>, s: nat)
    requires DerivedIncreasing(subscribers) && s < |subscribers| && Some(s) != so
    requires DerivedOrigin(subscribers[s], trails) && x < |trails|
    requires trails[x].origin != Derived || ClaimedBy(subscribers, x, so)
    ensures subscribers[s].derived != x
  {
  }

  /** Before its resolvers are called, a promise is pending and no latch aims at it. */
  lemma UncalledIsOpen(w: World, x: nat)
    requires Links(w) && TokensBut(w, None) && x < |w.promises| && w.history.trails[x].calls == []
    ensures w.promises[x].phase == Pending && NoneOpen(w.latches, x)
  {
    assert TokenInv(x, w.promises[x], w.history.trails[x], w.latches);
    forall l | 0 <= l < |w.latches| ensures !OpenFor(w.latches, l, x) {
      assert LatchInv(w.latches[l], w.history.trails);
    }
  }

  /** Putting x's own part back. */
  lemma Complete(w: World, so: Option<nat>, x: nat)
    requires InvBut(w, so, Some(x))
    requires x < |w.promises| ==> TokenInv(x, w.promises[x], w.history.trails[x], w.latches) && FateInv(w, x)
    ensures InvBut(w, so, None)
  {
  }

  /** From w, where only x is unaccounted for, to w', where x has been worked on. */
  lemma StepBut(w: World, w': World, so: Option<nat>, x: nat, v: Value)
    requires InvBut(w, so, Some(x)) && Structure(w') && x < |w.promises| && w.history.trails[x].calls != []
    requires Resolves(w, w', x) && Adopts(w, w', x, v)
    ensures InvBut(w', so, Some(x))
    ensures NoneOpen(w.latches, x) ==> OneOpen(w'.latches, x)
  {
    OthersKeep(w, w', x);
    LinksAdopt(w, w', x, v);
    DerivedsAdopt(w, w', x, v, so);
    forall l | 0 <= l < |w.latches| ensures OpenFor(w'.latches, l, x) ==> OpenFor(w.latches, l, x) { }
  }

  /** The first call of x's resolvers brings x's own part back. */
  lemma FirstCall(w: World, w': World, so: Option<nat>, x: nat, v: Value)
    requires InvBut(w, so, Some(x)) && Structure(w') && x < |w.promises| && |w.history.trails[x].calls| == 1
    requires Resolves(w, w', x) && Adopts(w, w', x, v) && NoneOpen(w.latches, x) && FateInv(w', x)
    ensures InvBut(w', so, None)
    ensures |w'.history.trails[x].calls| == 1 && w.subscribers <= w'.subscribers
    ensures w'.control == w.control && w'.history.log == w.history.log
    ensures |w.promises| <= |w'.promises| && w'.aggregates == w.aggregates
  {
    hide PhasesOf, PlacesOf, Schedule, Fifo, ControlInv, LatchesInv, AdoptersInv, CombinedsInv, DerivedsBut,
      TokensBut, FatesBut, FateInv;
    StepBut(w, w', so, x, v);
    Complete(w', so, x);
  }

  lemma CallResolveKeepsFates(w: World, x: nat, v: Value, so: Option<nat>)
    requires InvBut(w, so, None) && x < |w.promises| && ValueOk(w, v)
    requires w.history.trails[x].origin != Derived ||
      ClaimedBy(w.subscribers, x, so)
    ensures InvBut(CallResolve(w, x, v), so, None)
  {
    hide PhasesOf, PlacesOf, Schedule, Fifo, ControlInv, LatchesInv, AdoptersInv, CombinedsInv, DerivedsBut,
      TokensBut, FatesBut, Adopts, HandleThenable, FateInv;
    var c := ResolveCall(v, |w.subscribers|);
    var w1, w' := RecordCall(w, x, c), CallResolve(w, x, v);
    RecordKeeps(w, x, c, so);
    ResolveKeeps(w1, x, v);
    ResolveResolves(w1, x, v);
    StepBut(w1, w', so, x, v);
    if w.history.trails[x].calls == [] {
      UncalledIsOpen(w, x);
      FirstResolve(w1, x, v);
    }
    Complete(w', so, x);
  }

  /** The first call decides: a plain value at once, a promise by way of the subscriber created for it. */
  lemma FirstResolve(w: World, x: nat, v: Value)
    requires Structure(w) && x < |w.promises| && ValueOk(w, v)
    requires w.history.trails[x].calls == [ResolveCall(v, |w.subscribers|)] && w.promises[x].phase == Pending
    ensures FateInv(Resolve(w, x, v), x)
  {
    hide PhasesOf, PlacesOf, Schedule, Fifo, ControlInv, Resolve;
    ResolveResolves(w, x, v);
    if |w.subscribers| in w.history.log {
      LogInRange(w, |w.subscribers|);
      assert false;
    }
  }

  lemma CallRejectKeepsFates(w: World, x: nat, r: Value, so: Option<nat>)
    requires InvBut(w, so, None) && x < |w.promises| && ValueOk(w, r)
    requires w.history.trails[x].origin != Derived ||
      ClaimedBy(w.subscribers, x, so)
    ensures InvBut(CallReject(w, x, r), so, None)
    ensures CallReject(w, x, r).latches == w.latches
  {
    hide PhasesOf, PlacesOf, Schedule, Fifo, ControlInv, LatchesInv, AdoptersInv, CombinedsInv, DerivedsBut,
      TokensBut, FatesBut, Adopts, HandleThenable;
    var w1, w' := RecordCall(w, x, RejectCall(r)), CallReject(w, x, r);
    RecordKeeps(w, x, RejectCall(r), so);
    SettleKeeps(w1, x, r, false);
    SettleResolves(w1, x, r, false);
    StepBut(w1, w', so, x, Undefined);
    if w.history.trails[x].calls == [] {
      UncalledIsOpen(w, x);
      assert w1.history.trails[x].calls == [RejectCall(r)];
    }
    Complete(w', so, x);
  }

  // ---------------------------------------------------------------- latches of foreign thenables

  /** The subscriber through which x follows another promise, if its only resolver call did that. */
  ghost predicate Follows(w: World, x: nat, s: nat) {
    && x < |w.history.trails| && |w.history.trails[x].calls| == 1 && w.history.trails[x].calls[0].ResolveCall?
    && w.history.trails[x].calls[0].v.PromiseRef? && w.history.trails[x].calls[0].v.p != x
    && w.history.trails[x].calls[0].adopter == s
  }

  ghost predicate FollowsThrough(w: World, x: nat, s: nat, l: nat) {
    && Follows(w, x, s) && s !in w.history.log
    && s < |w.subscribers| && w.subscribers[s].onFulfil == AdoptFulfil(l)
  }

  /** Once carried over, or settled directly, an outcome stays whatever else tries to settle the promise. */
  lemma FateStays(w: World, w': World, x: nat)
    requires Structure(w) && Resolves(w, w', x) && x < |w.promises| && FateInv(w, x)
    requires forall s :: Follows(w, x, s) ==> s in w.history.log
    ensures FateInv(w', x)
  {
    if |w.history.trails[x].calls| == 1 && w.history.trails[x].calls[0].ResolveCall? {
      var v, s := w.history.trails[x].calls[0].v, w.history.trails[x].calls[0].adopter;
      if v.PromiseRef? && v.p != x {
        assert Follows(w, x, s);
        assert LinkInv(w, x, v.p, s);
        assert w'.subscribers[s] == w.subscribers[s];
        assert w'.latches[w.subscribers[s].onFulfil.l] == w.latches[w.subscribers[s].onFulfil.l];
        InvokedOwner(w, s);
        assert SameOutcome(w.promises[v.p], w'.promises[v.p], w.history.trails[v.p], w'.history.trails[v.p]);
      }
    }
  }

  /** A promise still waiting for the one it follows has no other open latch. */
  lemma OnlyLatch(w: World, x: nat, s: nat, l: nat)
    requires Links(w) && TokensBut(w, None) && FatesBut(w, None)
    requires x < |w.promises| && Follows(w, x, s) && s !in w.history.log && OpenFor(w.latches, l, x)
    ensures s < |w.subscribers| && w.subscribers[s].onFulfil == AdoptFulfil(l) && w.latches[l].source.PromiseRef?
  {
    assert FateInv(w, x);
    assert LinkInv(w, x, w.history.trails[x].calls[0].v.p, s);
    assert AdopterInv(s, w.subscribers[s], w.latches, w.history.log);
    assert TokenInv(x, w.promises[x], w.history.trails[x], w.latches);
    assert OpenFor(w.latches, w.subscribers[s].onFulfil.l, x);
  }

  /** No foreign thenable holds an open latch of a promise that still waits for another one. */
  lemma ThenableCannotOvertake(w: World, l: nat)
    requires Links(w) && TokensBut(w, None) && FatesBut(w, None) && |w.history.trails| == |w.promises|
    requires l < |w.latches| && w.latches[l].source.Thenable? && !w.latches[l].closed
    ensures forall s :: Follows(w, w.latches[l].target, s) ==> s in w.history.log
  {
    var x := w.latches[l].target;
    assert LatchInv(w.latches[l], w.history.trails);
    forall s: nat | Follows(w, x, s) ensures s in w.history.log {
      if s !in w.history.log {
        OnlyLatch(w, x, s, l);
        assert false;
      }
    }
  }

  lemma CloseThenable(w: World, l: nat)
    requires InvBut(w, None, None) && l < |w.latches| && w.latches[l].source.Thenable? && !w.latches[l].closed
    ensures InvBut(CloseLatch(w, l), None, None)
    ensures |w.history.trails[w.latches[l].target].calls| == 1 ==>
      NoneOpen(CloseLatch(w, l).latches, w.latches[l].target)
  {
    var w' := CloseLatch(w, l);
    NeutralKeeps(w, w');
    forall k | 0 <= k < |w'.latches| ensures LatchInv(w'.latches[k], w'.history.trails) {
      assert LatchInv(w.latches[k], w.history.trails);
    }
    forall s | 0 <= s < |w'.subscribers| ensures AdopterInv(s, w'.subscribers[s], w'.latches, w'.history.log) {
      assert AdopterInv(s, w.subscribers[s], w.latches, w.history.log);
    }
    CloseTokens(w, l);
    CloseFates(w, l);
  }

  lemma CloseTokens(w: World, l: nat)
    requires WF(w) && Links(w) && TokensBut(w, None) && l < |w.latches| && !w.latches[l].closed
    ensures TokensBut(CloseLatch(w, l), None)
    ensures |w.history.trails[w.latches[l].target].calls| == 1 ==>
      NoneOpen(CloseLatch(w, l).latches, w.latches[l].target)
  {
    var w', x := CloseLatch(w, l), w.latches[l].target;
    forall p | 0 <= p < |w'.promises| ensures TokenInv(p, w'.promises[p], w'.history.trails[p], w'.latches) {
      assert TokenInv(p, w.promises[p], w.history.trails[p], w.latches);
      forall k | 0 <= k < |w'.latches| ensures OpenFor(w'.latches, k, p) ==> OpenFor(w.latches, k, p) { }
    }
    if |w.history.trails[x].calls| == 1 {
      assert TokenInv(x, w.promises[x], w.history.trails[x], w.latches);
      assert OpenFor(w.latches, l, x);
      forall k | 0 <= k < |w'.latches| ensures !OpenFor(w'.latches, k, x) {
        assert k != l ==> !OpenFor(w.latches, k, x);
      }
    }
  }

  lemma CloseFates(w: World, l: nat)
    requires WF(w) && FatesBut(w, None) && l < |w.latches|
    ensures FatesBut(CloseLatch(w, l), None)
  {
    var w' := CloseLatch(w, l);
    forall p | 0 <= p < |w'.promises| ensures FateInv(w', p) { assert FateInv(w, p); }
  }

  lemma ThenableResolveKeeps(w: World, l: nat, v: Value)
    requires InvBut(w, None, None) && l < |w.latches| && w.latches[l].source.Thenable? && ValueOk(w, v)
    ensures InvBut(LatchResolve(w, l, v), None, None)
  {
    if !w.latches[l].closed {
      var x, w1, w' := w.latches[l].target, CloseLatch(w, l), LatchResolve(w, l, v);
      assert LatchInv(w.latches[l], w.history.trails);
      LatchResolveKeeps(w, l, v);
      CloseThenable(w, l);
      ThenableCannotOvertake(w, l);
      assert forall s :: Follows(w1, x, s) ==> Follows(w, x, s);
      LatchSettles(w1, w', x, w.latches[l].source, v);
    }
  }

  /** The two ways the first closure settles its target, once its latch is closed. */
  lemma LatchSettles(w1: World, w': World, x: nat, source: Value, v: Value)
    requires InvBut(w1, None, None) && x < |w1.promises| && ValueOk(w1, v)
    requires w1.history.trails[x].calls != []
    requires w' == if source == v then Settle(w1, x, v, true) else Resolve(w1, x, v)
    requires Structure(w') && forall s :: Follows(w1, x, s) ==> s in w1.history.log
    requires |w1.history.trails[x].calls| == 1 ==> NoneOpen(w1.latches, x)
    ensures InvBut(w', None, None)
  {
    hide PhasesOf, PlacesOf, Schedule, Fifo, ControlInv, LatchesInv, AdoptersInv, CombinedsInv, DerivedsBut,
      TokensBut, FatesBut, Adopts;
    SettleResolves(w1, x, v, true);
    ResolveResolves(w1, x, v);
    Weaken(w1, None, Some(x));
    StepBut(w1, w', None, x, if source == v then Undefined else v);
    Pick(w1, None, x);
    FateStays(w1, w', x);
    Complete(w', None, x);
  }

  lemma ThenableRejectKeeps(w: World, l: nat, r: Value)
    requires InvBut(w, None, None) && l < |w.latches| && w.latches[l].source.Thenable? && ValueOk(w, r)
    ensures InvBut(LatchReject(w, l, r), None, None)
  {
    if !w.latches[l].closed {
      var x, w1 := w.latches[l].target, CloseLatch(w, l);
      assert LatchInv(w.latches[l], w.history.trails);
      LatchRejectKeeps(w, l, r);
      CloseThenable(w, l);
      ThenableCannotOvertake(w, l);
      assert forall s :: Follows(w1, x, s) ==> Follows(w, x, s);
      RejectSettles(w1, x, r);
    }
  }

  lemma RejectSettles(w: World, x: nat, r: Value)
    requires InvBut(w, None, None) && x < |w.promises| && ValueOk(w, r) && w.history.trails[x].calls != []
    requires Structure(Settle(w, x, r, false)) && forall s :: Follows(w, x, s) ==> s in w.history.log
    ensures InvBut(Settle(w, x, r, false), None, None)
  {
    var w' := Settle(w, x, r, false);
    SettleResolves(w, x, r, false);
    StepBut(w, w', None, x, Undefined);
    assert FateInv(w, x) && TokenInv(x, w.promises[x], w.history.trails[x], w.latches);
    FateStays(w, w', x);
    Complete(w', None, x);
  }

  lemma ThenableThrowKeeps(w: World, l: nat, e: Value)
    requires InvBut(w, None, None) && l < |w.latches| && w.latches[l].source.Thenable? && ValueOk(w, e)
    ensures InvBut(LatchThrow(w, l, e), None, None)
  {
    if !w.latches[l].closed {
      assert LatchInv(w.latches[l], w.history.trails);
      LatchRejectKeeps(w, l, e);
      ThenableCannotOvertake(w, l);
      RejectSettles(w, w.latches[l].target, e);
    }
  }

  // ---------------------------------------------------------------- subscriptions and P.all

  /** Slots that are not adoption closures add no obligations beyond their own. */
  lemma SubscribeKeepsFates(w: World, q: nat, f: Callback, r: Callback)
    requires InvBut(w, None, None) && q < |w.promises| && CallbackOk(w, f) && CallbackOk(w, r)
    requires !f.AdoptFulfil? && !f.AdoptReject? && !r.AdoptFulfil? && !r.AdoptReject?
    requires CombinedInv(Subscriber(q, |w.promises|, f, r), w.history.trails, w.aggregates)
    ensures InvBut(Subscribe(w, q, f, r), None, None)
  {
    var w', x := Subscribe(w, q, f, r), |w.promises|;
    SubscribeKeeps(w, q, f, r);
    SubscribeResolves(w, q, f, r, x);
    OthersKeep(w, w', x);
    TrailsGrow(w, w', x);
    DerivedsFrame(w, w', None);
    SubscribeLinks(w, q, f, r);
    NewTokenFate(w, w', x);
    Complete(w', None, x);
  }

  lemma NewTokenFate(w: World, w': World, x: nat)
    requires WF(w) && Links(w) && x == |w.promises| && |w'.promises| == |w'.history.trails| == x + 1
    requires FreshPromise(w'.promises[x], w'.history.trails[x])
    ensures TokenInv(x, w'.promises[x], w'.history.trails[x], w'.latches) && FateInv(w', x)
  {
  }

  lemma SubscribeLinks(w: World, q: nat, f: Callback, r: Callback)
    requires Structure(w) && Links(w) && q < |w.promises| && CallbackOk(w, f) && CallbackOk(w, r)
    requires !f.AdoptFulfil? && !f.AdoptReject? && !r.AdoptFulfil? && !r.AdoptReject?
    requires CombinedInv(Subscriber(q, |w.promises|, f, r), w.history.trails, w.aggregates)
    ensures Links(Subscribe(w, q, f, r))
  {
    var w' := Subscribe(w, q, f, r);
    SubscribeResolves(w, q, f, r, |w.promises|);
    forall l | 0 <= l < |w'.latches| ensures LatchInv(w'.latches[l], w'.history.trails) {
      assert LatchInv(w.latches[l], w.history.trails);
    }
    forall a | 0 <= a < |w'.aggregates| ensures AggregateOrigin(a, w'.history.trails, w'.aggregates) {
      assert AggregateOrigin(a, w.history.trails, w.aggregates);
    }
    forall s | 0 <= s < |w'.subscribers|
      ensures CombinedInv(w'.subscribers[s], w'.history.trails, w'.aggregates)
      ensures AdopterInv(s, w'.subscribers[s], w'.latches, w'.history.log)
    {
      if s < |w.subscribers| {
        assert CombinedInv(w.subscribers[s], w.history.trails, w.aggregates);
        assert AdopterInv(s, w.subscribers[s], w.latches, w.history.log);
      }
    }
  }

  lemma AllocateKeepsFates(w: World, origin: Origin)
    requires InvBut(w, None, None)
    ensures InvBut(Allocate(w, origin), None, None)
  {
    var w', x := Allocate(w, origin), |w.promises|;
    AllocateKeeps(w, origin);
    OthersKeep(w, w', x);
    TrailsGrow(w, w', x);
    DerivedsFrame(w, w', None);
    NewTokenFate(w, w', x);
    forall l | 0 <= l < |w'.latches| ensures LatchInv(w'.latches[l], w'.history.trails) {
      assert LatchInv(w.latches[l], w.history.trails);
    }
    forall a | 0 <= a < |w'.aggregates| ensures AggregateOrigin(a, w'.history.trails, w'.aggregates) {
      assert AggregateOrigin(a, w.history.trails, w.aggregates);
    }
    forall s | 0 <= s < |w'.subscribers| ensures CombinedInv(w'.subscribers[s], w'.history.trails, w'.aggregates) {
      assert CombinedInv(w.subscribers[s], w.history.trails, w.aggregates);
    }
    Complete(w', None, x);
  }

  /** Counters and results of P.all are no part of the invariant. */
  lemma AggregatesKeepFates(w: World, w': World, so: Option<nat>)
    requires InvBut(w, so, None) && WF(w') && w' == w.(aggregates := w'.aggregates)
    requires |w.aggregates| <= |w'.aggregates|
    requires forall a :: 0 <= a < |w.aggregates| ==> w'.aggregates[a].target == w.aggregates[a].target
    requires forall a :: |w.aggregates| <= a < |w'.aggregates| ==> AggregateOrigin(a, w'.history.trails, w'.aggregates)
    ensures InvBut(w', so, None)
  {
    NeutralKeeps(w, w');
    forall a | 0 <= a < |w'.aggregates| ensures AggregateOrigin(a, w'.history.trails, w'.aggregates) {
      if a < |w.aggregates| { assert AggregateOrigin(a, w.history.trails, w.aggregates); }
    }
    forall s | 0 <= s < |w'.subscribers| ensures CombinedInv(w'.subscribers[s], w'.history.trails, w'.aggregates) {
      assert CombinedInv(w.subscribers[s], w.history.trails, w.aggregates);
    }
    forall p | 0 <= p < |w'.promises| ensures FateInv(w', p) { assert FateInv(w, p); }
  }

  lemma SetAggregateKeepsFates(w: World, a: nat, g: Aggregate)
    requires InvBut(w, None, None) && a < |w.aggregates| && AggregateOk(w, g)
    requires |g.results| == |w.aggregates[a].results| && g.target == w.aggregates[a].target
    ensures InvBut(SetAggregate(w, a, g), None, None)
    ensures AggregateOrigin(a, w.history.trails, SetAggregate(w, a, g).aggregates)
  {
    assert AggregateOrigin(a, w.history.trails, w.aggregates);
    AggregatesKeepFates(w, SetAggregate(w, a, g), None);
  }

  lemma CountKeepsFates(w: World, a: nat, i: nat)
    requires InvBut(w, None, None) && a < |w.aggregates| && AggregateOk(w, w.aggregates[a])
    requires i < |w.aggregates[a].items|
    ensures InvBut(Count(w, a, i), None, None)
    ensures AggregateOrigin(a, Count(w, a, i).history.trails, Count(w, a, i).aggregates)
  {
    SetAggregateKeepsFates(w, a, Counted(w.aggregates[a], i, |w.subscribers|));
  }

  lemma WatchKeepsFates(w: World, a: nat, i: nat, q: nat)
    requires InvBut(w, None, None) && a < |w.aggregates| && AggregateOk(w, w.aggregates[a])
    requires i < |w.aggregates[a].items| && q < |w.promises|
    ensures InvBut(Watch(w, a, i, q), None, None)
  {
    CountKeepsFates(w, a, i);
    SubscribeSlots(Count(w, a, i), a, i, q, w.aggregates[a].target);
  }

  lemma SubscribeSlots(w: World, a: nat, i: nat, q: nat, t: nat)
    requires InvBut(w, None, None) && q < |w.promises|
    requires AggregateOrigin(a, w.history.trails, w.aggregates) && i < |w.aggregates[a].results|
    requires t == w.aggregates[a].target
    ensures InvBut(Subscribe(w, q, StoreResult(a, i), RejectTarget(t)), None, None)
  {
    SubscribeKeepsFates(w, q, StoreResult(a, i), RejectTarget(t));
  }

  lemma AllEntryKeepsFates(w: World, a: nat, i: nat)
    requires InvBut(w, None, None) && a < |w.aggregates| && i < |w.aggregates[a].items|
    requires forall v <- w.aggregates[a].items :: ValueOk(w, v)
    ensures InvBut(AllEntry(w, a, i), None, None)
  {
    var g, v := w.aggregates[a], w.aggregates[a].items[i];
    assert AggregateOk(w, g);
    assert v in g.items;
    if v.PromiseRef? {
      WatchKeepsFates(w, a, i, v.p);
    } else {
      SetAggregateKeepsFates(w, a, g.(results := g.results[i := Some(v)]));
    }
  }

  lemma {:induction false} AllLoopKeepsFates(w: World, a: nat, i: nat)
    requires InvBut(w, None, None) && a < |w.aggregates| && i <= |w.aggregates[a].items|
    requires forall v <- w.aggregates[a].items :: ValueOk(w, v)
    ensures InvBut(AllLoop(w, a, i), None, None)
    decreases |w.aggregates[a].items| - i
  {
    hide WF, PhasesOf, PlacesOf, Schedule, Fifo, ControlInv, Links, Settlements, AllLoop, AllEntry, ValueOk;
    AllLoopStep(w, a, i);
    if i < |w.aggregates[a].items| {
      AllEntryKeepsFates(w, a, i);
      AllLoopKeepsFates(AllEntry(w, a, i), a, i + 1);
    }
  }

  lemma AllKeepsFates(w: World, items: seq<Value>)
    requires InvBut(w, None, None) && forall v <- items :: ValueOk(w, v)
    ensures InvBut(All(w, items), None, None)
  {
    hide PhasesOf, PlacesOf, Schedule, Fifo, ControlInv, LatchesInv, AdoptersInv, DerivedsBut, TokensBut, FatesBut,
      CallResolve, AllLoop;
    var a := |w.aggregates|;
    AllocateKeepsFates(w, Combined(a));
    AggregatesKeepFates(Allocate(w, Combined(a)), AllBegin(w, items), None);
    AllLoopKeepsFates(AllBegin(w, items), a, 0);
    var w1 := AllLoop(AllBegin(w, items), a, 0);
    if w1.aggregates[a].remaining == 0 {
      assert AggregateOk(w1, w1.aggregates[a]) && AggregateOrigin(a, w1.history.trails, w1.aggregates);
      CallResolveKeepsFates(w1, w1.aggregates[a].target, ResultArray(a), None);
    }
  }

  lemma CombinedResolveKeepsFates(w: World, a: nat)
    requires InvBut(w, None, None) && AggregateOrigin(a, w.history.trails, w.aggregates)
    ensures InvBut(CallResolve(w, w.aggregates[a].target, ResultArray(a)), None, None)
  {
    CallResolveKeepsFates(w, w.aggregates[a].target, ResultArray(a), None);
  }

  lemma StoreKeepsFates(w: World, a: nat, i: nat, v: Value)
    requires InvBut(w, None, None) && a < |w.aggregates| && i < |w.aggregates[a].results| && ValueOk(w, v)
    ensures InvBut(Store(w, a, i, v), None, None)
  {
    hide PhasesOf, PlacesOf, Schedule, Fifo, ControlInv, LatchesInv, AdoptersInv, CombinedsInv, DerivedsBut,
      TokensBut, FatesBut, CallResolve;
    var g := w.aggregates[a];
    assert AggregateOk(w, g);
    var g' := g.(results := g.results[i := Some(v)], remaining := g.remaining - 1);
    SetAggregateKeepsFates(w, a, g');
    if g'.remaining == 0 {
      CombinedResolveKeepsFates(SetAggregate(w, a, g'), a);
    }
  }

  // ---------------------------------------------------------------- the flush

  /** Steps of the flush loop itself settle nothing. */
  ghost predicate LoopStep(w: World, w': World) {
    && w'.subscribers == w.subscribers && w'.latches == w.latches && w'.aggregates == w.aggregates
    && w'.history.log == w.history.log && w'.history.trails == w.history.trails
    && |w'.promises| == |w.promises|
    && (forall p :: 0 <= p < |w.promises| ==>
          && w'.promises[p].data == w.promises[p].data
          && (w'.promises[p].phase == Pending <==> w.promises[p].phase == Pending))
    && (forall s :: InCallbackOf(w'.control, s) <==> InCallbackOf(w.control, s))
  }

  lemma LoopStepKeeps(w: World, w': World)
    requires InvBut(w, None, None) && Structure(w') && LoopStep(w, w')
    ensures InvBut(w', None, None)
  {
    forall p | 0 <= p < |w'.promises|
      ensures TokenInv(p, w'.promises[p], w'.history.trails[p], w'.latches) && FateInv(w', p)
    {
      assert TokenInv(p, w.promises[p], w.history.trails[p], w.latches) && FateInv(w, p);
    }
    forall s | 0 <= s < |w'.subscribers|
      ensures DerivedInv(s, w'.subscribers[s], w'.history.trails, w'.history.log, w'.control)
    {
      assert DerivedInv(s, w.subscribers[s], w.history.trails, w.history.log, w.control);
      assert InCallbackOf(w'.control, s) <==> InCallbackOf(w.control, s);
    }
  }

  predicate LoopEvent(e: Event) {
    e.FlushBegins? || e.FlushEnds? || e.TaskStarts? || e.TaskEnds? || e.ThenableEnds?
  }

  lemma StartTaskSteps(w: World)
    requires Structure(w) && Enabled(w, TaskStarts)
    ensures LoopStep(w, StartTask(w))
  {
    hide PhasesOf, PlacesOf, Schedule, Fifo, ControlInv;
    var t := w.pending[0];
    assert t in w.pending && TaskOk(w, t);
    if !t.Invoke? { PhasesPublish(w, t.p); }
  }

  lemma LoopEventSteps(w: World, e: Event)
    requires Structure(w) && Enabled(w, e) && LoopEvent(e)
    ensures LoopStep(w, Apply(w, e))
  {
    hide PhasesOf, PlacesOf, Schedule, Fifo, StartTask;
    if e.TaskStarts? { StartTaskSteps(w); }
  }

  lemma LoopEvents(w: World, e: Event)
    requires InvBut(w, None, None) && Enabled(w, e) && LoopEvent(e)
    ensures InvBut(Apply(w, e), None, None)
  {
    EngineStepKeeps(w, e);
    LoopEventSteps(w, e);
    LoopStepKeeps(w, Apply(w, e));
  }

  /** The subscriber about to be invoked has not been invoked before. */
  lemma WorkIsNew(w: World)
    requires Structure(w) && w.control.Flushing? && w.control.work != []
    ensures w.control.work[0] !in w.history.log && w.control.work[0] < |w.subscribers|
    ensures FinalAt(w.promises, w.subscribers[w.control.work[0]].owner)
  {
    var line, n := Line(w), |w.history.log|;
    assert line[n] == w.control.work[0];
    forall i | 0 <= i < n ensures w.history.log[i] != w.control.work[0] {
      assert line[i] == w.history.log[i];
      assert InOrder(w.subscribers, line[i], line[n]);
    }
  }

  ghost predicate Taking(w: World) {
    w.control.Flushing? && w.control.current != NoTask && w.control.work != [] && w.control.call == NoCall
  }

  lemma TakeDeriveds(w: World)
    requires Structure(w) && DerivedsBut(w, None) && Taking(w)
    ensures DerivedsBut(TakeWork(w), None)
  {
    WorkIsNew(w);
    var w' := TakeWork(w);
    forall s | 0 <= s < |w'.subscribers|
      ensures DerivedInv(s, w'.subscribers[s], w'.history.trails, w'.history.log, w'.control)
    {
      assert DerivedInv(s, w.subscribers[s], w.history.trails, w.history.log, w.control);
    }
  }

  /** Entering a callback that is not an adoption closure. */
  lemma TakeKeepsFates(w: World)
    requires InvBut(w, None, None) && Taking(w)
    requires w.control.work[0] < |w.subscribers| ==> !w.subscribers[w.control.work[0]].onFulfil.AdoptFulfil?
    ensures InvBut(TakeWork(w), None, None)
  {
    WorkIsNew(w);
    TakeWorkKeeps(w);
    TakeDeriveds(w);
    var w', s0 := TakeWork(w), w.control.work[0];
    forall s | 0 <= s < |w'.subscribers| ensures AdopterInv(s, w'.subscribers[s], w'.latches, w'.history.log) {
      assert AdopterInv(s, w.subscribers[s], w.latches, w.history.log);
    }
    TakeFates(w, None);
  }

  lemma TakeFates(w: World, x: Option<nat>)
    requires Structure(w) && FatesBut(w, None) && Taking(w)
    requires w.control.work[0] < |w.subscribers| && w.subscribers[w.control.work[0]].onFulfil.AdoptFulfil? ==>
      w.subscribers[w.control.work[0]].onFulfil.l < |w.latches| &&
      x == Some(w.latches[w.subscribers[w.control.work[0]].onFulfil.l].target)
    ensures FatesBut(TakeWork(w), x)
  {
    WorkIsNew(w);
    var w', s0 := TakeWork(w), w.control.work[0];
    forall p | 0 <= p < |w'.promises| && Some(p) != x ensures FateInv(w', p) {
      assert FateInv(w, p);
    }
  }

  /** After entering an adoption closure and closing its latch, only the adopting promise is unaccounted for. */
  lemma AdopterCloses(w: World, l: nat)
    requires InvBut(w, None, None) && Taking(w)
    requires w.control.work[0] < |w.subscribers| && w.subscribers[w.control.work[0]].onFulfil == AdoptFulfil(l)
    ensures l < |w.latches| && !w.latches[l].closed && Structure(TakeWork(w))
    ensures InvBut(CloseLatch(TakeWork(w), l), None, Some(w.latches[l].target))
    ensures |w.history.trails[w.latches[l].target].calls| == 1 ==>
      NoneOpen(CloseLatch(TakeWork(w), l).latches, w.latches[l].target)
  {
    hide PhasesOf, PlacesOf, Schedule, Fifo, CombinedsInv, LatchesInv, AdoptersInv, FatesBut, TokensBut, DerivedsBut;
    var w1 := TakeWork(w);
    WorkIsNew(w);
    TakeWorkKeeps(w);
    TakeDeriveds(w);
    LatchOf(w, w.control.work[0], l);
    NeutralKeeps(w1, CloseLatch(w1, l));
    CloseAdopters(w, l);
    CloseOthers(w, l);
    CloseDeriveds(w1, l);
    TakeTokens(w, l);
    TakeFates(w, Some(w.latches[l].target));
    CloseFatesBut(w1, l, w.latches[l].target);
  }

  /** The latch of an adopter that has not been invoked is open. */
  lemma LatchOf(w: World, s: nat, l: nat)
    requires Structure(w) && Links(w) && s < |w.subscribers| && s !in w.history.log
    requires w.subscribers[s].onFulfil == AdoptFulfil(l)
    ensures l < |w.latches| && !w.latches[l].closed && w.latches[l].source == PromiseRef(w.subscribers[s].owner)
    ensures w.latches[l].target < |w.promises| && w.history.trails[w.latches[l].target].calls != []
  {
    assert AdopterInv(s, w.subscribers[s], w.latches, w.history.log);
    assert LatchInv(w.latches[l], w.history.trails);
  }

  lemma CloseOthers(w: World, l: nat)
    requires WF(w) && LatchesInv(w) && CombinedsInv(w) && Taking(w) && l < |w.latches|
    ensures LatchesInv(CloseLatch(TakeWork(w), l)) && CombinedsInv(CloseLatch(TakeWork(w), l))
  {
    var w2 := CloseLatch(TakeWork(w), l);
    forall k | 0 <= k < |w2.latches| ensures LatchInv(w2.latches[k], w2.history.trails) {
      assert LatchInv(w.latches[k], w.history.trails);
    }
  }

  lemma CloseDeriveds(w: World, l: nat)
    requires WF(w) && DerivedsBut(w, None) && l < |w.latches|
    ensures DerivedsBut(CloseLatch(w, l), None)
  {
  }

  lemma TakeTokens(w: World, l: nat)
    requires WF(w) && Links(w) && TokensBut(w, None) && Taking(w) && l < |w.latches| && !w.latches[l].closed
    ensures var w2 := CloseLatch(TakeWork(w), l); var x := w.latches[l].target;
      TokensBut(w2, Some(x)) && (|w.history.trails[x].calls| == 1 ==> NoneOpen(w2.latches, x))
  {
    CloseTokens(w, l);
  }

  lemma CloseFatesBut(w: World, l: nat, x: nat)
    requires WF(w) && FatesBut(w, Some(x)) && l < |w.latches|
    ensures FatesBut(CloseLatch(w, l), Some(x))
  {
    var w' := CloseLatch(w, l);
    forall p | 0 <= p < |w'.promises| && p != x ensures FateInv(w', p) { assert FateInv(w, p); }
  }

  lemma CloseAdopters(w: World, l: nat)
    requires Structure(w) && AdoptersInv(w) && Taking(w) && l < |w.latches|
    requires w.control.work[0] < |w.subscribers| && w.subscribers[w.control.work[0]].onFulfil == AdoptFulfil(l)
    ensures AdoptersInv(CloseLatch(TakeWork(w), l))
  {
    var w2, s0 := CloseLatch(TakeWork(w), l), w.control.work[0];
    forall s | 0 <= s < |w2.subscribers| ensures AdopterInv(s, w2.subscribers[s], w2.latches, w2.history.log) {
      assert AdopterInv(s, w.subscribers[s], w.latches, w.history.log);
      if w.subscribers[s].onFulfil.AdoptFulfil? && s != s0 {
        assert w.subscribers[s].onFulfil.l != l;
      }
    }
  }

  /** An invoked adoption closure carries the outcome of the promise it waited for over to the adopting one. */
  lemma AdopterBegins(w: World, l: nat)
    requires InvBut(w, None, None) && Taking(w)
    requires w.control.work[0] < |w.subscribers| && w.subscribers[w.control.work[0]].onFulfil == AdoptFulfil(l)
    ensures InvBut(BeginCallback(w), None, None)
  {
    var s0 := w.control.work[0];
    WorkIsNew(w);
    AdopterCloses(w, l);
    LatchOf(w, s0, l);
    assert AdopterInv(s0, w.subscribers[s0], w.latches, w.history.log);
    DispatchKeeps(TakeWork(w), s0);
    BeginIsDelivery(w, l);
    Delivered(w, CloseLatch(TakeWork(w), l), BeginCallback(w), l);
  }

  /** The value an adoption closure hands to its target's resolve, if the target has then to follow it. */
  function Forwarded(w: World, q: nat): Value
    requires q < |w.promises|
  {
    if w.promises[q].phase == Rejected || w.promises[q].data == PromiseRef(q) then Undefined else w.promises[q].data
  }

  function Delivery(w: World, w2: World, q: nat, x: nat): (r: World)
    requires q < |w.promises| && WF(w2) && x < |w2.promises| && ValueOk(w2, w.promises[q].data)
    ensures WF(r)
  {
    var v := w.promises[q].data;
    if w.promises[q].phase == Rejected then Settle(w2, x, v, false)
    else if v == PromiseRef(q) then Settle(w2, x, v, true)
    else Resolve(w2, x, v)
  }

  /** What the closure leaves for its target: the awaited outcome, if there is nothing more to follow. */
  lemma DeliveryResolves(w: World, w2: World, q: nat, x: nat)
    requires WF(w) && FinalAt(w.promises, q) && WF(w2) && x < |w2.promises| && ValueOk(w2, w.promises[q].data)
    requires w.history.trails[q].decided == w.promises[q].phase
    ensures var w' := Delivery(w, w2, q, x);
      && Resolves(w2, w', x) && Adopts(w2, w', x, Forwarded(w, q))
      && (w2.promises[x].phase == Pending && Transparent(x, q, w.promises[q], w.history.trails[q]) ==>
            SettledAs(w'.promises[x], w'.history.trails[x], w.promises[q].data, w.promises[q].phase))
  {
    hide Resolves, Adopts, Settle, Resolve;
    var v := w.promises[q].data;
    SettleResolves(w2, x, v, true);
    SettleResolves(w2, x, v, false);
    ResolveResolves(w2, x, v);
  }

  lemma Delivered(w: World, w2: World, w': World, l: nat)
    requires InvBut(w, None, None) && Taking(w)
    requires w.control.work[0] < |w.subscribers| && w.subscribers[w.control.work[0]].onFulfil == AdoptFulfil(l)
    requires l < |w.latches| && !w.latches[l].closed
    requires w.latches[l].source == PromiseRef(w.subscribers[w.control.work[0]].owner)
    requires WF(TakeWork(w)) && w2 == CloseLatch(TakeWork(w), l) && InvBut(w2, None, Some(w.latches[l].target))
    requires Structure(w')
    requires FinalAt(w.promises, w.subscribers[w.control.work[0]].owner)
    requires w.latches[l].target < |w.promises| && w.history.trails[w.latches[l].target].calls != []
    requires |w.history.trails[w.latches[l].target].calls| == 1 ==> NoneOpen(w2.latches, w.latches[l].target)
    requires var q, x := w.subscribers[w.control.work[0]].owner, w.latches[l].target;
      x < |w2.promises| && ValueOk(w2, w.promises[q].data) && w' == Delivery(w, w2, q, x)
    ensures InvBut(w', None, None)
  {
    hide PhasesOf, PlacesOf, Schedule, Fifo, ControlInv, LatchesInv, AdoptersInv, CombinedsInv, DerivedsBut,
      TokensBut, FatesBut, Adopts, Delivery, FateInv;
    var q, x := w.subscribers[w.control.work[0]].owner, w.latches[l].target;
    DecidedIsPhase(w, q);
    DeliveryResolves(w, w2, q, x);
    StepBut(w2, w', None, x, Forwarded(w, q));
    AdoptedFate(w, w2, w', l);
    Complete(w', None, x);
  }

  lemma DecidedIsPhase(w: World, q: nat)
    requires Structure(w) && FinalAt(w.promises, q)
    ensures w.history.trails[q].decided == w.promises[q].phase
  {
    assert PhaseInv(q, w.promises[q], w.history.trails[q].decided, w.pending, Published(w.control) == Some(q));
  }

  lemma BeginIsDelivery(w: World, l: nat)
    requires Structure(w) && Taking(w) && l < |w.latches| && !w.latches[l].closed
    requires w.control.work[0] < |w.subscribers|
    requires AdopterInv(w.control.work[0], w.subscribers[w.control.work[0]], w.latches, w.history.log)
    requires w.subscribers[w.control.work[0]].onFulfil == AdoptFulfil(l)
    requires FinalAt(w.promises, w.subscribers[w.control.work[0]].owner)
    ensures var q, x := w.subscribers[w.control.work[0]].owner, w.latches[l].target;
      var w2 := CloseLatch(TakeWork(w), l);
      x < |w2.promises| && ValueOk(w2, w.promises[q].data) && BeginCallback(w) == Delivery(w, w2, q, x)
  {
    hide PhasesOf, PlacesOf, Schedule, Fifo, ControlInv, Settle, Resolve;
    var q := w.subscribers[w.control.work[0]].owner;
    assert PromiseOk(w, w.promises[q]);
  }

  lemma AdoptedFate(w: World, w2: World, w': World, l: nat)
    requires InvBut(w, None, None) && Taking(w)
    requires w.control.work[0] < |w.subscribers| && w.subscribers[w.control.work[0]].onFulfil == AdoptFulfil(l)
    requires l < |w.latches| && !w.latches[l].closed
    requires w.latches[l].source == PromiseRef(w.subscribers[w.control.work[0]].owner)
    requires w2 == CloseLatch(TakeWork(w), l) && Structure(w2) && w.latches[l].target < |w.promises|
    requires Resolves(w2, w', w.latches[l].target)
    requires var q := w.subscribers[w.control.work[0]].owner; var x, v := w.latches[l].target, w.promises[q].data;
      && FinalAt(w.promises, q)
      && (w.promises[x].phase == Pending && Transparent(x, q, w.promises[q], w.history.trails[q]) ==>
            SettledAs(w'.promises[x], w'.history.trails[x], v, w.promises[q].phase))
    ensures FateInv(w', w.latches[l].target)
  {
    hide PhasesOf, PlacesOf, Schedule, Fifo, ControlInv, LatchesInv, AdoptersInv, CombinedsInv, DerivedsBut,
      TokensBut, FatesBut;
    var x, s0 := w.latches[l].target, w.control.work[0];
    Pick(w, None, x);
    if exists s: nat :: Follows(w, x, s) && s !in w.history.log {
      var s: nat :| Follows(w, x, s) && s !in w.history.log;
      assert OpenFor(w.latches, l, x);
      OnlyLatch(w, x, s, l);
      assert FollowsThrough(w, x, s, l);
      AdoptedThrough(w, w2, w', l);
    } else {
      FateTaken(w, l, x);
      assert forall s: nat :: Follows(w2, x, s) ==> Follows(w, x, s);
      FateStays(w2, w', x);
    }
  }

  /** If x does not wait for the subscriber being invoked, invoking it leaves x's fate as it is. */
  lemma FateTaken(w: World, l: nat, x: nat)
    requires WF(w) && Taking(w) && l < |w.latches| && FateInv(w, x)
    requires forall s: nat :: Follows(w, x, s) ==> s in w.history.log
    ensures FateInv(CloseLatch(TakeWork(w), l), x)
  {
    if |w.history.trails[x].calls| == 1 && w.history.trails[x].calls[0].ResolveCall? {
      assert Follows(w, x, w.history.trails[x].calls[0].adopter) || !w.history.trails[x].calls[0].v.PromiseRef?
        || w.history.trails[x].calls[0].v.p == x;
    }
  }

  /** The case where the invoked subscriber is the one the adopting promise follows. */
  lemma AdoptedThrough(w: World, w2: World, w': World, l: nat)
    requires Structure(w) && AdoptersInv(w) && Taking(w)
    requires w.control.work[0] < |w.subscribers| && w.subscribers[w.control.work[0]].onFulfil == AdoptFulfil(l)
    requires l < |w.latches| && w.latches[l].target < |w.promises|
    requires w2 == CloseLatch(TakeWork(w), l)
    requires Resolves(w2, w', w.latches[l].target) && FateInv(w, w.latches[l].target)
    requires exists s: nat :: FollowsThrough(w, w.latches[l].target, s, l)
    requires var q := w.subscribers[w.control.work[0]].owner; var x, v := w.latches[l].target, w.promises[q].data;
      && FinalAt(w.promises, q)
      && (w.promises[x].phase == Pending && Transparent(x, q, w.promises[q], w.history.trails[q]) ==>
            SettledAs(w'.promises[x], w'.history.trails[x], v, w.promises[q].phase))
    ensures FateInv(w', w.latches[l].target)
  {
    var x, s0 := w.latches[l].target, w.control.work[0];
    var s: nat :| FollowsThrough(w, x, s, l);
    assert s == s0;
    var q := w.subscribers[s0].owner;
    DecidedIsPhase(w, q);
    assert LinkInv(w, x, q, s0);
    assert w'.subscribers[s0] == w2.subscribers[s0] && w'.latches[l].target == w2.latches[l].target;
    if q != x {
      assert SameOutcome(w2.promises[q], w'.promises[q], w2.history.trails[q], w'.history.trails[q]);
    }
  }

  // ---------------------------------------------------------------- the end of a callback

  ghost predicate Calling(w: World, s: nat) {
    w.control.Flushing? && w.control.call == InCallback(s) && s < |w.subscribers| && s in w.history.log
  }

  ghost predicate Unsettled(w: World, d: nat) {
    && d < |w.promises| && d < |w.history.trails| && w.history.trails[d].origin == Derived
    && w.history.trails[d].calls == [] && w.promises[d].phase == Pending && NoneOpen(w.latches, d)
  }

  /** While its callback runs, nothing has called the derived promise's resolvers. */
  lemma CallingIsOpen(w: World, s: nat)
    requires InvBut(w, None, None) && Calling(w, s)
    ensures Unsettled(w, w.subscribers[s].derived)
  {
    assert DerivedOrigin(w.subscribers[s], w.history.trails);
    assert DerivedInv(s, w.subscribers[s], w.history.trails, w.history.log, w.control);
    UncalledIsOpen(w, w.subscribers[s].derived);
  }

  /** The value invokeCallback's last lines hand to handleThenable, if they hand over any. */
  function Adopted(d: nat, v: Value): Value {
    if IsThenable(v) && v != PromiseRef(d) then v else Undefined
  }

  lemma ConcludeResolves(w: World, d: nat, v: Value, ok: bool)
    requires WF(w) && d < |w.promises| && ValueOk(w, v)
    ensures var w2 := Conclude(w, d, v, ok); Resolves(w, w2, d) && Adopts(w, w2, d, Adopted(d, v))
  {
    hide Resolves, Settle, HandleThenable;
    if IsThenable(v) {
      HandleResolves(w, d, v);
    } else {
      ResolveResolves(w, d, v);
      SettleResolves(w, d, v, false);
    }
  }

  /** What invokeCallback's last lines leave for the derived promise: a value it did not have to follow. */
  lemma ConcludeSettles(w: World, d: nat, v: Value, ok: bool)
    requires WF(w) && d < |w.promises| && ValueOk(w, v) && w.promises[d].phase == Pending
    requires w.history.trails[d].calls == [ConclusionCall(w, d, v, ok)] && Adopted(d, v) == Undefined
    ensures FateInv(Conclude(w, d, v, ok), d)
  {
    hide Adopts, LinkInv;
    if IsThenable(v) {
      HandleResolves(w, d, v);
    } else {
      ResolveResolves(w, d, v);
      SettleResolves(w, d, v, false);
    }
  }

  /** What they leave when the callback's value is a thenable. */
  lemma ConcludeAdopts(w: World, d: nat, v: Value, ok: bool)
    requires Structure(w) && d < |w.promises| && ValueOk(w, v) && w.promises[d].phase == Pending
    requires w.history.trails[d].calls == [ConclusionCall(w, d, v, ok)] && IsThenable(v) && v != PromiseRef(d)
    ensures FateInv(Conclude(w, d, v, ok), d)
  {
    hide PhasesOf, PlacesOf, Schedule, Fifo, ControlInv;
    HandleResolves(w, d, v);
    if |w.subscribers| in w.history.log {
      LogInRange(w, |w.subscribers|);
      assert false;
    }
  }

  lemma ConcludeOwn(w: World, d: nat, v: Value, ok: bool)
    requires Structure(w) && d < |w.promises| && ValueOk(w, v)
    requires w.history.trails[d].calls == [ConclusionCall(w, d, v, ok)] && w.promises[d].phase == Pending
    ensures var w2 := Conclude(w, d, v, ok);
      Resolves(w, w2, d) && Adopts(w, w2, d, Adopted(d, v)) && FateInv(w2, d)
  {
    hide PhasesOf, PlacesOf, Schedule, Fifo, ControlInv, Resolves, Adopts, FateInv, Conclude;
    ConcludeResolves(w, d, v, ok);
    if IsThenable(v) && v != PromiseRef(d) {
      ConcludeAdopts(w, d, v, ok);
    } else {
      ConcludeSettles(w, d, v, ok);
    }
  }

  /** Leaving the callback, the derived promise has had its one call. */
  lemma LeaveCallback(w: World, s: nat, v: Value)
    requires InvBut(w, Some(s), None) && Calling(w, s) && ValueOk(w, v)
    requires w.subscribers[s].derived < |w.history.trails| && |w.history.trails[w.subscribers[s].derived].calls| == 1
    ensures InvBut(EndCall(w, s, v), None, None)
  {
    var w' := EndCall(w, s, v);
    EndCallKeeps(w, s, v);
    forall t | 0 <= t < |w'.subscribers|
      ensures DerivedInv(t, w'.subscribers[t], w'.history.trails, w'.history.log, w'.control)
    {
      if t != s { assert DerivedInv(t, w.subscribers[t], w.history.trails, w.history.log, w.control); }
    }
    forall p | 0 <= p < |w'.promises| ensures FateInv(w', p) { assert FateInv(w, p); }
  }

  lemma ConcludeKeepsFates(w: World, s: nat, v: Value, ok: bool)
    requires InvBut(w, None, None) && Calling(w, s) && ValueOk(w, v) && Unsettled(w, w.subscribers[s].derived)
    ensures var d := w.subscribers[s].derived;
      var w2 := Conclude(RecordCall(w, d, ConclusionCall(w, d, v, ok)), d, v, ok);
      InvBut(w2, Some(s), None) && Ending(w, w2, s) && ValueOk(w2, v)
  {
    hide PhasesOf, PlacesOf, Schedule, Fifo, ControlInv, LatchesInv, AdoptersInv, CombinedsInv, DerivedsBut,
      TokensBut, FatesBut, Adopts, HandleThenable, Resolves, FateInv, TokenInv;
    var d := w.subscribers[s].derived;
    var c := ConclusionCall(w, d, v, ok);
    var w1 := RecordCall(w, d, c);
    Weaken(w, Some(s), None);
    RecordKeeps(w, d, c, Some(s));
    var w2 := Conclude(w1, d, v, ok);
    ConcludeKeeps(w1, d, v, ok);
    assert w1.history.trails[d].calls == [c];
    ConcludeOwn(w1, d, v, ok);
    FirstCall(w1, w2, Some(s), d, Adopted(d, v));
  }

  /** Still in the callback of s, whose derived promise has now had one call. */
  ghost predicate Ending(w: World, w2: World, s: nat) {
    && Calling(w2, s) && s < |w.subscribers| && w2.subscribers[s] == w.subscribers[s]
    && w.subscribers[s].derived < |w2.history.trails|
    && |w2.history.trails[w.subscribers[s].derived].calls| == 1
  }

  lemma FinishKeepsFates(w: World, s: nat, v: Value, ok: bool)
    requires InvBut(w, None, None) && Calling(w, s) && ValueOk(w, v)
    ensures InvBut(Finish(w, s, ConclusionCall(w, w.subscribers[s].derived, v, ok), v, ok), None, None)
  {
    hide PhasesOf, PlacesOf, Schedule, Fifo, ControlInv, LatchesInv, AdoptersInv, CombinedsInv, DerivedsBut,
      TokensBut, FatesBut, Conclude;
    var d := w.subscribers[s].derived;
    CallingIsOpen(w, s);
    ConcludeKeepsFates(w, s, v, ok);
    LeaveCallback(Conclude(RecordCall(w, d, ConclusionCall(w, d, v, ok)), d, v, ok), s, v);
  }

  lemma ThrowRejects(w: World, s: nat, e: Value)
    requires InvBut(w, None, None) && Calling(w, s) && ValueOk(w, e) && Unsettled(w, w.subscribers[s].derived)
    ensures var d := w.subscribers[s].derived; var w1 := CallReject(w, d, e);
      && InvBut(w1, Some(s), None) && Calling(w1, s) && w1.subscribers[s].derived == d
      && w1.history.trails[d].calls == [RejectCall(e)] && NoneOpen(w1.latches, d)
      && ValueOk(w1, OwnerData(w, s))
  {
    var d := w.subscribers[s].derived;
    Weaken(w, Some(s), None);
    CallRejectKeepsFates(w, d, e, Some(s));
    RejectCalled(w, d, e);
  }

  /**
    After a throw the derived promise is rejected with the error. The extra pass over the owner's data can add
    a latch and a subscriber, but keeps every promise's fate.
  */
  lemma ThrowKeepsFates(w: World, s: nat, e: Value)
    requires InvBut(w, None, None) && Calling(w, s) && ValueOk(w, e)
    ensures InvBut(EndCallback(w, s, Thrown(e)), None, None)
  {
    hide PhasesOf, PlacesOf, Schedule, Fifo, ControlInv, LatchesInv, AdoptersInv, CombinedsInv, DerivedsBut,
      TokensBut, FatesBut, Conclude, CallReject;
    var d := w.subscribers[s].derived;
    CallingIsOpen(w, s);
    ThrowRejects(w, s, e);
    var w1 := CallReject(w, d, e);
    AfterThrow(w1, s, d, OwnerData(w, s), e);
  }

  lemma RejectCalled(w: World, d: nat, e: Value)
    requires WF(w) && ValueOk(w, e) && d < |w.promises| && w.history.trails[d].calls == []
    ensures var w1 := CallReject(w, d, e);
      && w1.history.trails[d].calls == [RejectCall(e)] && w1.latches == w.latches
      && w1.subscribers == w.subscribers && w1.control == w.control && w1.history.log == w.history.log
      && |w1.promises| == |w.promises| && w1.aggregates == w.aggregates
  {
  }

  lemma AfterThrow(w: World, s: nat, d: nat, v: Value, e: Value)
    requires InvBut(w, Some(s), None) && Calling(w, s) && ValueOk(w, v) && w.subscribers[s].derived == d < |w.promises|
    requires w.history.trails[d].calls == [RejectCall(e)] && NoneOpen(w.latches, d)
    ensures InvBut(Resume(w, s, v, true), None, None)
  {
    hide PhasesOf, PlacesOf, Schedule, Fifo, ControlInv, LatchesInv, AdoptersInv, CombinedsInv, DerivedsBut,
      TokensBut, FatesBut, Adopts, HandleThenable;
    var w2 := Conclude(w, d, v, true);
    ConcludeKeeps(w, d, v, true);
    ConcludeResolves(w, d, v, true);
    Pick(w, Some(s), d);
    StepAgain(w, w2, Some(s), d, Adopted(d, v));
    assert w2.subscribers[s] == w.subscribers[s];
    LeaveCallback(w2, s, v);
  }

  /** Resolving a promise that has been rejected already, with no latch open for it. */
  lemma StepAgain(w: World, w2: World, so: Option<nat>, d: nat, v: Value)
    requires InvBut(w, so, None) && Structure(w2) && d < |w.promises|
    requires |w.history.trails[d].calls| == 1 && w.history.trails[d].calls[0].RejectCall? && NoneOpen(w.latches, d)
    requires Resolves(w, w2, d) && Adopts(w, w2, d, v)
    ensures InvBut(w2, so, None)
  {
    hide PhasesOf, PlacesOf, Schedule, Fifo, ControlInv, LatchesInv, AdoptersInv, CombinedsInv, DerivedsBut,
      TokensBut, FatesBut, Adopts;
    Pick(w, so, d);
    Unclaim(w, so, d);
    StepBut(w, w2, so, d, v);
    FateStays(w, w2, d);
    Complete(w2, so, d);
  }

  lemma Unclaim(w: World, so: Option<nat>, x: nat)
    requires InvBut(w, so, None)
    ensures InvBut(w, so, Some(x))
  {
  }

  // ---------------------------------------------------------------- every step

  lemma EnterKeepsFates(w: World, s: nat, f: nat, v: Value)
    requires InvBut(w, None, None)
    ensures InvBut(EnterUser(w, s, f, v), None, None)
  {
    hide PhasesOf, PlacesOf, Schedule, Fifo, ControlInv;
    var w' := EnterUser(w, s, f, v);
    NeutralKeeps(w, w');
    forall p | 0 <= p < |w'.promises| ensures FateInv(w', p) { assert FateInv(w, p); }
  }

  lemma DispatchKeepsFates(w: World, s: nat)
    requires InvBut(w, None, None) && Calling(w, s) && !w.subscribers[s].onFulfil.AdoptFulfil?
    ensures InvBut(Dispatch(w, s), None, None)
  {
    hide EnterUser, LatchResolve, LatchReject, Store, CallReject, Finish;
    var v := OwnerData(w, s);
    assert SubscriberOk(w, w.subscribers[s]);
    assert CombinedInv(w.subscribers[s], w.history.trails, w.aggregates);
    assert AdopterInv(s, w.subscribers[s], w.latches, w.history.log);
    match Slot(w, s)
    case Absent => FinishKeepsFates(w, s, v, w.promises[w.subscribers[s].owner].phase != Rejected);
    case User(f) => EnterKeepsFates(w, s, f, v);
    case StoreResult(a, i) => StoreKeepsFates(w, a, i, v);
    case RejectTarget(p) => CallRejectKeepsFates(w, p, v, None);
  }

  lemma BeginKeepsFates(w: World)
    requires InvBut(w, None, None) && Enabled(w, CallbackBegins)
    ensures InvBut(BeginCallback(w), None, None)
  {
    var s := w.control.work[0];
    WorkIsNew(w);
    if w.subscribers[s].onFulfil.AdoptFulfil? {
      AdopterBegins(w, w.subscribers[s].onFulfil.l);
    } else {
      TakeKeepsFates(w);
      assert TakeWork(w).history.log[|w.history.log|] == s;
      DispatchKeepsFates(TakeWork(w), s);
    }
  }

  lemma EndKeepsFates(w: World, o: Outcome)
    requires InvBut(w, None, None) && Enabled(w, CallbackEnds(o))
    ensures InvBut(EndCallback(w, w.control.call.s, o), None, None)
  {
    var s := w.control.call.s;
    assert w.history.log[|w.history.log| - 1] == s;
    match o
    case Returned(v) => FinishKeepsFates(w, s, v, true);
    case Thrown(e) => ThrowKeepsFates(w, s, e);
  }

  lemma StepKeepsFates(w: World, e: Event)
    requires InvBut(w, None, None) && Enabled(w, e)
    ensures InvBut(Apply(w, e), None, None)
  {
    hide PhasesOf, PlacesOf, Schedule, Fifo, ControlInv, LatchesInv, AdoptersInv, CombinedsInv, DerivedsBut,
      TokensBut, FatesBut, WF;
    match e
    case New => AllocateKeepsFates(w, Constructed);
    case DoResolve(p, v) => CallResolveKeepsFates(w, p, v, None);
    case DoReject(p, r) => CallRejectKeepsFates(w, p, r, None);
    case DoThen(p, f, r) => SubscribeKeepsFates(w, p, f, r);
    case DoAll(items) => AllKeepsFates(w, items);
    case ThenableResolves(l, v) => ThenableResolveKeeps(w, l, v);
    case ThenableRejects(l, r) => ThenableRejectKeeps(w, l, r);
    case ThenableThrows(l, x) => ThenableThrowKeeps(w, l, x);
    case CallbackBegins => BeginKeepsFates(w);
    case CallbackEnds(o) => EndKeepsFates(w, o);
    case _ => LoopEvents(w, e);
  }

  lemma {:induction false} ExecKeepsFates(w: World, es: seq<Event>)
    requires InvBut(w, None, None)
    ensures Exec(w, es).Some? ==> InvBut(Exec(w, es).value, None, None)
    decreases |es|
  {
    if es != [] && Enabled(w, es[0]) {
      StepKeepsFates(w, es[0]);
      ExecKeepsFates(Apply(w, es[0]), es[1..]);
    }
  }

  lemma EmptyFates()
    ensures InvBut(EMPTY_WORLD, None, None)
  {
    EmptyStructure();
  }

  lemma ReachableFates(w: World)
    requires Reachable(w)
    ensures InvBut(w, None, None)
  {
    hide InvBut;
    EmptyFates();
    var es :| Exec(EMPTY_WORLD, es) == Some(w);
    ExecKeepsFates(EMPTY_WORLD, es);
  }
}
