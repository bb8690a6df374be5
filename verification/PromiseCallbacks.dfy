/** Which callback of a subscriber is called, and with what: sections 2.2.2 to 2.2.4 of Promises/A+. */
module PromiseCallbacks {
  import opened Basics
  import opened PromiseWorld
  import opened PromiseStructure
  import opened PromiseProgress
  import opened PromiseFates
  import opened PromiseTheorems

  /** The calls of user callbacks made for subscriber s, in order. */
  function CallsOf(entered: seq<Entered>, s: nat): seq<Entered> {
    if entered == [] then []
    else
      var last := entered[|entered| - 1];
      CallsOf(entered[..|entered| - 1], s) + (if last.sub == s then [last] else [])
  }

  lemma {:induction false} CallsAppend(a: seq<Entered>, b: seq<Entered>, s: nat)
    ensures CallsOf(a + b, s) == CallsOf(a, s) + CallsOf(b, s)
  {
    if b == [] {
      assert a + b == a;
    } else {
      var most := b[..|b| - 1];
      CallsAppend(a, most, s);
      assert (a + b)[..|a + b| - 1] == a + most;
    }
  }

  /** The calls that invoking subscriber s makes, with its owner in this state. */
  function UserCalls(s: nat, sub: Subscriber, owner: Promise): seq<Entered> {
    if owner.phase == Fulfilled && sub.onFulfil.User? then [Entered(s, sub.onFulfil.f, owner.data)]
    else if owner.phase == Rejected && sub.onReject.User? then [Entered(s, sub.onReject.f, owner.data)]
    else []
  }

  // ---------------------------------------------------------------- one step

  lemma FinishEnters(w: World, s: nat, c: Call, v: Value, ok: bool)
    requires WF(w) && s < |w.subscribers| && ValueOk(w, v)
    ensures Finish(w, s, c, v, ok).history.log == w.history.log
    ensures Finish(w, s, c, v, ok).history.entered == w.history.entered
  {
    hide HandleThenable, Resolve, Settle;
    assert SubscriberOk(w, w.subscribers[s]);
    var w1, d := RecordCall(w, w.subscribers[s].derived, c), w.subscribers[s].derived;
    ResumeEnters(w1, s, v, ok);
  }

  lemma ResumeEnters(w: World, s: nat, v: Value, ok: bool)
    requires WF(w) && s < |w.subscribers| && ValueOk(w, v)
    ensures Resume(w, s, v, ok).history.log == w.history.log
    ensures Resume(w, s, v, ok).history.entered == w.history.entered
  {
    hide HandleThenable, Resolve, Settle;
    assert SubscriberOk(w, w.subscribers[s]);
    var d := w.subscribers[s].derived;
    HandleResolves(w, d, v);
    ResolveResolves(w, d, v);
    SettleResolves(w, d, v, false);
  }

  lemma StoreEnters(w: World, a: nat, i: nat, v: Value)
    requires WF(w) && a < |w.aggregates| && i < |w.aggregates[a].results| && ValueOk(w, v)
    ensures Store(w, a, i, v).history.log == w.history.log && Store(w, a, i, v).history.entered == w.history.entered
  {
    hide CallResolve;
    assert AggregateOk(w, w.aggregates[a]);
    var g := w.aggregates[a];
    var w1 := SetAggregate(w, a, g.(results := g.results[i := Some(v)], remaining := g.remaining - 1));
    CallLog(w1, g.target, ResultArray(a));
  }

  lemma DispatchEnters(w: World, s: nat)
    requires WF(w) && s < |w.subscribers| && w.subscribers[s].owner < |w.promises|
    requires Final(w.promises[w.subscribers[s].owner].phase)
    ensures Dispatch(w, s).history.log == w.history.log
    ensures Dispatch(w, s).history.entered
      == w.history.entered + UserCalls(s, w.subscribers[s], w.promises[w.subscribers[s].owner])
  {
    hide LatchResolve, Store, Finish;
    assert SubscriberOk(w, w.subscribers[s]);
    var v := OwnerData(w, s);
    match Slot(w, s)
    case Absent =>
      var d, ok := w.subscribers[s].derived, w.promises[w.subscribers[s].owner].phase != Rejected;
      FinishEnters(w, s, ConclusionCall(w, d, v, ok), v, ok);
    case User(_) =>
    case AdoptFulfil(l) => LatchLog(w, l, v);
    case AdoptReject(l) =>
    case StoreResult(a, i) => StoreEnters(w, a, i, v);
    case RejectTarget(p) =>
  }

  /** One invocation calls the user callback for its owner's outcome, with that outcome, and no other. */
  lemma InvocationEnters(w: World)
    requires Structure(w) && Enabled(w, CallbackBegins)
    ensures var s, w1 := w.control.work[0], Apply(w, CallbackBegins);
      && s < |w.subscribers| && FinalAt(w.promises, w.subscribers[s].owner)
      && s !in w.history.log && w1.history.log == w.history.log + [s]
      && w1.history.entered
        == w.history.entered + UserCalls(s, w.subscribers[s], w.promises[w.subscribers[s].owner])
  {
    hide Dispatch;
    WorkIsNew(w);
    DispatchEnters(TakeWork(w), w.control.work[0]);
  }

  /**
    A function f given for the owner's outcome is on the stack after that, called with the outcome; nothing else
    has changed, and it can do what user code can and come to any end.
  */
  lemma FunctionRuns(w: World, f: nat)
    requires Structure(w) && Enabled(w, CallbackBegins) && w.control.work[0] < |w.subscribers|
    requires FinalAt(w.promises, w.subscribers[w.control.work[0]].owner)
    requires var sub := w.subscribers[w.control.work[0]];
      if w.promises[sub.owner].phase == Fulfilled then sub.onFulfil == User(f) else sub.onReject == User(f)
    ensures
      var s, w1 := w.control.work[0], Apply(w, CallbackBegins);
      && w1 == w.(control := Flushing(w.control.current, w.control.work[1..], InCallback(s)),
                  history := w.history.(log := w.history.log + [s], entered := w.history.entered
                    + [Entered(s, f, w.promises[w.subscribers[s].owner].data)]))
      && Enabled(w1, New)
      && forall o: Outcome :: ValueOk(w1, if o.Returned? then o.v else o.e) ==> Enabled(w1, CallbackEnds(o))
  {
    hide PhasesOf, PlacesOf, Schedule, Fifo, ControlInv;
  }

  /** The `then` of a foreign thenable that a callback returns runs next, and can use the latch made for it. */
  lemma ForeignRuns(w: World, t: nat, v: Value)
    requires Structure(w) && Enabled(w, CallbackEnds(Returned(Thenable(t))))
    ensures var w1, l := Apply(w, CallbackEnds(Returned(Thenable(t)))), |w.latches|;
      && w1.control.Flushing? && w1.control.call == InThenable(w.control.call.s) && Enabled(w1, New)
      && (ValueOk(w1, v) ==>
            Enabled(w1, ThenableResolves(l, v)) && Enabled(w1, ThenableRejects(l, v))
            && Enabled(w1, ThenableThrows(l, v)))
  {
    hide PhasesOf, PlacesOf, Schedule, Fifo, ControlInv;
    assert SubscriberOk(w, w.subscribers[w.control.call.s]);
  }

  lemma OtherStepEnters(w: World, e: Event)
    requires WF(w) && Enabled(w, e) && !e.CallbackBegins?
    ensures Apply(w, e).history.log == w.history.log && Apply(w, e).history.entered == w.history.entered
  {
    hide CallResolve, All, LatchResolve, Resume, Finish;
    match e
    case DoAll(items) => AllLog(w, items);
    case DoResolve(p, v) => CallLog(w, p, v);
    case ThenableResolves(l, v) => LatchLog(w, l, v);
    case CallbackEnds(o) => EndEnters(w, w.control.call.s, o);
    case _ =>
  }

  lemma EndEnters(w: World, s: nat, o: Outcome)
    requires WF(w) && s < |w.subscribers| && ValueOk(w, if o.Returned? then o.v else o.e)
    ensures EndCallback(w, s, o).history.log == w.history.log
    ensures EndCallback(w, s, o).history.entered == w.history.entered
  {
    hide Finish, Resume, Settle;
    assert SubscriberOk(w, w.subscribers[s]);
    var d := w.subscribers[s].derived;
    match o
    case Returned(v) => FinishEnters(w, s, ConclusionCall(w, d, v, true), v, true);
    case Thrown(e) =>
      SettleResolves(RecordCall(w, d, RejectCall(e)), d, e, false);
      ResumeEnters(CallReject(w, d, e), s, OwnerData(w, s), true);
  }

  // ---------------------------------------------------------------- every run

  /** The calls made for s: none before it is invoked, then those for its owner's outcome. */
  ghost predicate CalledAsDue(w: World, s: nat) {
    CallsOf(w.history.entered, s)
      == if s in w.history.log && s < |w.subscribers| && w.subscribers[s].owner < |w.promises|
         then UserCalls(s, w.subscribers[s], w.promises[w.subscribers[s].owner]) else []
  }

  ghost predicate CallsInv(w: World) {
    Structure(w) && forall s: nat :: CalledAsDue(w, s)
  }

  /** Who is in the log is a subscriber whose owner is final. */
  lemma LoggedFinal(w: World, s: nat)
    requires Structure(w) && s in w.history.log
    ensures s < |w.subscribers| && FinalAt(w.promises, w.subscribers[s].owner)
  {
    var i :| 0 <= i < |w.history.log| && w.history.log[i] == s;
    assert Line(w)[i] == s;
  }

  /** A subscriber whose owner is final keeps what it would call. */
  lemma CallsStay(w: World, w': World, s: nat)
    requires Advances(w, w') && s < |w.subscribers| && FinalAt(w.promises, w.subscribers[s].owner)
    ensures s < |w'.subscribers| && w'.subscribers[s] == w.subscribers[s]
    ensures w.subscribers[s].owner < |w'.promises|
    ensures UserCalls(s, w'.subscribers[s], w'.promises[w'.subscribers[s].owner])
      == UserCalls(s, w.subscribers[s], w.promises[w.subscribers[s].owner])
  {
    var p := w.subscribers[s].owner;
    assert SettlesOnce(w.promises[p], w'.promises[p], w.history.trails[p], w'.history.trails[p]);
  }

  lemma UserCallsOf(s: nat, sub: Subscriber, owner: Promise, x: nat)
    ensures CallsOf(UserCalls(s, sub, owner), x) == if x == s then UserCalls(s, sub, owner) else []
  {
    var calls := UserCalls(s, sub, owner);
    if calls != [] { assert calls == [] + [calls[0]] && calls[..0] == []; }
  }

  lemma StayDue(w: World, w': World, s: nat)
    requires Structure(w) && Advances(w, w') && CalledAsDue(w, s)
    requires w'.history.log == w.history.log && w'.history.entered == w.history.entered
    ensures CalledAsDue(w', s)
  {
    hide Structure, Advances, UserCalls, CallsOf;
    if s in w.history.log {
      LoggedFinal(w, s);
      CallsStay(w, w', s);
    }
  }

  lemma InvokedDue(w: World, w': World, s: nat, x: nat)
    requires Structure(w) && Advances(w, w') && CalledAsDue(w, x) && s !in w.history.log
    requires s < |w.subscribers| && FinalAt(w.promises, w.subscribers[s].owner)
    requires w'.history.log == w.history.log + [s]
    requires w'.history.entered
      == w.history.entered + UserCalls(s, w.subscribers[s], w.promises[w.subscribers[s].owner])
    ensures CalledAsDue(w', x)
  {
    hide Structure, Advances, UserCalls, CallsOf;
    var sub := w.subscribers[s];
    CallsAppend(w.history.entered, UserCalls(s, sub, w.promises[sub.owner]), x);
    UserCallsOf(s, sub, w.promises[sub.owner], x);
    if x == s {
      CallsStay(w, w', s);
    } else if x in w.history.log {
      LoggedFinal(w, x);
      CallsStay(w, w', x);
    }
  }

  lemma StepKeepsCalls(w: World, e: Event)
    requires CallsInv(w) && Enabled(w, e)
    ensures CallsInv(Apply(w, e))
  {
    hide Apply, PhasesOf, PlacesOf, Schedule, Fifo, ControlInv, Advances, UserCalls, CallsOf, CalledAsDue;
    var w' := Apply(w, e);
    if UserEvent(e) { UserStepKeeps(w, e); } else { EngineStepKeeps(w, e); }
    StepAdvances(w, e);
    if e.CallbackBegins? { InvocationEnters(w); } else { OtherStepEnters(w, e); }
    forall s: nat ensures CalledAsDue(w', s) {
      assert CalledAsDue(w, s);
      if e.CallbackBegins? { InvokedDue(w, w', w.control.work[0], s); } else { StayDue(w, w', s); }
    }
  }

  lemma {:induction false} RunsKeepCalls(w: World, es: seq<Event>)
    requires CallsInv(w)
    ensures Exec(w, es).Some? ==> CallsInv(Exec(w, es).value)
    decreases |es|
  {
    hide CalledAsDue, Apply;
    if es != [] && Enabled(w, es[0]) {
      StepKeepsCalls(w, es[0]);
      RunsKeepCalls(Apply(w, es[0]), es[1..]);
    }
  }

  lemma ReachableCalls(w: World)
    requires Reachable(w)
    ensures CallsInv(w)
  {
    hide CallsInv;
    EmptyCalls();
    var es :| Exec(EMPTY_WORLD, es) == Some(w);
    RunsKeepCalls(EMPTY_WORLD, es);
  }

  lemma EmptyCalls()
    ensures CallsInv(EMPTY_WORLD)
  {
    EmptyStructure();
  }

  /**
    Subscriber s, made by `p.then(f, r)` with derived promise d: once it is invoked, p is final, and the callback
    given for that outcome, if it is a function, was called exactly once and with that outcome; the other one
    never, and none before.
  */
  ghost predicate CalledRight(w: World, s: nat, p: nat, d: nat, f: Callback, r: Callback) {
    && p < |w.promises| && s < |w.subscribers| && w.subscribers[s] == Subscriber(p, d, f, r)
    && var calls, owner := CallsOf(w.history.entered, s), w.promises[p];
      && (s !in w.history.log ==> calls == [])
      && (s in w.history.log ==>
            && (owner.phase == Fulfilled || owner.phase == Rejected)
            && (owner.phase == Fulfilled && f.User? ==> calls == [Entered(s, f.f, owner.data)])
            && (owner.phase == Fulfilled && f.Absent? ==> calls == [])
            && (owner.phase == Rejected && r.User? ==> calls == [Entered(s, r.f, owner.data)])
            && (owner.phase == Rejected && r.Absent? ==> calls == []))
  }

  lemma CallsAreRight(w: World, s: nat)
    requires CallsInv(w) && s < |w.subscribers|
    ensures var sub := w.subscribers[s]; CalledRight(w, s, sub.owner, sub.derived, sub.onFulfil, sub.onReject)
  {
    hide PhasesOf, PlacesOf, Schedule, Fifo, ControlInv, CallsOf;
    assert CalledAsDue(w, s) && SubscriberOk(w, w.subscribers[s]);
    if s in w.history.log { LoggedFinal(w, s); }
  }

  /**
    Over every run from a call of `then`, its callbacks are called as they should be. When all is quiet, its
    subscriber has been invoked if the promise has settled.
  */
  lemma CallbackCalled(w: World, p: nat, f: Callback, r: Callback, es: seq<Event>)
    requires Reachable(w) && WF(w) && Enabled(w, DoThen(p, f, r)) && Exec(Apply(w, DoThen(p, f, r)), es).Some?
    ensures
      var s, w' := |w.subscribers|, Exec(Apply(w, DoThen(p, f, r)), es).value;
      && CalledRight(w', s, p, |w.promises|, f, r)
      && (Quiescent(w') && w'.promises[p].phase != Pending ==> s in w'.history.log)
  {
    hide Structure, CalledAsDue, CalledRight, Advances, Subscribe, Quiescent;
    var e, s := DoThen(p, f, r), |w.subscribers|;
    ReachableCalls(w);
    StepKeepsCalls(w, e);
    RunsKeepCalls(Apply(w, e), es);
    SubscriberStays(w, p, f, r, es);
    var w' := Exec(Apply(w, e), es).value;
    CallsAreRight(w', s);
    assert p < |w'.promises| by { OwnerIn(w', s); }
    if Quiescent(w') && w'.promises[p].phase != Pending { QuietIsInvoked(w, e, es, s); }
  }

  lemma OwnerIn(w: World, s: nat)
    requires WF(w) && s < |w.subscribers|
    ensures w.subscribers[s].owner < |w.promises|
  {
    assert SubscriberOk(w, w.subscribers[s]);
  }

  lemma SubscriberStays(w: World, p: nat, f: Callback, r: Callback, es: seq<Event>)
    requires Structure(w) && Enabled(w, DoThen(p, f, r)) && Structure(Apply(w, DoThen(p, f, r)))
    requires Exec(Apply(w, DoThen(p, f, r)), es).Some?
    ensures
      var s, w' := |w.subscribers|, Exec(Apply(w, DoThen(p, f, r)), es).value;
      s < |w'.subscribers| && w'.subscribers[s] == Subscriber(p, |w.promises|, f, r)
  {
    hide PhasesOf, PlacesOf, Schedule, Fifo, ControlInv;
    var w1 := Apply(w, DoThen(p, f, r));
    RunsAdvance(w1, es);
    assert w1.subscribers[|w.subscribers|] == Subscriber(p, |w.promises|, f, r);
  }

  lemma QuietIsInvoked(w: World, e: Event, es: seq<Event>, s: nat)
    requires Reachable(w) && WF(w) && Enabled(w, e) && Exec(Apply(w, e), es).Some?
    requires s < |Exec(Apply(w, e), es).value.subscribers| && Quiescent(Exec(Apply(w, e), es).value)
    requires Exec(Apply(w, e), es).value.promises[Owner(Exec(Apply(w, e), es).value, s)].phase != Pending
    ensures s in Exec(Apply(w, e), es).value.history.log
  {
    hide Apply, Quiescent;
    var w' := Exec(Apply(w, e), es).value;
    RunsStep(w, e);
    RunsTrans(w, Apply(w, e), w');
    RunsTrans(EMPTY_WORLD, w, w');
    QuiescentInvoked(w', s);
  }
}
