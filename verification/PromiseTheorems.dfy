/** The promises the scheduler keeps to its users, for every run. */
module PromiseTheorems {
  import opened Basics
  import opened PromiseWorld
  import opened PromiseStructure
  import opened PromiseProgress
  import opened PromiseFates
  import opened PromiseAdoption

  // ---------------------------------------------------------------- where subscribers are

  /** No engine code runs and nothing is queued. */
  ghost predicate Quiescent(w: World) { w.control.Idle? && w.pending == [] }

  /** The subscribers of s's owner that still wait in its `_then`. */
  function WaitingWith(w: World, s: nat): seq<nat>
    requires WF(w) && s < |w.subscribers|
  {
    assert SubscriberOk(w, w.subscribers[s]);
    var rec := w.promises[w.subscribers[s].owner];
    if Final(rec.phase) || rec.subs.None? then [] else rec.subs.value
  }

  lemma {:induction false} CountDistinct(line: seq<nat>, x: nat)
    requires Distinct(line)
    ensures multiset(line)[x] == if x in line then 1 else 0
  {
    if line != [] {
      assert line == [line[0]] + line[1..];
      CountDistinct(line[1..], x);
    }
  }

  lemma OrderedDistinct(subscribers: seq<Subscriber>, line: seq<nat>)
    requires Ordered(subscribers, line)
    ensures Distinct(line)
  {
    forall i, j | 0 <= i < j < |line| ensures line[i] != line[j] {
      assert InOrder(subscribers, line[i], line[j]);
    }
  }

  /** Every subscriber is in exactly one place: its owner's `_then`, the queue, the running task, or the log. */
  lemma OnePlace(w: World, s: nat)
    requires Reachable(w) && WF(w) && s < |w.subscribers|
    ensures multiset(WaitingWith(w, s))[s] + multiset(Invokes(w.pending))[s]
          + multiset(Work(w.control))[s] + multiset(w.history.log)[s] == 1
  {
    ReachableStructure(w);
    var p, line := w.subscribers[s].owner, Line(w);
    assert PlaceInv(s, w.promises, p, line) && WaitingInv(p, w.promises[p], w.subscribers);
    OrderedDistinct(w.subscribers, line);
    CountDistinct(line, s);
    assert multiset(line)[s] ==
      multiset(w.history.log)[s] + multiset(Work(w.control))[s] + multiset(Invokes(w.pending))[s];
    if Final(w.promises[p].phase) {
      assert WaitingWith(w, s) == [];
    } else {
      OrderedDistinct(w.subscribers, w.promises[p].subs.value);
      CountDistinct(WaitingWith(w, s), s);
      forall i | 0 <= i < |line| ensures line[i] != s {
        assert FinalAt(w.promises, w.subscribers[line[i]].owner);
      }
    }
  }

  lemma {:induction false} CountTasks(ts: seq<Task>, t: Task)
    requires Distinct(ts)
    ensures multiset(ts)[t] == if t in ts then 1 else 0
  {
    if ts != [] {
      assert ts == [ts[0]] + ts[1..];
      CountTasks(ts[1..], t);
    }
  }

  /**
    A promise is SETTLED exactly while one publish task for it is queued; its `_then` is still there when that
    one starts.
  */
  lemma OnePublish(w: World, p: nat)
    requires Reachable(w) && p < |w.promises|
    ensures multiset(w.pending)[PublishFulfil(p)] + multiset(w.pending)[PublishReject(p)]
         == if w.promises[p].phase == Settled then 1 else 0
    ensures w.promises[p].phase == Settled ==> w.promises[p].subs.Some?
  {
    ReachableStructure(w);
    assert PhaseInv(p, w.promises[p], w.history.trails[p].decided, w.pending, Published(w.control) == Some(p));
    CountTasks(w.pending, PublishFulfil(p));
    CountTasks(w.pending, PublishReject(p));
  }

  /** When everything is quiet, the subscribers of settled promises have been invoked once and the others not at all. */
  lemma QuiescentInvoked(w: World, s: nat)
    requires Reachable(w) && Quiescent(w) && WF(w) && s < |w.subscribers|
    ensures w.promises[Owner(w, s)].phase != Settled
    ensures multiset(w.history.log)[s] == if w.promises[Owner(w, s)].phase == Pending then 0 else 1
  {
    ReachableStructure(w);
    var p := w.subscribers[s].owner;
    OnePlace(w, s);
    OnePublish(w, p);
    assert PlaceInv(s, w.promises, p, Line(w)) && Line(w) == w.history.log;
    assert WaitingInv(p, w.promises[p], w.subscribers);
    if w.promises[p].phase == Pending {
      assert s in WaitingWith(w, s);
      assert multiset(WaitingWith(w, s))[s] > 0;
    }
  }

  function Owner(w: World, s: nat): (p: nat)
    requires WF(w) && s < |w.subscribers|
    ensures p < |w.promises|
  {
    assert SubscriberOk(w, w.subscribers[s]);
    w.subscribers[s].owner
  }

  // ---------------------------------------------------------------- order and asynchrony

  /** Queued work has exactly one flush scheduled or running, and tasks start in the order they were queued. */
  lemma FlushDue(w: World)
    requires Reachable(w)
    ensures w.scheduled + FlushesRunning(w) <= 1
    ensures w.pending != [] ==> w.scheduled + FlushesRunning(w) == 1
    ensures w.history.started + w.pending == w.history.enqueued
  {
    ReachableStructure(w);
  }

  /** Callbacks of one promise run in the order they were registered. */
  lemma CallbackOrder(w: World, s: nat, t: nat, j: nat)
    requires Reachable(w) && WF(w) && s < t < |w.subscribers| && Owner(w, s) == Owner(w, t)
    requires j < |w.history.log| && w.history.log[j] == t
    ensures exists i :: 0 <= i < j && w.history.log[i] == s
  {
    ReachableStructure(w);
    var p, line := Owner(w, s), Line(w);
    assert line[j] == t;
    assert FinalAt(w.promises, w.subscribers[line[j]].owner);
    assert PlaceInv(s, w.promises, p, line);
    forall k | j < k < |line| ensures line[k] != s {
      assert InOrder(w.subscribers, line[j], line[k]);
    }
    var i :| 0 <= i < |line| && line[i] == s;
    assert w.history.log[i] == s;
  }

  lemma {:induction false} AllLoopLog(w: World, a: nat, i: nat)
    requires WF(w) && a < |w.aggregates| && i <= |w.aggregates[a].items|
    requires forall v <- w.aggregates[a].items :: ValueOk(w, v)
    ensures AllLoop(w, a, i).history.log == w.history.log && AllLoop(w, a, i).control == w.control
    ensures AllLoop(w, a, i).history.entered == w.history.entered
    decreases |w.aggregates[a].items| - i
  {
    hide WF, AllLoop, AllEntry, ValueOk;
    AllLoopStep(w, a, i);
    if i < |w.aggregates[a].items| {
      AllEntryLog(w, a, i);
      AllLoopLog(AllEntry(w, a, i), a, i + 1);
    }
  }

  lemma AllEntryLog(w: World, a: nat, i: nat)
    requires WF(w) && a < |w.aggregates| && i < |w.aggregates[a].items|
    requires forall v <- w.aggregates[a].items :: ValueOk(w, v)
    ensures AllEntry(w, a, i).history.log == w.history.log && AllEntry(w, a, i).control == w.control
    ensures AllEntry(w, a, i).history.entered == w.history.entered
  {
  }

  lemma AllLog(w: World, items: seq<Value>)
    requires WF(w) && forall v <- items :: ValueOk(w, v)
    ensures All(w, items).history.log == w.history.log && All(w, items).control == w.control
    ensures All(w, items).history.entered == w.history.entered
  {
    var a := |w.aggregates|;
    AllLoopLog(AllBegin(w, items), a, 0);
    var w1 := AllLoop(AllBegin(w, items), a, 0);
    assert AggregateOk(w1, w1.aggregates[a]);
    CallLog(w1, w1.aggregates[a].target, ResultArray(a));
  }

  lemma CallLog(w: World, p: nat, v: Value)
    requires WF(w) && p < |w.promises| && ValueOk(w, v)
    ensures CallResolve(w, p, v).history.log == w.history.log && CallResolve(w, p, v).control == w.control
    ensures CallResolve(w, p, v).history.entered == w.history.entered
  {
    ResolveResolves(RecordCall(w, p, ResolveCall(v, |w.subscribers|)), p, v);
  }

  lemma LatchLog(w: World, l: nat, v: Value)
    requires WF(w) && l < |w.latches| && ValueOk(w, v)
    ensures LatchResolve(w, l, v).history.log == w.history.log && LatchResolve(w, l, v).control == w.control
    ensures LatchResolve(w, l, v).history.entered == w.history.entered
  {
    ResolveResolves(CloseLatch(w, l), w.latches[l].target, v);
  }

  /**
    No user code, `then` included, runs a callback on the spot: callbacks start only with no user code on the
    stack.
  */
  lemma ThenIsAsynchronous(w: World, e: Event)
    requires WF(w) && Enabled(w, e)
    ensures UserEvent(e) ==> Apply(w, e).history.log == w.history.log && Apply(w, e).control == w.control
    ensures e.CallbackBegins? ==> !UserRuns(w)
  {
    match e
    case DoAll(items) => AllLog(w, items);
    case DoResolve(p, v) => CallLog(w, p, v);
    case ThenableResolves(l, v) => LatchLog(w, l, v);
    case _ =>
  }

  /** The engine never gets stuck: while it runs or has work queued, one of its own steps is possible. */
  lemma NeverStuck(w: World)
    requires Reachable(w) && WF(w) && !Quiescent(w)
    ensures
      || Enabled(w, FlushBegins) || Enabled(w, TaskStarts) || Enabled(w, CallbackBegins)
      || Enabled(w, CallbackEnds(Returned(Undefined))) || Enabled(w, ThenableEnds) || Enabled(w, TaskEnds)
      || Enabled(w, FlushEnds)
  {
    hide Structure, WF, UserRuns;
    ReachableStructure(w);
    if w.control.Idle? { IdleStarts(w); } else { FlushGoesOn(w); }
  }

  lemma IdleStarts(w: World)
    requires Structure(w) && w.control.Idle? && w.pending != []
    ensures Enabled(w, FlushBegins)
  {
    hide PhasesOf, PlacesOf, Fifo, ControlInv;
  }

  lemma FlushGoesOn(w: World)
    requires Structure(w) && w.control.Flushing?
    ensures
      || Enabled(w, TaskStarts) || Enabled(w, CallbackBegins) || Enabled(w, CallbackEnds(Returned(Undefined)))
      || Enabled(w, ThenableEnds) || Enabled(w, TaskEnds) || Enabled(w, FlushEnds)
  {
    hide PhasesOf, PlacesOf, Schedule, Fifo, UserRuns;
    if w.control.call.InCallback? {
      assert Enabled(w, CallbackEnds(Returned(Undefined)));
    } else if w.control.call.InThenable? {
      assert Enabled(w, ThenableEnds);
    }
  }

  // ---------------------------------------------------------------- settling

  /** Over every run: a promise that has left PENDING keeps its data, and once final keeps its phase. */
  lemma SettleOnce(w: World, es: seq<Event>, p: nat)
    requires Reachable(w) && WF(w) && Exec(w, es).Some? && p < |w.promises|
    ensures var w' := Exec(w, es).value;
      && p < |w'.promises|
      && SettlesOnce(w.promises[p], w'.promises[p], w.history.trails[p], w'.history.trails[p])
  {
    ReachableStructure(w);
    RunsAdvance(w, es);
  }

  /** After a thenable has called either of its two functions, calling them again never changes anything. */
  lemma LatchOnce(w: World, l: nat, first: Event, es: seq<Event>, v: Value)
    requires Reachable(w) && WF(w) && Enabled(w, first)
    requires (first.ThenableResolves? || first.ThenableRejects?) && first.l == l
    requires Exec(Apply(w, first), es).Some? && ValueOk(Exec(Apply(w, first), es).value, v)
    ensures var w' := Exec(Apply(w, first), es).value;
      l < |w'.latches| && LatchResolve(w', l, v) == w' && LatchReject(w', l, v) == w' && LatchThrow(w', l, v) == w'
  {
    ReachableStructure(w);
    UserStepKeeps(w, first);
    var w1 := Apply(w, first);
    ResolveLatch(w, l, first);
    RunsAdvance(w1, es);
    assert LatchStays(w1.latches[l], Exec(w1, es).value.latches[l]);
  }

  /** p is pending in w and no longer so in w', which e led to; e called p's resolvers or used a latch open for p. */
  ghost predicate SettledBetween(w: World, w': World, e: Event, p: nat) {
    && p < |w.promises| && w.promises[p].phase == Pending && p < |w'.promises| && w'.promises[p].phase != Pending
    && (Called(w, w', p) || OpenUsed(w, e, p))
  }

  ghost predicate SettlesAt(w: World, es: seq<Event>, p: nat, k: nat)
    requires WF(w)
  {
    && k < |es| && Exec(w, es[..k]).Some? && Exec(w, es[..k + 1]).Some?
    && SettledBetween(Exec(w, es[..k]).value, Exec(w, es[..k + 1]).value, es[k], p)
  }

  /**
    A promise that a run settles, with whatever resolver calls and adoptions before and after, leaves PENDING at one
    event of the run, and the outcome it gets there is the one it ends with.
  */
  lemma FirstSettles(w: World, es: seq<Event>, p: nat) returns (k: nat)
    requires Reachable(w) && WF(w) && p < |w.promises| && w.promises[p].phase == Pending && Exec(w, es).Some?
    requires p < |Exec(w, es).value.promises| && Exec(w, es).value.promises[p].phase != Pending
    ensures SettlesAt(w, es, p, k) && forall j: nat :: SettlesAt(w, es, p, j) ==> j == k
    ensures var w1, w' := Exec(w, es[..k + 1]).value, Exec(w, es).value;
      && p < |w1.history.trails| && p < |w'.history.trails|
      && SettledAs(w1.promises[p], w1.history.trails[p], w'.promises[p].data, w'.history.trails[p].decided)
  {
    hide AdoptInv, SettlesAt;
    ReachableAdoption(w);
    k := SettlingEvent(w, es, p);
    forall j: nat | SettlesAt(w, es, p, j) ensures j == k {
      if j < k { SettledBefore(w, es, p, j, k); }
      if k < j { SettledBefore(w, es, p, k, j); }
    }
    SplitRun(w, es, k + 1);
    KeptByRun(w, es, p, k);
  }

  /** The part of a run before i and the part from i on. */
  lemma {:induction false} SplitRun(w: World, es: seq<Event>, i: nat)
    requires WF(w) && Exec(w, es).Some? && i <= |es|
    ensures Exec(w, es[..i]).Some? && Exec(Exec(w, es[..i]).value, es[i..]) == Exec(w, es)
    decreases |es|
  {
    if i == 0 {
      assert es[..0] == [] && es[0..] == es;
    } else {
      ExecHead(w, es);
      SplitRun(Apply(w, es[0]), es[1..], i - 1);
      ExecHead(w, es[..i]);
      assert es[..i][0] == es[0] && es[..i][1..] == es[1..][..i - 1] && es[1..][i - 1..] == es[i..];
    }
  }

  lemma KeptByRun(w: World, es: seq<Event>, p: nat, k: nat)
    requires AdoptInv(w) && Exec(w, es).Some? && SettlesAt(w, es, p, k)
    ensures var w1, w' := Exec(w, es[..k + 1]).value, Exec(w, es).value;
      && p < |w1.promises| && p < |w'.promises| && p < |w1.history.trails| && p < |w'.history.trails|
      && SettledAs(w1.promises[p], w1.history.trails[p], w'.promises[p].data, w'.history.trails[p].decided)
  {
    hide PhasesOf, PlacesOf, Schedule, Fifo, ControlInv, Links, Settlements, SelfInv, HandedInv, Advances, Called,
      OpenUsed;
    var w1 := Exec(w, es[..k + 1]).value;
    SplitRun(w, es, k + 1);
    RunsAdvance(w, es[..k + 1]);
    RunsAdvance(w1, es[k + 1..]);
    StaysSettled(w1, Exec(w, es).value, p);
  }

  lemma StaysSettled(w: World, w': World, p: nat)
    requires Advances(w, w') && p < |w.promises| && w.promises[p].phase != Pending
    ensures p < |w'.promises| && p < |w.history.trails| && p < |w'.history.trails| && w'.promises[p].phase != Pending
    ensures SettledAs(w.promises[p], w.history.trails[p], w'.promises[p].data, w'.history.trails[p].decided)
  {
    assert SettlesOnce(w.promises[p], w'.promises[p], w.history.trails[p], w'.history.trails[p]);
  }

  lemma SettledBefore(w: World, es: seq<Event>, p: nat, j: nat, k: nat)
    requires AdoptInv(w) && Exec(w, es).Some? && SettlesAt(w, es, p, j) && j < k
    ensures !SettlesAt(w, es, p, k)
  {
    hide SelfInv, HandedInv, Links, Settlements, Advances;
    if k < |es| {
      var w1 := Exec(w, es[..j + 1]).value;
      SplitRun(w, es, k);
      assert es[..k][..j + 1] == es[..j + 1];
      SplitRun(w, es[..k], j + 1);
      RunsAdvance(w, es[..j + 1]);
      RunsAdvance(w1, es[..k][j + 1..]);
      StaysSettled(w1, Exec(w, es[..k]).value, p);
    }
  }

  lemma ExecTake(w: World, es: seq<Event>, j: nat)
    requires WF(w) && j < |es| && Enabled(w, es[0])
    ensures Exec(w, es[..j + 1]) == Exec(Apply(w, es[0]), es[1..][..j])
  {
    assert es[..j + 1][0] == es[0] && es[..j + 1][1..] == es[1..][..j];
    ExecHead(w, es[..j + 1]);
  }

  lemma {:induction false} SettlingEvent(w: World, es: seq<Event>, p: nat) returns (k: nat)
    requires AdoptInv(w) && p < |w.promises| && w.promises[p].phase == Pending && Exec(w, es).Some?
    requires p < |Exec(w, es).value.promises| && Exec(w, es).value.promises[p].phase != Pending
    ensures k < |es| && SettlesAt(w, es, p, k)
    decreases |es|
  {
    hide SelfInv, HandedInv, Links, Settlements, Apply, SettledBetween, Effect;
    assert es != [];
    var e, w1 := es[0], Apply(w, es[0]);
    var x := EventEffect(w, e);
    StepKeepsAdoption(w, e);
    StepAdvances(w, e);
    if w1.promises[p].phase == Pending {
      var j := SettlingEvent(w1, es[1..], p);
      k := j + 1;
      ExecTake(w, es, j);
      ExecTake(w, es, j + 1);
    } else {
      k := 0;
      assert es[..0] == [] && es[..1] == [e];
      ExecOne(w, e);
      EffectSettles(w, w1, e, x, p);
    }
  }

  lemma EffectSettles(w: World, w': World, e: Event, x: nat, p: nat)
    requires Effect(w, w', e, x) && p < |w.promises| && w.promises[p].phase == Pending
    requires w'.promises[p].phase != Pending
    ensures SettledBetween(w, w', e, p)
  {
    var kept := Kept(w, w', p);
  }

  /**
    What one call of p's resolvers does, whatever came before: with a value that is not to be followed, or a
    rejection, it settles p exactly when p is still pending; with a thenable it leaves p as it was, and adds a
    latch through which the thenable may settle p later.
  */
  lemma ResolverTakesEffect(w: World, p: nat, v: Value)
    requires Structure(w) && p < |w.promises| && ValueOk(w, v)
    ensures var w', pending := CallResolve(w, p, v), w.promises[p].phase == Pending;
      && p < |w'.promises| && p < |w'.history.trails|
      && if IsThenable(v) && v != PromiseRef(p) then
           && w'.promises[p].phase == w.promises[p].phase && w'.promises[p].data == w.promises[p].data
           && w'.latches == w.latches + [Latch(p, v, false)]
         else
           && w'.latches == w.latches
           && (pending ==> SettledAs(w'.promises[p], w'.history.trails[p], v, Fulfilled))
           && (!pending ==> w'.promises == w.promises)
    ensures var w', pending := CallReject(w, p, v), w.promises[p].phase == Pending;
      && w'.latches == w.latches && p < |w'.promises| && p < |w'.history.trails|
      && (pending ==> SettledAs(w'.promises[p], w'.history.trails[p], v, Rejected))
      && (!pending ==> w'.promises == w.promises)
  {
    hide PhasesOf, PlacesOf, Schedule, Fifo, ControlInv, Settle, HandleThenable;
    var c := ResolveCall(v, |w.subscribers|);
    ResolveResolves(RecordCall(w, p, c), p, v);
    SettleResolves(RecordCall(w, p, c), p, v, true);
    SettleResolves(RecordCall(w, p, RejectCall(v)), p, v, false);
  }

  /**
    What a thenable's first function does when it or the second is used for the first time: it settles the promise
    if that is pending, with the thenable itself or with a value not to be followed, and else follows the value.
  */
  lemma FirstClosure(w: World, l: nat, v: Value)
    requires Structure(w) && l < |w.latches| && !w.latches[l].closed && ValueOk(w, v)
    ensures var w', latch := LatchResolve(w, l, v), w.latches[l]; var p := latch.target;
      && p < |w.promises| && p < |w'.promises| && p < |w'.history.trails|
      && if IsThenable(v) && v != latch.source && v != PromiseRef(p) then
           && w'.promises[p].phase == w.promises[p].phase && w'.promises[p].data == w.promises[p].data
           && w'.latches == w.latches[l := Latch(p, latch.source, true)] + [Latch(p, v, false)]
         else
           && w'.latches == w.latches[l := Latch(p, latch.source, true)]
           && (w.promises[p].phase == Pending ==> SettledAs(w'.promises[p], w'.history.trails[p], v, Fulfilled))
           && (w.promises[p].phase != Pending ==> w'.promises == w.promises)
  {
    hide PhasesOf, PlacesOf, Schedule, Fifo, ControlInv, Settle, HandleThenable;
    ResolveResolves(CloseLatch(w, l), w.latches[l].target, v);
    SettleResolves(CloseLatch(w, l), w.latches[l].target, v, true);
  }

  /** What its second function and a throw do then: both reject, but a throw does not use the latch up. */
  lemma SecondClosure(w: World, l: nat, r: Value)
    requires Structure(w) && l < |w.latches| && !w.latches[l].closed && ValueOk(w, r)
    ensures var w1, w2, latch := LatchReject(w, l, r), LatchThrow(w, l, r), w.latches[l]; var p := latch.target;
      && p < |w.promises| && w1.latches == w.latches[l := Latch(p, latch.source, true)] && w2.latches == w.latches
      && p < |w1.promises| && p < |w1.history.trails| && p < |w2.promises| && p < |w2.history.trails|
      && (w.promises[p].phase == Pending ==>
            && SettledAs(w1.promises[p], w1.history.trails[p], r, Rejected)
            && SettledAs(w2.promises[p], w2.history.trails[p], r, Rejected))
      && (w.promises[p].phase != Pending ==> w1.promises == w.promises && w2.promises == w.promises)
  {
    hide PhasesOf, PlacesOf, Schedule, Fifo, ControlInv, Settle;
    SettleResolves(CloseLatch(w, l), w.latches[l].target, r, false);
    SettleResolves(w, w.latches[l].target, r, false);
  }

  // ---------------------------------------------------------------- adoption

  ghost predicate ResolvedOnceWith(w: World, p: nat, q: nat) {
    && p < |w.history.trails| && p != q
    && |w.history.trails[p].calls| == 1 && w.history.trails[p].calls[0].ResolveCall?
    && w.history.trails[p].calls[0].v == PromiseRef(q)
  }

  /** An outcome a waiting promise takes over as it is: anything but fulfilment with a foreign thenable. */
  ghost predicate Carries(rec: Promise) { Final(rec.phase) && !(rec.phase == Fulfilled && rec.data.Thenable?) }

  ghost predicate SameEnd(rec: Promise, rec': Promise) { rec.phase == rec'.phase && rec.data == rec'.data }

  /** p, resolved once with q, is pending until q's outcome has been carried over, and has that outcome from then on. */
  lemma Adoption(w: World, p: nat, q: nat)
    requires Reachable(w) && p < |w.promises| && ResolvedOnceWith(w, p, q)
    ensures q < |w.promises| && q < |w.history.trails|
    ensures !Final(w.promises[q].phase) ==> w.promises[p].phase == Pending
    ensures Carries(w.promises[q]) && w.promises[p].phase != Pending ==>
      SettledAs(w.promises[p], w.history.trails[p], w.promises[q].data, w.promises[q].phase)
    ensures Carries(w.promises[q]) && Quiescent(w) ==> SameEnd(w.promises[p], w.promises[q])
  {
    hide PhasesOf, PlacesOf, Schedule, Fifo, ControlInv, Links, DerivedsBut, TokensBut, FatesBut, Reachable, Quiescent;
    ReachableAdoption(w);
    Pick(w, None, p);
    var s := w.history.trails[p].calls[0].adopter;
    assert LinkInv(w, p, q, s);
    if s in w.history.log { InvokedOwner(w, s); }
    if Carries(w.promises[q]) {
      DecidedIsPhase(w, q);
      if Quiescent(w) { InvokedWhenQuiet(w, s); }
      if s in w.history.log {
        var r, s' := Carrier(w, p, q, s);
        if Quiescent(w) {
          InvokedWhenQuiet(w, s');
          FinalWhenQuiet(w, p);
        }
      }
    }
  }

  /** The subscriber that carries q's outcome over: the one p followed q by, or the one it follows r by in turn. */
  lemma Carrier(w: World, p: nat, q: nat, s: nat) returns (r: nat, s': nat)
    requires AdoptInv(w) && Follows(w, p, s) && w.history.trails[p].calls[0].v == PromiseRef(q)
    requires LinkInv(w, p, q, s) && s in w.history.log && Carries(w.promises[q])
    requires w.history.trails[q].decided == w.promises[q].phase
    ensures LinkInv(w, p, r, s') && Transparent(p, r, w.promises[r], w.history.trails[r])
    ensures SettledAs(w.promises[r], w.history.trails[r], w.promises[q].data, w.promises[q].phase)
  {
    hide InvBut;
    r, s' := q, s;
    if !Transparent(p, q, w.promises[q], w.history.trails[q]) {
      r := w.promises[q].data.p;
      assert HandedOn(w, p, r);
      s' :| LinkInv(w, p, r, s');
      assert SelfFulfilled(w, r);
    }
  }

  lemma InvokedWhenQuiet(w: World, s: nat)
    requires Reachable(w) && Quiescent(w) && s < |w.subscribers| && w.subscribers[s].owner < |w.promises|
    requires w.promises[w.subscribers[s].owner].phase != Pending
    ensures s in w.history.log
  {
    ReachableStructure(w);
    QuiescentInvoked(w, s);
    assert multiset(w.history.log)[s] > 0;
  }

  lemma FinalWhenQuiet(w: World, p: nat)
    requires Reachable(w) && Quiescent(w) && p < |w.promises| && w.promises[p].phase != Pending
    ensures p < |w.history.trails| && w.promises[p].phase == w.history.trails[p].decided
  {
    ReachableStructure(w);
    OnePublish(w, p);
    assert FinalAt(w.promises, p);
    DecidedIsPhase(w, p);
  }

  lemma ChainLink(w: World, p: nat, q: nat)
    requires Reachable(w) && Quiescent(w) && p < |w.promises| && q < |w.promises| && ResolvedOnceWith(w, p, q)
    requires Carries(w.promises[q])
    ensures SameEnd(w.promises[p], w.promises[q])
  {
    hide Quiescent, ResolvedOnceWith, Reachable;
    Adoption(w, p, q);
  }

  /** A chain of promises, each resolved once with the next, all take the outcome of the last. */
  lemma {:induction false} AdoptionChain(w: World, ps: seq<nat>)
    requires Reachable(w) && Quiescent(w) && ps != []
    requires forall i :: 0 <= i < |ps| ==> ps[i] < |w.promises|
    requires forall i :: 0 <= i < |ps| - 1 ==> ResolvedOnceWith(w, ps[i], ps[i + 1])
    requires Carries(w.promises[ps[|ps| - 1]])
    ensures forall i :: 0 <= i < |ps| ==> SameEnd(w.promises[ps[i]], w.promises[ps[|ps| - 1]])
  {
    hide Reachable, Quiescent, ResolvedOnceWith;
    if |ps| > 1 {
      var rest := ps[1..];
      forall i | 0 <= i < |rest| - 1 ensures ResolvedOnceWith(w, rest[i], rest[i + 1]) {
        assert ResolvedOnceWith(w, ps[i + 1], ps[i + 2]);
      }
      AdoptionChain(w, rest);
      assert SameEnd(w.promises[rest[0]], w.promises[rest[|rest| - 1]]) && rest[0] == ps[1];
      ChainLink(w, ps[0], ps[1]);
      forall i | 0 <= i < |ps| ensures SameEnd(w.promises[ps[i]], w.promises[ps[|ps| - 1]]) {
        if i > 0 { assert ps[i] == rest[i - 1]; }
      }
    }
  }

  lemma ReachableStep(w: World, e: Event)
    requires Reachable(w) && WF(w) && Enabled(w, e)
    ensures Reachable(Apply(w, e))
  {
    assert Runs(EMPTY_WORLD, w);
    RunsStep(w, e);
    RunsTrans(EMPTY_WORLD, w, Apply(w, e));
  }

  /**
    The moment of adoption: the callback that carries q's outcome over to the waiting promise p settles p
    with it at once exactly when that outcome leaves nothing further to follow.
  */
  lemma AdoptionStep(w: World, p: nat, l: nat)
    requires Reachable(w) && WF(w) && Enabled(w, CallbackBegins)
    requires w.control.work[0] < |w.subscribers| && FollowsThrough(w, p, w.control.work[0], l)
    ensures var q := w.subscribers[w.control.work[0]].owner; var w' := Apply(w, CallbackBegins);
      && q < |w.promises| && p < |w'.promises| && p < |w'.history.trails|
      && (SettledAs(w'.promises[p], w'.history.trails[p], w.promises[q].data, w.promises[q].phase) <==>
          Transparent(p, q, w.promises[q], w.history.trails[q]))
  {
    hide PhasesOf, PlacesOf, Schedule, Fifo, ControlInv, LatchesInv, AdoptersInv, CombinedsInv, DerivedsBut,
      TokensBut, FatesBut, FateInv, Adopts, BeginCallback, Delivery;
    ReachableFates(w);
    var s := w.control.work[0];
    WorkIsNew(w);
    Awaits(w, p, s);
    LatchOf(w, s, l);
    BeginIsAdoption(w, l);
    DecidedIsPhase(w, w.subscribers[s].owner);
    DeliverySettles(w, CloseLatch(TakeWork(w), l), w.subscribers[s].owner, p);
  }

  /** After the events es, p, if its resolvers were not called again, is pending or has the outcome of rec. */
  ghost predicate AgreesAfter(w: World, es: seq<Event>, p: nat, rec: Promise)
    requires WF(w)
  {
    Exec(w, es).Some? ==>
      var w' := Exec(w, es).value;
      p < |w'.promises| && p < |w'.history.trails| && |w'.history.trails[p].calls| == 1 ==>
        w'.promises[p].phase == Pending || SettledAs(w'.promises[p], w'.history.trails[p], rec.data, rec.phase)
  }

  /**
    From the moment q's outcome is carried over to p, p never gets another outcome, whatever user code does,
    exactly when q was not fulfilled with a foreign thenable.
  */
  lemma AdoptionExact(w: World, p: nat, l: nat)
    requires Reachable(w) && WF(w) && Enabled(w, CallbackBegins)
    requires w.control.work[0] < |w.subscribers| && FollowsThrough(w, p, w.control.work[0], l)
    ensures var q := w.subscribers[w.control.work[0]].owner;
      q < |w.promises| && (Carries(w.promises[q]) <==>
        forall es :: AgreesAfter(Apply(w, CallbackBegins), es, p, w.promises[q]))
  {
    hide PhasesOf, PlacesOf, Schedule, Fifo, ControlInv, Links, Settlements, Reachable, BeginCallback, FollowsThrough,
      Carries;
    ReachableFates(w);
    WorkIsNew(w);
    ReachableStep(w, CallbackBegins);
    var w1, q := Apply(w, CallbackBegins), w.subscribers[w.control.work[0]].owner;
    if Carries(w.promises[q]) {
      forall es ensures AgreesAfter(w1, es, p, w.promises[q]) { AgreesLater(w, es, p, q, l); }
    } else {
      ForeignAsked(w, p, l);
    }
  }

  lemma AgreesLater(w: World, es: seq<Event>, p: nat, q: nat, l: nat)
    requires Reachable(w) && WF(w) && Enabled(w, CallbackBegins)
    requires w.control.work[0] < |w.subscribers| && FollowsThrough(w, p, w.control.work[0], l)
    requires q == w.subscribers[w.control.work[0]].owner < |w.promises| && Carries(w.promises[q])
    ensures AgreesAfter(Apply(w, CallbackBegins), es, p, w.promises[q])
  {
    hide PhasesOf, PlacesOf, Schedule, Fifo, ControlInv, Links, Settlements, Reachable, BeginCallback;
    var w1 := Apply(w, CallbackBegins);
    if Exec(w1, es).Some? {
      var w' := Exec(w1, es).value;
      ReachableFates(w);
      FollowedBy(w, p, w.control.work[0]);
      DecidedIsPhase(w, q);
      RunsStep(w, CallbackBegins);
      assert Runs(w1, w');
      RunsTrans(w, w1, w');
      var fs :| Exec(w, fs) == Some(w');
      RunsAdvance(w, fs);
      ReachableRun(w, w');
      assert SettlesOnce(w.promises[q], w'.promises[q], w.history.trails[q], w'.history.trails[q]);
      assert TrailGrows(w.history.trails[p], w'.history.trails[p]);
      if |w'.history.trails[p].calls| == 1 { Adoption(w', p, q); }
    }
  }

  lemma FollowedBy(w: World, p: nat, s: nat)
    requires InvBut(w, None, None) && Follows(w, p, s)
    ensures p < |w.promises| && s < |w.subscribers|
    ensures w.history.trails[p].calls[0].v == PromiseRef(w.subscribers[s].owner)
  {
    Pick(w, None, p);
  }

  lemma ReachableRun(w: World, w': World)
    requires Reachable(w) && WF(w) && WF(w') && Runs(w, w')
    ensures Reachable(w')
  {
    assert Runs(EMPTY_WORLD, w);
    RunsTrans(EMPTY_WORLD, w, w');
  }

  /** A foreign thenable carried over is asked again, and can answer something else. */
  lemma ForeignAsked(w: World, p: nat, l: nat)
    requires Reachable(w) && WF(w) && Enabled(w, CallbackBegins)
    requires w.control.work[0] < |w.subscribers| && FollowsThrough(w, p, w.control.work[0], l)
    requires w.subscribers[w.control.work[0]].owner < |w.promises|
    requires !Carries(w.promises[w.subscribers[w.control.work[0]].owner])
    ensures var q := w.subscribers[w.control.work[0]].owner;
      exists es :: !AgreesAfter(Apply(w, CallbackBegins), es, p, w.promises[q])
  {
    hide PhasesOf, PlacesOf, Schedule, Fifo, ControlInv, LatchesInv, AdoptersInv, CombinedsInv, DerivedsBut, TokensBut,
      FatesBut, FateInv, Reachable, BeginCallback;
    ReachableFates(w);
    WorkIsNew(w);
    var s := w.control.work[0];
    var q := w.subscribers[s].owner;
    Awaits(w, p, s);
    BeginIsAdoption(w, l);
    var w1 := Apply(w, CallbackBegins);
    var n, v := |w.latches|, w.promises[q].data;
    assert w1 == OpenLatch(CloseLatch(TakeWork(w), l), p, v);
    var e := ThenableResolves(n, Plain(0));
    AnswersPlain(w1, p, n, s);
    ExecOne(w1, e);
    assert !AgreesAfter(w1, [e], p, w.promises[q]);
  }

  lemma AnswersPlain(w: World, p: nat, n: nat, s: nat)
    requires WF(w) && n < |w.latches| && OpenFor(w.latches, n, p) && w.latches[n].source.Thenable?
    requires w.control.Flushing? && w.control.call == InCallback(s) && Slot(w, s).AdoptFulfil?
    requires OwnerData(w, s).Thenable?
    requires p < |w.promises| == |w.history.trails| && w.promises[p].phase == Pending
    ensures var e := ThenableResolves(n, Plain(0));
      && Enabled(w, e)
      && var w' := Apply(w, e);
         && p < |w'.promises| && p < |w'.history.trails|
         && SettledAs(w'.promises[p], w'.history.trails[p], Plain(0), Fulfilled)
         && w'.history.trails[p].calls == w.history.trails[p].calls
  {
    hide Resolve;
    ResolveResolves(CloseLatch(w, n), p, Plain(0));
  }

  // ---------------------------------------------------------------- the promise `then` returns

  /** Once its one call is made, a derived promise's calls never change. */
  lemma DerivedCallsFixed(w: World, es: seq<Event>, s: nat)
    requires InvBut(w, None, None) && Exec(w, es).Some? && s < |w.subscribers|
    requires s in w.history.log && !InCallbackOf(w.control, s)
    ensures var w' := Exec(w, es).value; var d := w.subscribers[s].derived;
      && d < |w.promises| && d < |w'.promises| && InvBut(w', None, None)
      && w'.history.trails[d].calls == w.history.trails[d].calls
      && |w.history.trails[d].calls| == 1
  {
    var w', d := Exec(w, es).value, w.subscribers[s].derived;
    RunsAdvance(w, es);
    ExecKeepsFates(w, es);
    assert DerivedOrigin(w.subscribers[s], w.history.trails);
    assert DerivedInv(s, w.subscribers[s], w.history.trails, w.history.log, w.control);
    assert w'.subscribers[s] == w.subscribers[s];
    assert DerivedInv(s, w'.subscribers[s], w'.history.trails, w'.history.log, w'.control);
    assert TrailGrows(w.history.trails[d], w'.history.trails[d]);
  }

  /** The calls invokeCallback's outcome amounts to, for the derived promise d. */
  ghost predicate CalledWith(w: World, d: nat, v: Value, ok: bool) {
    && d < |w.history.trails| && |w.history.trails[d].calls| == 1
    && var c := w.history.trails[d].calls[0];
       if v == PromiseRef(d) then c == RejectCall(CycleError)
       else if ok || IsThenable(v) then c.ResolveCall? && c.v == v
       else c == RejectCall(v)
  }

  lemma ResumeCalls(w: World, s: nat, v: Value, ok: bool)
    requires WF(w) && s < |w.subscribers| && ValueOk(w, v)
    ensures var d := w.subscribers[s].derived; var w' := Resume(w, s, v, ok);
      && d < |w.promises| && w'.history.log == w.history.log && w.subscribers <= w'.subscribers
      && d < |w'.history.trails| && w'.history.trails[d].calls == w.history.trails[d].calls
      && (w.control.Flushing? ==> !InCallbackOf(w'.control, s))
  {
    assert SubscriberOk(w, w.subscribers[s]);
    var d := w.subscribers[s].derived;
    HandleResolves(w, d, v);
    ResolveResolves(w, d, v);
    SettleResolves(w, d, v, false);
  }

  /** d has just been resolved with the foreign thenable v: it is pending, with one latch open for it. */
  ghost predicate ForeignAwaited(w: World, d: nat, l: nat, v: Value) {
    AwaitsForeign(w, d, l, v) && OpenFor(w.latches, l, d) && w.promises[d].phase == Pending
  }

  lemma ResumeOpens(w: World, s: nat, d: nat, v: Value, ok: bool)
    requires WF(w) && s < |w.subscribers| && w.subscribers[s].derived == d && ValueOk(w, v) && v.Thenable?
    requires d < |w.promises| && w.promises[d].phase == Pending
    ensures var w' := Resume(w, s, v, ok);
      && w'.latches == w.latches + [Latch(d, v, false)] && d < |w'.promises| && w'.promises[d].phase == Pending
  {
    HandleResolves(w, d, v);
  }

  lemma AwaitsNow(w: World, d: nat, l: nat, v: Value)
    requires InvBut(w, None, None) && d < |w.promises| && |w.history.trails[d].calls| == 1 && v.Thenable?
    requires w.promises[d].phase == Pending && l < |w.latches| && w.latches[l] == Latch(d, v, false)
    ensures ForeignAwaited(w, d, l, v)
  {
    Pick(w, None, d);
  }

  lemma ReturnOpens(w: World, d: nat, v: Value)
    requires Structure(w) && Enabled(w, CallbackEnds(Returned(v))) && v.Thenable?
    requires w.subscribers[w.control.call.s].derived == d && Unsettled(w, d)
    ensures var w1 := Apply(w, CallbackEnds(Returned(v)));
      && w1.latches == w.latches + [Latch(d, v, false)] && d < |w1.promises| && w1.promises[d].phase == Pending
  {
    hide PhasesOf, PlacesOf, Schedule, Fifo, ControlInv, Resume;
    ResumeOpens(RecordCall(w, d, ConclusionCall(w, d, v, true)), w.control.call.s, d, v, true);
  }

  /** Section 2.2.7 of Promises/A+: what a callback returned or threw is what the derived promise becomes, for good. */
  lemma ThenOutcome(w: World, o: Outcome, es: seq<Event>)
    requires Reachable(w) && WF(w) && Enabled(w, CallbackEnds(o)) && Exec(Apply(w, CallbackEnds(o)), es).Some?
    ensures var w' := Exec(Apply(w, CallbackEnds(o)), es).value; var d := w.subscribers[w.control.call.s].derived;
      && d < |w'.promises| && d < |w'.history.trails|
      && match o
         case Thrown(e) => SettledAs(w'.promises[d], w'.history.trails[d], e, Rejected)
         case Returned(v) =>
           if v == PromiseRef(d) then SettledAs(w'.promises[d], w'.history.trails[d], CycleError, Rejected)
           else if v.PromiseRef? then ResolvedOnceWith(w', d, v.p)
           else if v.Thenable? then AwaitsForeign(w', d, |w.latches|, v)
           else SettledAs(w'.promises[d], w'.history.trails[d], v, Fulfilled)
    ensures o.Returned? && o.v.Thenable? ==>
      ForeignAwaited(Apply(w, CallbackEnds(o)), w.subscribers[w.control.call.s].derived, |w.latches|, o.v)
  {
    hide PhasesOf, PlacesOf, Schedule, Fifo, ControlInv, Links, DerivedsBut, TokensBut, FatesBut, FateInv, CalledWith,
      EndCallback, SettledAs, ResolvedOnceWith, AwaitsForeign, SelfInv, HandedInv;
    ReachableAdoption(w);
    EndIsOpen(w, o);
    StepKeepsAdoption(w, CallbackEnds(o));
    OutcomeCalls(w, o);
    var s := w.control.call.s;
    var d, w1 := w.subscribers[s].derived, Apply(w, CallbackEnds(o));
    DerivedCallsFixed(w1, es, s);
    var w' := Exec(w1, es).value;
    Pick(w', None, d);
    match o {
      case Returned(v) =>
        SameCalls(w1, w', d, v, true);
        FateFrom(w', d, v, true);
        if v.Thenable? {
          ReturnOpens(w, d, v);
          AwaitsNow(w1, d, |w.latches|, v);
          ForeignOnward(w1, es, d, |w.latches|, v);
        }
      case Thrown(e) => RejectFate(w', d, e);
    }
  }

  lemma EndIsOpen(w: World, o: Outcome)
    requires InvBut(w, None, None) && Enabled(w, CallbackEnds(o))
    ensures Calling(w, w.control.call.s) && Unsettled(w, w.subscribers[w.control.call.s].derived)
  {
    hide PhasesOf, PlacesOf, Schedule, Fifo, LatchesInv, AdoptersInv, CombinedsInv, DerivedsBut, TokensBut, FatesBut,
      FateInv;
    var s := w.control.call.s;
    assert w.history.log[|w.history.log| - 1] == s;
    CallingIsOpen(w, s);
  }

  lemma SameCalls(w: World, w': World, d: nat, v: Value, ok: bool)
    requires CalledWith(w, d, v, ok) && d < |w'.history.trails|
    requires w'.history.trails[d].calls == w.history.trails[d].calls
    ensures CalledWith(w', d, v, ok)
  {
  }

  /** What those calls make of the derived promise. */
  lemma FateFrom(w: World, d: nat, v: Value, ok: bool)
    requires CalledWith(w, d, v, ok) && FateInv(w, d)
    ensures v == PromiseRef(d) ==> SettledAs(w.promises[d], w.history.trails[d], CycleError, Rejected)
    ensures v.PromiseRef? && v.p != d ==> ResolvedOnceWith(w, d, v.p)
    ensures !v.PromiseRef? && !v.Thenable? ==>
      SettledAs(w.promises[d], w.history.trails[d], v, if ok then Fulfilled else Rejected)
  {
    hide LinkInv;
  }

  lemma RejectFate(w: World, d: nat, e: Value)
    requires FateInv(w, d) && w.history.trails[d].calls == [RejectCall(e)]
    ensures SettledAs(w.promises[d], w.history.trails[d], e, Rejected)
  {
    hide LinkInv;
  }

  lemma OutcomeCalls(w: World, o: Outcome)
    requires Structure(w) && Enabled(w, CallbackEnds(o))
    requires Unsettled(w, w.subscribers[w.control.call.s].derived)
    ensures var s := w.control.call.s; var d := w.subscribers[s].derived; var w1 := Apply(w, CallbackEnds(o));
      && w1.history.log == w.history.log && w.subscribers <= w1.subscribers && !InCallbackOf(w1.control, s)
      && d < |w1.history.trails|
      && (o.Thrown? ==> w1.history.trails[d].calls == [RejectCall(o.e)])
      && (o.Returned? ==> CalledWith(w1, d, o.v, true))
  {
    var s := w.control.call.s;
    var d := w.subscribers[s].derived;
    match o
    case Returned(v) =>
      var c := ConclusionCall(w, d, v, true);
      ResumeCalls(RecordCall(w, d, c), s, v, true);
    case Thrown(e) =>
      RejectCalled(w, d, e);
      ResumeCalls(CallReject(w, d, e), s, OwnerData(w, s), true);
  }

  /** The subscriber that comes next was given no function for its owner's outcome. */
  ghost predicate NothingToCall(w: World) {
    && w.control.Flushing? && w.control.work != [] && w.control.work[0] < |w.subscribers|
    && var sub := w.subscribers[w.control.work[0]];
      && sub.owner < |w.promises|
      && (w.promises[sub.owner].phase == Fulfilled ==> sub.onFulfil.Absent?)
      && (w.promises[sub.owner].phase == Rejected ==> sub.onReject.Absent?)
  }

  lemma NothingSlot(w: World)
    requires WF(w) && NothingToCall(w) && FinalAt(w.promises, w.subscribers[w.control.work[0]].owner)
    ensures Slot(w, w.control.work[0]).Absent?
    ensures OwnerData(w, w.control.work[0]) == w.promises[w.subscribers[w.control.work[0]].owner].data
  {
  }

  /** Without a callback for its owner's phase, a subscriber passes the outcome on, for good. */
  lemma PassThrough(w: World, es: seq<Event>)
    requires Reachable(w) && WF(w) && Enabled(w, CallbackBegins) && Exec(Apply(w, CallbackBegins), es).Some?
    requires NothingToCall(w)
    ensures var s := w.control.work[0]; var d, v := w.subscribers[s].derived, w.promises[w.subscribers[s].owner].data;
      var w', phase := Exec(Apply(w, CallbackBegins), es).value, w.promises[w.subscribers[s].owner].phase;
      && (phase == Fulfilled || phase == Rejected) && d < |w'.promises| && d < |w'.history.trails|
      && if v == PromiseRef(d) then SettledAs(w'.promises[d], w'.history.trails[d], CycleError, Rejected)
         else if v.PromiseRef? then ResolvedOnceWith(w', d, v.p)
         else if v.Thenable? then
           AwaitsForeign(w', d, |w.latches|, v) && ForeignAwaited(Apply(w, CallbackBegins), d, |w.latches|, v)
         else SettledAs(w'.promises[d], w'.history.trails[d], v, phase)
  {
    hide PhasesOf, PlacesOf, Schedule, Fifo, ControlInv, Links, DerivedsBut, TokensBut, FatesBut, FateInv, CalledWith,
      BeginCallback, SettledAs, ResolvedOnceWith, AwaitsForeign, SelfInv, HandedInv, Slot, OwnerData;
    ReachableAdoption(w);
    BeginIsOpen(w);
    NothingSlot(w);
    PassedOn(w, es);
    var s := w.control.work[0];
    var d, v := w.subscribers[s].derived, w.promises[w.subscribers[s].owner].data;
    FateFrom(Exec(Apply(w, CallbackBegins), es).value, d, v, w.promises[w.subscribers[s].owner].phase == Fulfilled);
    if v.Thenable? { PassedForeign(w, es, d, v); }
  }

  lemma PassedOn(w: World, es: seq<Event>)
    requires AdoptInv(w) && Enabled(w, CallbackBegins) && Exec(Apply(w, CallbackBegins), es).Some?
    requires w.control.work[0] < |w.subscribers| && Slot(w, w.control.work[0]).Absent?
    ensures var s, w' := w.control.work[0], Exec(Apply(w, CallbackBegins), es).value;
      && w.subscribers[s].owner < |w.promises| && w.subscribers[s].derived < |w'.promises|
      && FateInv(w', w.subscribers[s].derived)
      && CalledWith(w', w.subscribers[s].derived, OwnerData(w, s),
                    w.promises[w.subscribers[s].owner].phase == Fulfilled)
  {
    hide PhasesOf, PlacesOf, Schedule, Fifo, ControlInv, Links, DerivedsBut, TokensBut, FatesBut, FateInv, CalledWith,
      BeginCallback, SelfInv, HandedInv, Slot, OwnerData;
    BeginIsOpen(w);
    StepKeepsAdoption(w, CallbackBegins);
    PassCalls(w);
    var s, w1 := w.control.work[0], Apply(w, CallbackBegins);
    var d := w.subscribers[s].derived;
    DerivedCallsFixed(w1, es, s);
    Pick(Exec(w1, es).value, None, d);
    SameCalls(w1, Exec(w1, es).value, d, OwnerData(w, s), w.promises[w.subscribers[s].owner].phase == Fulfilled);
  }

  lemma PassedForeign(w: World, es: seq<Event>, d: nat, v: Value)
    requires AdoptInv(w) && Enabled(w, CallbackBegins) && Exec(Apply(w, CallbackBegins), es).Some?
    requires w.control.work[0] < |w.subscribers| && Slot(w, w.control.work[0]).Absent?
    requires OwnerData(w, w.control.work[0]) == v && v.Thenable? && w.subscribers[w.control.work[0]].derived == d
    ensures AwaitsForeign(Exec(Apply(w, CallbackBegins), es).value, d, |w.latches|, v)
    ensures ForeignAwaited(Apply(w, CallbackBegins), d, |w.latches|, v)
  {
    hide PhasesOf, PlacesOf, Schedule, Fifo, ControlInv, Links, DerivedsBut, TokensBut, FatesBut, FateInv, CalledWith,
      BeginCallback, AwaitsForeign, SelfInv, HandedInv, Slot, OwnerData;
    var w1, s := Apply(w, CallbackBegins), w.control.work[0];
    BeginIsOpen(w);
    StepKeepsAdoption(w, CallbackBegins);
    PassCalls(w);
    DerivedCallsFixed(w1, es, s);
    PassOpens(w, d, v);
    AwaitsNow(w1, d, |w.latches|, v);
    ForeignOnward(w1, es, d, |w.latches|, v);
  }

  /**
    The moment of passing on: without a callback the derived promise gets its owner's outcome exactly when that is
    not a thenable. Sections 2.2.7.3 and 2.2.7.4 of Promises/A+ ask for it always.
  */
  lemma PassThroughIff(w: World)
    requires Reachable(w) && WF(w) && Enabled(w, CallbackBegins) && NothingToCall(w)
    ensures var s := w.control.work[0]; var d, v := w.subscribers[s].derived, w.promises[w.subscribers[s].owner].data;
      var w1, phase := Apply(w, CallbackBegins), w.promises[w.subscribers[s].owner].phase;
      && d < |w1.promises| && d < |w1.history.trails|
      && (SettledAs(w1.promises[d], w1.history.trails[d], v, phase) <==> !IsThenable(v))
  {
    hide PhasesOf, PlacesOf, Schedule, Fifo, ControlInv, Links, DerivedsBut, TokensBut, FatesBut, BeginCallback,
      ResolvedOnceWith, AwaitsForeign, SelfInv, HandedInv, Slot, OwnerData;
    ReachableAdoption(w);
    BeginIsOpen(w);
    NothingSlot(w);
    assert Exec(Apply(w, CallbackBegins), []) == Some(Apply(w, CallbackBegins));
    PassThrough(w, []);
    var s := w.control.work[0];
    var d, v := w.subscribers[s].derived, w.promises[w.subscribers[s].owner].data;
    if v.PromiseRef? && v.p != d { PassFollows(w, d, v); }
  }

  lemma PassFollows(w: World, d: nat, v: Value)
    requires InvBut(w, None, None) && Enabled(w, CallbackBegins) && w.control.work[0] < |w.subscribers|
    requires Slot(w, w.control.work[0]).Absent? && OwnerData(w, w.control.work[0]) == v
    requires w.subscribers[w.control.work[0]].derived == d && v.PromiseRef? && v.p != d
    ensures var w1 := BeginCallback(w); d < |w1.promises| && w1.promises[d].phase == Pending
  {
    hide PhasesOf, PlacesOf, Schedule, Fifo, ControlInv, LatchesInv, AdoptersInv, CombinedsInv, FatesBut, Resume;
    BeginIsOpen(w);
    Pick(w, None, d);
    var s, w1 := w.control.work[0], TakeWork(w);
    var ok := w.promises[w.subscribers[s].owner].phase != Rejected;
    ResumeFollows(RecordCall(w1, d, ConclusionCall(w1, d, v, ok)), s, d, v, ok);
  }

  lemma ResumeFollows(w: World, s: nat, d: nat, v: Value, ok: bool)
    requires WF(w) && s < |w.subscribers| && w.subscribers[s].derived == d && ValueOk(w, v)
    requires d < |w.promises| && w.promises[d].phase == Pending && v.PromiseRef? && v.p != d
    ensures var w' := Resume(w, s, v, ok); d < |w'.promises| && w'.promises[d].phase == Pending
  {
    hide HandleThenable;
    HandleResolves(w, d, v);
  }

  lemma PassOpens(w: World, d: nat, v: Value)
    requires InvBut(w, None, None) && Enabled(w, CallbackBegins) && w.control.work[0] < |w.subscribers|
    requires Slot(w, w.control.work[0]).Absent? && OwnerData(w, w.control.work[0]) == v && v.Thenable?
    requires w.subscribers[w.control.work[0]].derived == d
    ensures var w1 := BeginCallback(w);
      && w1.latches == w.latches + [Latch(d, v, false)] && d < |w1.promises| && w1.promises[d].phase == Pending
  {
    hide PhasesOf, PlacesOf, Schedule, Fifo, ControlInv, LatchesInv, AdoptersInv, CombinedsInv, FatesBut, Resume;
    BeginIsOpen(w);
    Pick(w, None, d);
    var s, w1 := w.control.work[0], TakeWork(w);
    var ok := w.promises[w.subscribers[s].owner].phase != Rejected;
    ResumeOpens(RecordCall(w1, d, ConclusionCall(w1, d, v, ok)), s, d, v, ok);
  }

  lemma BeginIsOpen(w: World)
    requires InvBut(w, None, None) && Enabled(w, CallbackBegins)
    ensures var s := w.control.work[0];
      && s < |w.subscribers| && FinalAt(w.promises, w.subscribers[s].owner)
      && w.subscribers[s].derived < |w.history.trails|
      && w.history.trails[w.subscribers[s].derived].calls == []
  {
    hide PhasesOf, PlacesOf, Schedule, Fifo, LatchesInv, AdoptersInv, CombinedsInv, TokensBut, FatesBut, FateInv;
    var s := w.control.work[0];
    WorkIsNew(w);
    assert DerivedOrigin(w.subscribers[s], w.history.trails);
    assert DerivedInv(s, w.subscribers[s], w.history.trails, w.history.log, w.control);
  }

  lemma PassCalls(w: World)
    requires Structure(w) && Enabled(w, CallbackBegins)
    requires w.control.work[0] < |w.subscribers| && Slot(w, w.control.work[0]).Absent?
    requires FinalAt(w.promises, w.subscribers[w.control.work[0]].owner)
    requires w.subscribers[w.control.work[0]].derived < |w.history.trails|
    requires w.history.trails[w.subscribers[w.control.work[0]].derived].calls == []
    ensures var s := w.control.work[0]; var d, v := w.subscribers[s].derived, OwnerData(w, s);
      var w1 := BeginCallback(w);
      && s in w1.history.log && w.subscribers <= w1.subscribers && !InCallbackOf(w1.control, s)
      && CalledWith(w1, d, v, w.promises[w.subscribers[s].owner].phase == Fulfilled)
  {
    hide PhasesOf, PlacesOf, Schedule, Fifo, ControlInv, Resume;
    var s := w.control.work[0];
    var d, v, ok := w.subscribers[s].derived, OwnerData(w, s), w.promises[w.subscribers[s].owner].phase == Fulfilled;
    var w1 := TakeWork(w);
    assert w1.history.log[|w.history.log|] == s;
    var c := ConclusionCall(w1, d, v, ok);
    ResumeCalls(RecordCall(w1, d, c), s, v, ok);
  }
}
