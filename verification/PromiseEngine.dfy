/**
  The scheduler as the source has it: promise objects updated in place, one global queue and
  timer.  Each method is proved to do exactly what the transition system says.
*/
module PromiseEngine {
  import opened Basics
  import opened PromiseWorld
  import opened PromiseStructure
  import opened PromiseFates
  import opened PromiseTheorems

  /** The object part of P: _state, _data and _then. */
  class P {
    var state: Phase
    var data: Value
    var subs: Option<seq<nat>>

    constructor ()
      ensures Record() == Promise(Pending, Undefined, Some([]))
    {
      state, data, subs := Pending, Undefined, Some([]);
    }

    ghost function Record(): Promise reads this { Promise(state, data, subs) }
  }

  ghost function Records(ps: seq<P>): (r: seq<Promise>)
    reads ps
    ensures |r| == |ps| && forall k :: 0 <= k < |ps| ==> r[k] == ps[k].Record()
  {
    seq(|ps|, k requires 0 <= k < |ps| reads ps => ps[k].Record())
  }

  /** How user code behaves during one invocation: while the callback runs, its outcome, and inside a foreign `then`. */
  datatype Play = Play(acts: seq<Event>, outcome: Outcome, tail: seq<Event>)

  // ---------------------------------------------------------------- what whole calls amount to

  ghost predicate UserScript(es: seq<Event>) { forall e <- es :: UserEvent(e) }

  function Step(w: World, e: Event): (r: Option<World>)
    requires WF(w)
    ensures r.Some? ==> WF(r.value)
  {
    if Enabled(w, e) then Some(Apply(w, e)) else None
  }

  /** The callback runs, if one was entered. */
  function CallRun(w: World, play: Play): (r: Option<World>)
    requires WF(w)
    ensures r.Some? ==> WF(r.value)
  {
    if w.control.Flushing? && w.control.call.InCallback? then
      var w1 := Exec(w, play.acts);
      if w1.None? then None else Step(w1.value, CallbackEnds(play.outcome))
    else Some(w)
  }

  /** The `then` of a returned foreign thenable runs, if there is one. */
  function TailRun(w: World, play: Play): (r: Option<World>)
    requires WF(w)
    ensures r.Some? ==> WF(r.value)
  {
    if w.control.Flushing? && w.control.call.InThenable? then
      var w1 := Exec(w, play.tail);
      if w1.None? then None else Step(w1.value, ThenableEnds)
    else if play.tail == [] then Some(w)
    else None
  }

  /** One invokeCallback. */
  function InvokeRun(w: World, play: Play): (r: Option<World>)
    requires WF(w)
    ensures r.Some? ==> WF(r.value)
  {
    var w1 := Step(w, CallbackBegins);
    if w1.None? then None else
    var w2 := CallRun(w1.value, play);
    if w2.None? then None else TailRun(w2.value, play)
  }

  /** The invocations of one task, in order. */
  function InvokesRun(w: World, plays: seq<Play>): (r: Option<World>)
    requires WF(w)
    ensures r.Some? ==> WF(r.value)
    decreases |plays|
  {
    if plays == [] then Some(w)
    else
      var w1 := InvokeRun(w, plays[0]);
      if w1.None? then None else InvokesRun(w1.value, plays[1..])
  }

  /** One entry of the queue. */
  function TaskRun(w: World, plays: seq<Play>): (r: Option<World>)
    requires WF(w)
    ensures r.Some? ==> WF(r.value)
  {
    var w1 := Step(w, TaskStarts);
    if w1.None? then None else
    var w2 := InvokesRun(w1.value, plays);
    if w2.None? then None else Step(w2.value, TaskEnds)
  }

  /** asyncFlush, once it has begun: one script per task, until the queue is empty. */
  function LoopRun(w: World, script: seq<seq<Play>>): (r: Option<World>)
    requires WF(w)
    ensures r.Some? ==> WF(r.value)
    decreases |script|
  {
    if script == [] then Step(w, FlushEnds)
    else
      var w1 := TaskRun(w, script[0]);
      if w1.None? then None else LoopRun(w1.value, script[1..])
  }

  function FlushRun(w: World, script: seq<seq<Play>>): (r: Option<World>)
    requires WF(w)
    ensures r.Some? ==> WF(r.value)
  {
    var w1 := Step(w, FlushBegins);
    if w1.None? then None else LoopRun(w1.value, script)
  }

  // ---------------------------------------------------------------- whole calls are runs

  lemma InvokeIsRun(w: World, play: Play)
    requires WF(w) && InvokeRun(w, play).Some?
    ensures Runs(w, InvokeRun(w, play).value)
  {
    RunsStep(w, CallbackBegins);
    var w1 := Apply(w, CallbackBegins);
    var w2 := CallRun(w1, play).value;
    RunsSelf(w1);
    if w1.control.Flushing? && w1.control.call.InCallback? {
      RunsStep(Exec(w1, play.acts).value, CallbackEnds(play.outcome));
      RunsTrans(w1, Exec(w1, play.acts).value, w2);
    }
    RunsTrans(w, w1, w2);
    var w3 := TailRun(w2, play).value;
    RunsSelf(w2);
    if w2.control.Flushing? && w2.control.call.InThenable? {
      RunsStep(Exec(w2, play.tail).value, ThenableEnds);
      RunsTrans(w2, Exec(w2, play.tail).value, w3);
    }
    RunsTrans(w, w2, w3);
  }

  lemma {:induction false} InvokesIsRun(w: World, plays: seq<Play>)
    requires WF(w) && InvokesRun(w, plays).Some?
    ensures Runs(w, InvokesRun(w, plays).value)
    decreases |plays|
  {
    if plays == [] {
      RunsSelf(w);
    } else {
      InvokeIsRun(w, plays[0]);
      var w1 := InvokeRun(w, plays[0]).value;
      InvokesIsRun(w1, plays[1..]);
      RunsTrans(w, w1, InvokesRun(w, plays).value);
    }
  }

  lemma TaskIsRun(w: World, plays: seq<Play>)
    requires WF(w) && TaskRun(w, plays).Some?
    ensures Runs(w, TaskRun(w, plays).value)
  {
    RunsStep(w, TaskStarts);
    var w1 := Apply(w, TaskStarts);
    InvokesIsRun(w1, plays);
    var w2 := InvokesRun(w1, plays).value;
    RunsTrans(w, w1, w2);
    RunsStep(w2, TaskEnds);
    RunsTrans(w, w2, Apply(w2, TaskEnds));
  }

  lemma {:induction false} LoopIsRun(w: World, script: seq<seq<Play>>)
    requires WF(w) && LoopRun(w, script).Some?
    ensures Runs(w, LoopRun(w, script).value)
    decreases |script|
  {
    if script == [] {
      RunsStep(w, FlushEnds);
    } else {
      TaskIsRun(w, script[0]);
      var w1 := TaskRun(w, script[0]).value;
      LoopIsRun(w1, script[1..]);
      RunsTrans(w, w1, LoopRun(w, script).value);
    }
  }

  /** Every asyncFlush that comes to an end is a run of the transition system, so reachable states stay reachable. */
  lemma FlushIsRun(w: World, script: seq<seq<Play>>)
    requires WF(w) && Reachable(w) && FlushRun(w, script).Some?
    ensures Reachable(FlushRun(w, script).value)
  {
    RunsStep(w, FlushBegins);
    var w1 := Apply(w, FlushBegins);
    LoopIsRun(w1, script);
    RunsTrans(w, w1, FlushRun(w, script).value);
    assert WF(EMPTY_WORLD) && Runs(EMPTY_WORLD, w);
    RunsTrans(EMPTY_WORLD, w, FlushRun(w, script).value);
  }

  /** Entry i of the loop of P.all comes next, and the loop will end in world r. */
  ghost predicate EntriesLeft(w: World, items: seq<Value>, a: nat, i: nat, r: World) {
    && WF(w) && a < |w.aggregates| && w.aggregates[a].items == items && i <= |items|
    && (forall v <- items :: ValueOk(w, v)) && AllLoop(w, a, i) == r
  }

  lemma EntriesStep(w: World, items: seq<Value>, a: nat, i: nat, r: World)
    requires EntriesLeft(w, items, a, i, r) && i < |items|
    ensures EntriesLeft(AllEntry(w, a, i), items, a, i + 1, r)
  {
    forall v | v in items ensures ValueOk(AllEntry(w, a, i), v) { assert ValueOk(w, v); }
  }

  lemma EntriesDone(w: World, a: nat, i: nat)
    requires WF(w) && a < |w.aggregates| && i == |w.aggregates[a].items|
    requires forall v <- w.aggregates[a].items :: ValueOk(w, v)
    ensures AllLoop(w, a, i) == w
  {
  }

  ghost predicate FinalOwner(w: World, s: nat)
    requires WF(w)
  {
    s < |w.subscribers| && w.subscribers[s].owner < |w.promises| && Final(w.promises[w.subscribers[s].owner].phase)
  }

  lemma ConcludeControl(w: World, d: nat, v: Value, ok: bool)
    requires WF(w) && d < |w.promises| && ValueOk(w, v)
    ensures Conclude(w, d, v, ok).control == w.control
  {
  }

  lemma CallRejectControl(w: World, d: nat, e: Value)
    requires WF(w) && d < |w.promises| && ValueOk(w, e)
    ensures var w' := CallReject(w, d, e);
      w'.control == w.control && w'.subscribers == w.subscribers && |w'.promises| == |w.promises| &&
      w'.aggregates == w.aggregates
  {
  }

  // ---------------------------------------------------------------- what a task does to its work list

  ghost predicate WellBehaved(play: Play) { UserScript(play.acts) && UserScript(play.tail) }

  lemma {:induction false} UserKeepsControl(w: World, es: seq<Event>)
    requires WF(w) && UserScript(es) && Exec(w, es).Some?
    ensures Exec(w, es).value.control == w.control
    decreases |es|
  {
    if es != [] {
      assert es[0] in es;
      ThenIsAsynchronous(w, es[0]);
      ExecHead(w, es);
      assert forall e | e in es[1..] :: e in es;
      UserKeepsControl(Apply(w, es[0]), es[1..]);
    }
  }

  lemma EndControl(w: World, s: nat, o: Outcome)
    requires WF(w) && s < |w.subscribers| && ValueOk(w, if o.Returned? then o.v else o.e) && w.control.Flushing?
    ensures var w' := EndCallback(w, s, o);
      w'.control.Flushing? && w'.control.current == w.control.current && w'.control.work == w.control.work &&
      !w'.control.call.InCallback?
  {
    assert SubscriberOk(w, w.subscribers[s]);
    var d := w.subscribers[s].derived;
    if o.Thrown? {
      CallRejectControl(w, d, o.e);
      ConcludeControl(CallReject(w, d, o.e), d, OwnerData(w, s), true);
    } else {
      ConcludeControl(RecordCall(w, d, ConclusionCall(w, d, o.v, true)), d, o.v, true);
    }
  }

  lemma StoreControl(w: World, a: nat, i: nat, v: Value)
    requires WF(w) && a < |w.aggregates| && i < |w.aggregates[a].results| && ValueOk(w, v)
    ensures Store(w, a, i, v).control == w.control
  {
    hide CallResolve;
    assert AggregateOk(w, w.aggregates[a]);
    var g := w.aggregates[a];
    var w2 := SetAggregate(w, a, g.(results := g.results[i := Some(v)], remaining := g.remaining - 1));
    CallLog(w2, g.target, ResultArray(a));
  }

  /** Entering a callback leaves the control as it is; only a missing one is over at once. */
  lemma DispatchControl(w: World, s: nat)
    requires WF(w) && s < |w.subscribers| && w.control.Flushing?
    ensures var w' := Dispatch(w, s);
      w'.control.Flushing? && w'.control.current == w.control.current && w'.control.work == w.control.work &&
      if Slot(w, s).Absent? then !w'.control.call.InCallback? else w'.control == w.control
  {
    hide LatchResolve, LatchReject, Store, CallReject, Conclude;
    assert SubscriberOk(w, w.subscribers[s]);
    var v := OwnerData(w, s);
    match Slot(w, s)
    case Absent =>
      var d, ok := w.subscribers[s].derived, w.promises[w.subscribers[s].owner].phase != Rejected;
      ConcludeControl(RecordCall(w, d, ConclusionCall(w, d, v, ok)), d, v, ok);
    case AdoptFulfil(l) => LatchLog(w, l, v);
    case AdoptReject(l) => LatchRejectControl(w, l, v);
    case StoreResult(a, i) => StoreControl(w, a, i, v);
    case RejectTarget(p) => CallRejectControl(w, p, v);
    case User(_) =>
  }

  lemma LatchRejectControl(w: World, l: nat, v: Value)
    requires WF(w) && l < |w.latches| && ValueOk(w, v)
    ensures LatchReject(w, l, v).control == w.control
  {
  }

  lemma BeginControl(w: World)
    requires WF(w) && Enabled(w, CallbackBegins)
    ensures w.control.work[0] < |w.subscribers|
    ensures var w' := BeginCallback(w);
      w'.control.Flushing? && w'.control.current == w.control.current && w'.control.work == w.control.work[1..] &&
      (w'.control.call == InCallback(w.control.work[0]) <==> !Slot(w, w.control.work[0]).Absent?) &&
      (Slot(w, w.control.work[0]).Absent? ==> !w'.control.call.InCallback?)
  {
    hide Dispatch;
    var s := w.control.work[0];
    assert s in w.control.work;
    DispatchControl(TakeWork(w), s);
  }

  /** In the middle of a task: control is as given, apart from what is being called. */
  ghost predicate During(w: World, current: Current, work: seq<nat>) {
    w.control.Flushing? && w.control.current == current && w.control.work == work
  }

  lemma CallWork(w: World, play: Play)
    requires WF(w) && WellBehaved(play) && CallRun(w, play).Some? && w.control.Flushing?
    ensures During(CallRun(w, play).value, w.control.current, w.control.work)
    ensures !CallRun(w, play).value.control.call.InCallback?
  {
    if w.control.call.InCallback? {
      UserKeepsControl(w, play.acts);
      EndControl(Exec(w, play.acts).value, w.control.call.s, play.outcome);
    }
  }

  lemma TailWork(w: World, play: Play)
    requires WF(w) && WellBehaved(play) && TailRun(w, play).Some? && w.control.Flushing? && !w.control.call.InCallback?
    ensures TailRun(w, play).value.control == Flushing(w.control.current, w.control.work, NoCall)
  {
    if w.control.call.InThenable? {
      UserKeepsControl(w, play.tail);
    }
  }

  lemma InvokeWork(w: World, play: Play)
    requires WF(w) && WellBehaved(play) && InvokeRun(w, play).Some?
    ensures w.control.Flushing? && w.control.work != []
    ensures InvokeRun(w, play).value.control == Flushing(w.control.current, w.control.work[1..], NoCall)
  {
    hide BeginCallback, CallRun, TailRun;
    BeginControl(w);
    CallWork(BeginCallback(w), play);
    TailWork(CallRun(BeginCallback(w), play).value, play);
  }

  lemma {:induction false} InvokesWork(w: World, plays: seq<Play>)
    requires WF(w) && w.control.Flushing? && (forall play <- plays :: WellBehaved(play)) && InvokesRun(w, plays).Some?
    ensures |plays| <= |w.control.work|
    ensures InvokesRun(w, plays).value.control.Flushing?
    ensures InvokesRun(w, plays).value.control.work == w.control.work[|plays|..]
    decreases |plays|
  {
    if plays != [] {
      assert plays[0] in plays;
      InvokeWork(w, plays[0]);
      assert forall play | play in plays[1..] :: play in plays;
      InvokesWork(InvokeRun(w, plays[0]).value, plays[1..]);
    }
  }

  lemma InvokesUnfold(w: World, plays: seq<Play>)
    requires WF(w) && plays != [] && InvokesRun(w, plays).Some?
    ensures InvokeRun(w, plays[0]).Some?
    ensures InvokesRun(w, plays) == InvokesRun(InvokeRun(w, plays[0]).value, plays[1..])
  {
  }

  lemma RunsKeepStructure(w: World, w': World)
    requires Structure(w) && Runs(w, w')
    ensures Structure(w')
  {
    var es :| Exec(w, es) == Some(w');
    ExecKeeps(w, es);
  }

  /** The owner of a subscriber about to be invoked is final. */
  lemma NextOwnerFinal(w: World)
    requires Structure(w) && w.control.Flushing? && w.control.work != []
    ensures w.control.work[0] < |w.subscribers| && FinalOwner(w, w.control.work[0])
  {
    WorkIsNew(w);
  }

  lemma TaskStartable(w: World, plays: seq<Play>)
    requires WF(w) && TaskRun(w, plays).Some?
    ensures Enabled(w, TaskStarts)
  {
    hide StartTask, InvokesRun;
  }

  lemma TaskUnfold(w: World, w1: World, plays: seq<Play>)
    requires WF(w) && TaskRun(w, plays).Some? && Step(w, TaskStarts) == Some(w1)
    ensures WF(w1) && InvokesRun(w1, plays).Some?
    ensures Enabled(InvokesRun(w1, plays).value, TaskEnds)
    ensures TaskRun(w, plays) == Step(InvokesRun(w1, plays).value, TaskEnds)
  {
    hide StartTask, InvokesRun, EndTask;
  }

  lemma StartShape(w: World, w1: World, t: Task)
    requires WF(w) && Step(w, TaskStarts) == Some(w1) && w.pending[0] == t
    ensures w1.control.Flushing? && w1.control.current == TaskCurrent(t)
  {
    assert t in w.pending;
  }

  /** From w, where task t has begun, these invocations bring it to its end. */
  ghost predicate Completes(w: World, t: Task, plays: seq<Play>)
    requires WF(w)
  {
    && w.control.Flushing? && |plays| == |w.control.work| && InvokesRun(w, plays).Some?
    && Enabled(InvokesRun(w, plays).value, TaskEnds)
    && InvokesRun(w, plays).value.control.current == TaskCurrent(t)
  }

  function TaskCurrent(t: Task): Current { if t.Invoke? then Invoking else Publishing(t.p) }

  lemma CompletesFrom(w: World, t: Task, plays: seq<Play>)
    requires WF(w) && (forall play <- plays :: WellBehaved(play)) && w.control.Flushing?
    requires w.control.current == TaskCurrent(t)
    requires InvokesRun(w, plays).Some? && Enabled(InvokesRun(w, plays).value, TaskEnds)
    ensures Completes(w, t, plays)
  {
    hide InvokesRun, WellBehaved;
    InvokesWork(w, plays);
    InvokesCurrent(w, plays);
  }

  /** A task that can run invokes exactly the subscribers it starts with. */
  lemma TaskShape(w: World, w1: World, t: Task, plays: seq<Play>)
    requires WF(w) && (forall play <- plays :: WellBehaved(play)) && TaskRun(w, plays).Some?
    requires Step(w, TaskStarts) == Some(w1) && w.pending[0] == t
    ensures WF(w1) && Completes(w1, t, plays)
  {
    hide Completes, InvokesRun, StartTask, EndTask, TaskRun, WellBehaved;
    TaskUnfold(w, w1, plays);
    StartShape(w, w1, t);
    CompletesFrom(w1, t, plays);
  }

  lemma {:induction false} InvokesCurrent(w: World, plays: seq<Play>)
    requires WF(w) && w.control.Flushing? && (forall play <- plays :: WellBehaved(play)) && InvokesRun(w, plays).Some?
    ensures InvokesRun(w, plays).value.control.Flushing?
    ensures InvokesRun(w, plays).value.control.current == w.control.current
    decreases |plays|
  {
    if plays != [] {
      assert plays[0] in plays;
      InvokeWork(w, plays[0]);
      assert forall play | play in plays[1..] :: play in plays;
      InvokesCurrent(InvokeRun(w, plays[0]).value, plays[1..]);
    }
  }

  lemma LoopShape(w: World, script: seq<seq<Play>>)
    requires WF(w) && LoopRun(w, script).Some?
    ensures script == [] <==> w.pending == []
    ensures script == [] ==> Enabled(w, FlushEnds) && LoopRun(w, script) == Some(Apply(w, FlushEnds))
    ensures script != [] ==>
      TaskRun(w, script[0]).Some? && LoopRun(w, script) == LoopRun(TaskRun(w, script[0]).value, script[1..])
  {
    hide TaskRun;
    if script != [] { TaskStartable(w, script[0]); }
  }

  /** In the middle of a task: these subscribers are left, and these plays invoke them. */
  ghost predicate Remaining(w: World, subs: seq<nat>, plays: seq<Play>) {
    && Structure(w) && w.control.Flushing? && w.control.work == subs && |plays| == |subs|
    && (forall play <- plays :: WellBehaved(play)) && InvokesRun(w, plays).Some?
  }

  lemma RemainingStep(w: World, subs: seq<nat>, plays: seq<Play>)
    requires Remaining(w, subs, plays) && subs != []
    ensures WellBehaved(plays[0]) && FinalOwner(w, subs[0]) && InvokeRun(w, plays[0]).Some?
    ensures InvokesRun(w, plays) == InvokesRun(InvokeRun(w, plays[0]).value, plays[1..])
    ensures Remaining(InvokeRun(w, plays[0]).value, subs[1..], plays[1..])
  {
    hide PhasesOf, PlacesOf, Schedule, Fifo, ControlInv, InvokeRun, InvokesRun, WellBehaved, FinalOwner;
    assert plays[0] in plays;
    InvokesUnfold(w, plays);
    InvokeWork(w, plays[0]);
    NextOwnerFinal(w);
    InvokeIsRun(w, plays[0]);
    RunsKeepStructure(w, InvokeRun(w, plays[0]).value);
    assert forall play | play in plays[1..] :: play in plays;
  }

  /** The subscribers from subs[k] on are left, and end is where their invocations lead. */
  ghost predicate PlaysLeft(w: World, subs: seq<nat>, plays: seq<Play>, k: nat, end: Option<World>) {
    && k <= |subs| == |plays| && Remaining(w, subs[k..], plays[k..]) && InvokesRun(w, plays[k..]) == end
  }

  lemma PlaysStart(w: World, subs: seq<nat>, plays: seq<Play>)
    requires Remaining(w, subs, plays)
    ensures PlaysLeft(w, subs, plays, 0, InvokesRun(w, plays))
  {
    hide InvokesRun, WellBehaved, Structure;
    assert subs[0..] == subs && plays[0..] == plays;
  }

  lemma PlaysStep(w: World, subs: seq<nat>, plays: seq<Play>, k: nat, end: Option<World>)
    requires PlaysLeft(w, subs, plays, k, end) && k < |subs|
    ensures k < |plays| && w.control.Flushing? && w.control.work != [] && w.control.work[0] == subs[k]
    ensures WF(w) && WellBehaved(plays[k]) && FinalOwner(w, subs[k]) && InvokeRun(w, plays[k]).Some?
    ensures PlaysLeft(InvokeRun(w, plays[k]).value, subs, plays, k + 1, end)
  {
    hide PhasesOf, PlacesOf, Schedule, Fifo, ControlInv, InvokeRun, InvokesRun, WellBehaved, FinalOwner;
    assert subs[k..][0] == subs[k] && subs[k..][1..] == subs[k + 1..];
    assert plays[k..][0] == plays[k] && plays[k..][1..] == plays[k + 1..];
    RemainingStep(w, subs[k..], plays[k..]);
  }

  lemma PlaysDone(w: World, subs: seq<nat>, plays: seq<Play>, end: Option<World>)
    requires PlaysLeft(w, subs, plays, |subs|, end)
    ensures end == Some(w)
  {
    hide WellBehaved, Structure;
    assert plays[|subs|..] == [];
  }

  /** In the middle of a flush. */
  ghost predicate Flushes(w: World, script: seq<seq<Play>>) {
    && Structure(w) && LoopRun(w, script).Some?
    && forall plays <- script :: forall play <- plays :: WellBehaved(play)
  }

  lemma FlushesStep(w: World, script: seq<seq<Play>>)
    requires Flushes(w, script) && w.pending != []
    ensures script != [] && TaskRun(w, script[0]).Some?
    ensures forall play <- script[0] :: WellBehaved(play)
    ensures LoopRun(w, script) == LoopRun(TaskRun(w, script[0]).value, script[1..])
    ensures Flushes(TaskRun(w, script[0]).value, script[1..])
  {
    hide PhasesOf, PlacesOf, Schedule, Fifo, ControlInv, TaskRun, LoopRun, WellBehaved;
    LoopShape(w, script);
    assert script[0] in script;
    TaskIsRun(w, script[0]);
    RunsKeepStructure(w, TaskRun(w, script[0]).value);
    assert forall plays | plays in script[1..] :: plays in script;
  }

  // ---------------------------------------------------------------- the engine

  lemma LeaveOk(w: World, s: nat, v: Value)
    requires WF(w) && w.control.Flushing? && s < |w.subscribers|
    ensures ControlOk(w.(control := w.control.(call := if v.Thenable? then InThenable(s) else NoCall)))
  {
  }

  lemma AbsentIff(w: World)
    requires WF(w) && w.control.Flushing? && w.control.work != [] && FinalOwner(w, w.control.work[0])
    ensures NothingToCall(w) <==> Slot(w, w.control.work[0]).Absent?
  {
  }

  /** One invocation: its beginning, the callback if there is one, and a foreign `then` if one runs after it. */
  lemma InvokeParts(w: World, play: Play)
    requires WF(w) && InvokeRun(w, play).Some?
    requires w.control.Flushing? && w.control.work != [] && FinalOwner(w, w.control.work[0])
    ensures Enabled(w, CallbackBegins)
    ensures var w1, s := BeginCallback(w), w.control.work[0];
      && (!NothingToCall(w) ==> w1.control.Flushing? && w1.control.call == InCallback(s))
      && (NothingToCall(w) ==> CallRun(w1, play) == Some(w1))
      && CallRun(w1, play).Some? && InvokeRun(w, play) == TailRun(CallRun(w1, play).value, play)
  {
    hide WF, BeginCallback, EndCallback, TailRun, Slot, NothingToCall;
    AbsentIff(w);
    BeginControl(w);
  }

  /** What follows the callback: user code of a foreign `then` if one runs, and its end. */
  lemma TailParts(w: World, play: Play)
    requires WF(w) && WellBehaved(play) && TailRun(w, play).Some?
    ensures Exec(w, play.tail).Some?
    ensures var w1 := Exec(w, play.tail).value;
      if w.control.Flushing? && w.control.call.InThenable? then
        && w1.control.Flushing? && ControlOk(w1.(control := w1.control.(call := NoCall)))
        && TailRun(w, play) == Some(SetControl(w1, w1.control.(call := NoCall)))
      else TailRun(w, play) == Some(w1)
  {
    hide WF, BeginCallback, EndCallback;
    if w.control.Flushing? && w.control.call.InThenable? {
      UserKeepsControl(w, play.tail);
      PartsOk(Exec(w, play.tail).value);
    }
  }

  lemma RegisterKeeps(w: World, sub: Subscriber)
    requires WF(w) && SubscriberOk(w, sub)
    ensures WF(w.(subscribers := w.subscribers + [sub]))
  {
    var w' := w.(subscribers := w.subscribers + [sub]);
    forall s | 0 <= s < |w'.subscribers| ensures SubscriberOk(w', w'.subscribers[s]) {
      assert s < |w.subscribers| ==> SubscriberOk(w, w.subscribers[s]);
    }
  }

  class Engine {
    var promises: seq<P>
    var subscribers: seq<Subscriber>
    var latches: seq<Latch>
    var aggregates: seq<Aggregate>
    var asyncQueue: seq<Task>
    var asyncTimer: bool
    var scheduled: nat
    ghost var next: nat          // asyncQueue[next..] has not been reached yet
    ghost var control: Control   // what the call stack looks like
    ghost var history: History

    ghost function View(): World
      reads this, promises
      requires next <= |asyncQueue|
    {
      World(Records(promises), subscribers, latches, aggregates, asyncQueue[next..], asyncTimer,
            scheduled, control, history)
    }

    ghost predicate Valid()
      reads this, promises
    {
      next <= |asyncQueue| && Distinct(promises) && WF(View())
    }

    /** Promise objects and queue entries are only added, and the flush loop stays where it is. */
    twostate predicate Extends()
      reads this
    {
      && PromisesAdded()
      && next == old(next) && old(asyncQueue) <= asyncQueue
    }

    twostate predicate PromisesAdded()
      reads this
    {
      old(promises) <= promises && forall k :: |old(promises)| <= k < |promises| ==> fresh(promises[k])
    }

    constructor ()
      ensures Valid() && View() == EMPTY_WORLD
    {
      promises, subscribers, latches, aggregates := [], [], [], [];
      asyncQueue, asyncTimer, scheduled, next := [], false, 0, 0;
      control, history := Idle, History([], [], [], [], []);
    }

    /** asyncCall */
    method AsyncCall(t: Task)
      requires Valid() && TaskOk(View(), t)
      modifies this
      ensures Valid() && promises == old(promises) && Extends() && View() == Enqueue(old(View()), t)
    {
      hide WF;
      ghost var w := Enqueue(View(), t);
      asyncQueue := asyncQueue + [t];
      if !asyncTimer {
        asyncTimer := true;
        scheduled := scheduled + 1;
      }
      history := history.(enqueued := history.enqueued + [t]);
      assert asyncQueue[next..] == old(asyncQueue[next..]) + [t];
      assert View() == w;
    }

    /** fulfill */
    method Fulfill(p: nat, v: Value)
      requires Valid() && p < |promises| && ValueOk(View(), v)
      modifies this, promises
      ensures Valid() && promises == old(promises) && Extends() && View() == Settle(old(View()), p, v, true)
    {
      if promises[p].state == Pending {
        promises[p].state := Settled;
        promises[p].data := v;
        history := history.(trails := history.trails[p := history.trails[p].(decided := Fulfilled)]);
        assert Records(promises) == old(Records(promises))[p := promises[p].Record()];
        ghost var w := old(View());
        assert View() == SetTrail(SetPromise(w, p, w.promises[p].(phase := Settled, data := v)), p,
                                  w.history.trails[p].(decided := Fulfilled));
        AsyncCall(PublishFulfil(p));
      }
    }

    /** reject */
    method Reject(p: nat, v: Value)
      requires Valid() && p < |promises| && ValueOk(View(), v)
      modifies this, promises
      ensures Valid() && promises == old(promises) && Extends() && View() == Settle(old(View()), p, v, false)
    {
      if promises[p].state == Pending {
        promises[p].state := Settled;
        promises[p].data := v;
        history := history.(trails := history.trails[p := history.trails[p].(decided := Rejected)]);
        assert Records(promises) == old(Records(promises))[p := promises[p].Record()];
        ghost var w := old(View());
        assert View() == SetTrail(SetPromise(w, p, w.promises[p].(phase := Settled, data := v)), p,
                                  w.history.trails[p].(decided := Rejected));
        AsyncCall(PublishReject(p));
      }
    }

    /** new P(resolver), before the resolver runs */
    method Construct(ghost origin: Origin) returns (p: nat)
      requires Valid()
      modifies this
      ensures Valid() && Extends() && p == |old(promises)| && View() == Allocate(old(View()), origin)
    {
      var o := new P();
      p := |promises|;
      promises := promises + [o];
      history := history.(trails := history.trails + [Trail(origin, [], Pending)]);
      assert Records(promises) == old(Records(promises)) + [o.Record()];
    }

    /** P.prototype.then */
    method Then(p: nat, f: Callback, r: Callback) returns (d: nat)
      requires Valid() && p < |promises| && CallbackOk(View(), f) && CallbackOk(View(), r)
      modifies this, promises
      ensures Valid() && Extends() && d == |old(promises)| && View() == Subscribe(old(View()), p, f, r)
    {
      hide WF, Enqueue, SetPromise;
      var s := |subscribers|;
      d := Construct(Derived);
      Register(p, d, f, r);
      Enlist(p, s);
    }

    /** The subscriber's own invocation is queued, or it waits for the publication. */
    method Enlist(p: nat, s: nat)
      requires Valid() && p < |promises| && s < |subscribers|
      modifies this, promises
      ensures Valid() && promises == old(promises) && Extends()
      ensures var w := old(View());
        var subs := if w.promises[p].subs.Some? then w.promises[p].subs.value else [];
        View() == if Final(w.promises[p].phase) then Enqueue(w, Invoke(s))
                  else SetPromise(w, p, w.promises[p].(subs := Some(subs + [s])))
    {
      hide WF, Enqueue, SetPromise;
      if promises[p].state == Fulfilled || promises[p].state == Rejected {
        AsyncCall(Invoke(s));
      } else {
        AddWaiting(p, s);
      }
    }

    method Register(p: nat, d: nat, f: Callback, r: Callback)
      requires Valid() && p < |promises| && d < |promises| && CallbackOk(View(), f) && CallbackOk(View(), r)
      modifies this
      ensures Valid() && promises == old(promises) && Extends()
      ensures View() == old(View()).(subscribers := old(View()).subscribers + [Subscriber(p, d, f, r)])
    {
      hide WF;
      RegisterKeeps(View(), Subscriber(p, d, f, r));
      subscribers := subscribers + [Subscriber(p, d, f, r)];
    }

    method AddWaiting(p: nat, s: nat)
      requires Valid() && p < |promises| && s < |subscribers|
      modifies this, promises
      ensures Valid() && promises == old(promises) && Extends()
      ensures View() == SetPromise(old(View()), p, old(View()).promises[p].(subs :=
        Some((if old(promises[p].subs).Some? then old(promises[p].subs).value else []) + [s])))
    {
      var subs := if promises[p].subs.Some? then promises[p].subs.value else [];
      promises[p].subs := Some(subs + [s]);
      assert Records(promises) == old(Records(promises))[p := promises[p].Record()];
    }

    /** The closures' shared `resolved` variable comes into being. */
    method NewLatch(p: nat, v: Value) returns (l: nat)
      requires Valid() && p < |promises| && ValueOk(View(), v)
      modifies this
      ensures Valid() && promises == old(promises) && Extends() && l == |old(latches)|
      ensures View() == OpenLatch(old(View()), p, v)
    {
      l := |latches|;
      latches := latches + [Latch(p, v, false)];
    }

    /** handleThenable; false means the value is not a thenable and nothing was done. */
    method HandleThenableValue(p: nat, v: Value) returns (handled: bool)
      requires Valid() && p < |promises| && ValueOk(View(), v)
      modifies this, promises
      ensures Valid() && Extends()
      ensures handled <==> IsThenable(v)
      ensures View() == HandleThenable(old(View()), p, v)
    {
      match v
      case PromiseRef(q) =>
        if q == p {
          Reject(p, CycleError);
        } else {
          var l := NewLatch(p, v);
          var _ := Then(q, AdoptFulfil(l), AdoptReject(l));
        }
        return true;
      case Thenable(_) =>
        var _ := NewLatch(p, v);
        return true;
      case _ =>
        return false;
    }

    /** resolve */
    method ResolvePromise(p: nat, v: Value)
      requires Valid() && p < |promises| && ValueOk(View(), v)
      modifies this, promises
      ensures Valid() && Extends() && View() == Resolve(old(View()), p, v)
    {
      if v == PromiseRef(p) {
        Fulfill(p, v);
      } else {
        var handled := HandleThenableValue(p, v);
        if !handled {
          Fulfill(p, v);
        }
      }
    }

    method Close(l: nat)
      requires Valid() && l < |latches|
      modifies this
      ensures Valid() && promises == old(promises) && Extends() && View() == CloseLatch(old(View()), l)
    {
      latches := latches[l := latches[l].(closed := true)];
    }

    /** First closure of handleThenable. */
    method UseResolve(l: nat, v: Value)
      requires Valid() && l < |latches| && ValueOk(View(), v)
      modifies this, promises
      ensures Valid() && Extends() && View() == LatchResolve(old(View()), l, v)
    {
      if !latches[l].closed {
        var latch := latches[l];
        Close(l);
        if latch.source == v {
          Fulfill(latch.target, v);
        } else {
          ResolvePromise(latch.target, v);
        }
      }
    }

    /** Second closure of handleThenable. */
    method UseReject(l: nat, r: Value)
      requires Valid() && l < |latches| && ValueOk(View(), r)
      modifies this, promises
      ensures Valid() && Extends() && View() == LatchReject(old(View()), l, r)
    {
      if !latches[l].closed {
        var target := latches[l].target;
        Close(l);
        Reject(target, r);
      }
    }

    /** The catch block of handleThenable. */
    method CatchThrow(l: nat, e: Value)
      requires Valid() && l < |latches| && ValueOk(View(), e)
      modifies this, promises
      ensures Valid() && Extends() && View() == LatchThrow(old(View()), l, e)
    {
      if !latches[l].closed {
        Reject(latches[l].target, e);
      }
    }

    ghost method Record(p: nat, c: Call)
      requires Valid() && p < |promises|
      modifies `history
      ensures Valid() && View() == RecordCall(old(View()), p, c)
    {
      history := history.(trails := history.trails[p := history.trails[p].(calls := history.trails[p].calls + [c])]);
    }

    /** resolvePromise of invokeResolver */
    method ResolverResolve(p: nat, v: Value)
      requires Valid() && p < |promises| && ValueOk(View(), v)
      modifies this, promises
      ensures Valid() && Extends() && View() == CallResolve(old(View()), p, v)
    {
      Record(p, ResolveCall(v, |subscribers|));
      ResolvePromise(p, v);
    }

    /** rejectPromise of invokeResolver */
    method ResolverReject(p: nat, r: Value)
      requires Valid() && p < |promises| && ValueOk(View(), r)
      modifies this, promises
      ensures Valid() && Extends() && View() == CallReject(old(View()), p, r)
    {
      Record(p, RejectCall(r));
      Reject(p, r);
    }

    // -------------------------------------------------------------- P.all

    method PutAggregate(a: nat, g: Aggregate)
      requires Valid() && a < |aggregates| && AggregateOk(View(), g) && |g.results| == |aggregates[a].results|
      modifies this
      ensures Valid() && promises == old(promises) && Extends() && View() == SetAggregate(old(View()), a, g)
    {
      aggregates := aggregates[a := g];
    }

    /** One iteration of the loop of P.all. */
    method Entry(a: nat, i: nat)
      requires Valid() && a < |aggregates| && i < |aggregates[a].items|
      requires forall v <- aggregates[a].items :: ValueOk(View(), v)
      modifies this, promises
      ensures Valid() && Extends() && View() == AllEntry(old(View()), a, i)
    {
      var g := aggregates[a];
      var v := g.items[i];
      assert v in g.items && AggregateOk(View(), g);
      if v.PromiseRef? {
        PutAggregate(a, Counted(g, i, |subscribers|));
        var _ := Then(v.p, StoreResult(a, i), RejectTarget(g.target));
      } else {
        PutAggregate(a, g.(results := g.results[i := Some(v)]));
      }
    }

    /** The loop of P.all. */
    method Entries(a: nat)
      requires Valid() && a < |aggregates|
      requires forall v <- aggregates[a].items :: ValueOk(View(), v)
      modifies this, promises
      ensures Valid() && Extends() && View() == AllLoop(old(View()), a, 0)
    {
      hide AllEntry, AllLoop, WF;
      var items := aggregates[a].items;
      var i := 0;
      while i < |items|
        invariant i <= |items| && Valid() && Extends()
        invariant EntriesLeft(View(), items, a, i, AllLoop(old(View()), a, 0))
      {
        EntriesStep(View(), items, a, i, AllLoop(old(View()), a, 0));
        Entry(a, i);
        i := i + 1;
      }
      EntriesDone(View(), a, i);
    }

    /** P.all */
    method AllOf(items: seq<Value>)
      requires Valid() && forall v <- items :: ValueOk(View(), v)
      modifies this, promises
      ensures Valid() && Extends() && View() == All(old(View()), items)
    {
      hide WF, AllBegin, CallResolve, AllLoop;
      var a := |aggregates|;
      var target := Begin(items);
      Entries(a);
      ResolveEmpty(a, target);
    }

    /** The test at the end of P.all. */
    method ResolveEmpty(a: nat, target: nat)
      requires Valid() && a < |aggregates| && target == aggregates[a].target
      modifies this, promises
      ensures Valid() && Extends() && AggregateOk(old(View()), old(aggregates)[a])
      ensures View() ==
        if old(aggregates)[a].remaining == 0 then CallResolve(old(View()), target, ResultArray(a)) else old(View())
    {
      hide WF, CallResolve;
      PartsOk(View());
      assert AggregateOk(View(), aggregates[a]);
      if aggregates[a].remaining == 0 {
        ResolverResolve(target, ResultArray(a));
      }
    }

    method Begin(items: seq<Value>) returns (target: nat)
      requires Valid() && forall v <- items :: ValueOk(View(), v)
      modifies this
      ensures Valid() && Extends() && target == |old(promises)| && View() == AllBegin(old(View()), items)
    {
      var a := |aggregates|;
      target := Construct(Combined(a));
      aggregates := aggregates + [Aggregate(target, items, seq(|items|, _ => None), 0, seq(|items|, _ => None))];
    }

    /** The closure resolver(i) returned. */
    method StoreValue(a: nat, i: nat, v: Value)
      requires Valid() && a < |aggregates| && i < |aggregates[a].results| && ValueOk(View(), v)
      modifies this, promises
      ensures Valid() && Extends() && View() == Store(old(View()), a, i, v)
    {
      var g := aggregates[a];
      assert AggregateOk(View(), g);
      PutAggregate(a, g.(results := g.results[i := Some(v)], remaining := g.remaining - 1));
      if g.remaining - 1 == 0 {
        ResolverResolve(g.target, ResultArray(a));
      }
    }

    // -------------------------------------------------------------- user code

    /** One thing user code does. */
    method Perform(e: Event)
      requires Valid() && UserEvent(e) && Enabled(View(), e)
      modifies this, promises
      ensures Valid() && Extends() && View() == Apply(old(View()), e)
    {
      match e
      case New => var _ := Construct(Constructed);
      case DoResolve(p, v) => ResolverResolve(p, v);
      case DoReject(p, r) => ResolverReject(p, r);
      case DoThen(p, f, r) => var _ := Then(p, f, r);
      case DoAll(items) => AllOf(items);
      case ThenableResolves(l, v) => UseResolve(l, v);
      case ThenableRejects(l, r) => UseReject(l, r);
      case ThenableThrows(l, x) => CatchThrow(l, x);
    }

    /** User code runs for a while. */
    method Run(acts: seq<Event>)
      requires Valid() && UserScript(acts) && Exec(View(), acts).Some?
      modifies this, promises
      ensures Valid() && Extends() && Some(View()) == Exec(old(View()), acts)
    {
      var k := 0;
      while k < |acts|
        invariant k <= |acts| && Valid() && Extends()
        invariant Exec(View(), acts[k..]) == Exec(old(View()), acts)
      {
        assert acts[k] in acts && acts[k..][0] == acts[k] && acts[k..][1..] == acts[k + 1..];
        ExecHead(View(), acts[k..]);
        Perform(acts[k]);
        k := k + 1;
      }
    }

    // -------------------------------------------------------------- the flush

    ghost method Enter()
      requires Valid() && control.Flushing? && control.work != []
      modifies `control, `history
      ensures Valid() && View() == TakeWork(old(View()))
    {
      history := history.(log := history.log + [control.work[0]]);
      control := control.(work := control.work[1..], call := InCallback(control.work[0]));
      assert View() == TakeWork(old(View()));
    }

    ghost method Leave(c: Control)
      requires Valid() && ControlOk(View().(control := c))
      modifies `control
      ensures Valid() && View() == SetControl(old(View()), c)
    {
      control := c;
    }

    /** The last lines of invokeCallback. */
    method Conclusion(s: nat, value: Value, settled: Phase)
      requires Valid() && s < |subscribers| && ValueOk(View(), value) && control.Flushing?
      requires settled == Fulfilled || settled == Rejected
      modifies this, promises
      ensures Valid() && Extends() && View() == Resume(old(View()), s, value, settled == Fulfilled)
    {
      hide WF, Conclude;
      PartsOk(View());
      assert SubscriberOk(View(), subscribers[s]);
      var promise := subscribers[s].derived;
      ConcludeControl(View(), promise, value, settled == Fulfilled);
      SettleDerived(promise, value, settled);
      LeaveOk(View(), s, value);
      Leave(control.(call := if value.Thenable? then InThenable(s) else NoCall));
    }

    method SettleDerived(promise: nat, value: Value, settled: Phase)
      requires Valid() && promise < |promises| && ValueOk(View(), value)
      requires settled == Fulfilled || settled == Rejected
      modifies this, promises
      ensures Valid() && Extends() && View() == Conclude(old(View()), promise, value, settled == Fulfilled)
    {
      hide WF, Settle, Resolve, Subscribe;
      var handled := HandleThenableValue(promise, value);
      if !handled {
        if settled == Fulfilled {
          ResolvePromise(promise, value);
        }
        if settled == Rejected {
          Reject(promise, value);
        }
      }
    }

    ghost method RecordUser(s: nat, f: nat, v: Value)
      requires Valid()
      modifies `history
      ensures Valid() && View() == EnterUser(old(View()), s, f, v)
    {
      history := history.(entered := history.entered + [Entered(s, f, v)]);
      assert View() == EnterUser(old(View()), s, f, v);
    }

    /** The closures the engine itself puts into subscribers; what a user's callback does is left to Run. */
    method EnterSlot(s: nat, callback: Callback, value: Value)
      requires Valid() && CallbackOk(View(), callback) && ValueOk(View(), value) && !callback.Absent?
      modifies this, promises
      ensures Valid() && Extends()
      ensures View() == match callback
        case AdoptFulfil(l) => LatchResolve(old(View()), l, value)
        case AdoptReject(l) => LatchReject(old(View()), l, value)
        case StoreResult(a, i) => Store(old(View()), a, i, value)
        case RejectTarget(p) => CallReject(old(View()), p, value)
        case User(f) => EnterUser(old(View()), s, f, value)
        case Absent => old(View())
    {
      match callback
      case AdoptFulfil(l) => UseResolve(l, value);
      case AdoptReject(l) => UseReject(l, value);
      case StoreResult(a, i) => StoreValue(a, i, value);
      case RejectTarget(p) => ResolverReject(p, value);
      case User(f) => RecordUser(s, f, value);
    }

    /** invokeCallback up to the point where the callback has been entered; true if there is one. */
    method Begins(s: nat) returns (called: bool)
      requires Valid() && Enabled(View(), CallbackBegins) && control.work[0] == s
      requires FinalOwner(View(), s)
      modifies this, promises
      ensures Valid() && Extends() && View() == BeginCallback(old(View()))
      ensures called <==> !NothingToCall(old(View()))
    {
      hide WF, Store, LatchResolve, LatchReject, CallReject, Resume, RecordCall;
      PartsOk(View());
      assert SubscriberOk(View(), subscribers[s]);
      ghost var w := View();
      AbsentIff(w);
      var owner := subscribers[s].owner;
      var settled, value := promises[owner].state, promises[owner].data;
      assert PromiseOk(w, w.promises[owner]);
      var callback := if settled == Fulfilled then subscribers[s].onFulfil else subscribers[s].onReject;
      Enter();
      if callback.Absent? {
        Record(subscribers[s].derived, ConclusionCall(View(), subscribers[s].derived, value, settled != Rejected));
        Conclusion(s, value, settled);
        called := false;
      } else {
        EnterSlot(s, callback, value);
        called := true;
      }
    }

    /** The callback returned or threw: the rest of invokeCallback. */
    method Ends(s: nat, o: Outcome)
      requires Valid() && Enabled(View(), CallbackEnds(o)) && control.call == InCallback(s)
      modifies this, promises
      ensures Valid() && Extends() && View() == EndCallback(old(View()), s, o)
    {
      hide WF, Store, LatchResolve, LatchReject, CallReject, Resume;
      PartsOk(View());
      assert SubscriberOk(View(), subscribers[s]);
      var promise := subscribers[s].derived;
      var value := promises[subscribers[s].owner].data;
      match o {
        case Returned(v) =>
          value := v;
          Record(promise, ConclusionCall(View(), promise, v, true));
        case Thrown(e) =>
          assert value == OwnerData(View(), s);
          CallRejectControl(View(), promise, e);
          ResolverReject(promise, e);
      }
      Conclusion(s, value, Fulfilled);
    }

    /** invokeCallback */
    method InvokeCallback(s: nat, play: Play)
      requires Valid() && WellBehaved(play) && InvokeRun(View(), play).Some?
      requires control.Flushing? && control.work != [] && control.work[0] == s && FinalOwner(View(), s)
      modifies this, promises
      ensures Valid() && Extends() && Some(View()) == InvokeRun(old(View()), play)
    {
      hide WF, BeginCallback, EndCallback, CallRun, TailRun, InvokeRun, NothingToCall, Enabled, FinalOwner, WellBehaved,
        Records;
      InvokeParts(View(), play);
      var called := Begins(s);
      if called {
        Callback(s, play);
      }
      Tail(play);
    }

    /** The callback of s, from its first to its last statement. */
    method Callback(s: nat, play: Play)
      requires Valid() && WellBehaved(play) && CallRun(View(), play).Some?
      requires control.Flushing? && control.call == InCallback(s)
      modifies this, promises
      ensures Valid() && Extends() && Some(View()) == CallRun(old(View()), play)
    {
      hide WF, BeginCallback, EndCallback;
      UserKeepsControl(View(), play.acts);
      Run(play.acts);
      Ends(s, play.outcome);
    }

    /** The part of handleThenable in which a foreign `then` runs. */
    method Tail(play: Play)
      requires Valid() && WellBehaved(play) && TailRun(View(), play).Some?
      modifies this, promises
      ensures Valid() && Extends() && Some(View()) == TailRun(old(View()), play)
    {
      hide WF, TailRun, Exec, Enabled, Records;
      ghost var inside := control.Flushing? && control.call.InThenable?;
      TailParts(View(), play);
      Run(play.tail);
      if inside { Leave(control.(call := NoCall)); }
    }

    /** The forEach of publish, or the single call of a queued invocation. */
    method InvokeEach(subs: seq<nat>, plays: seq<Play>)
      requires Valid() && Remaining(View(), subs, plays)
      modifies this, promises
      ensures Valid() && Extends() && Some(View()) == InvokesRun(old(View()), plays)
    {
      hide PlaysLeft, Remaining, Structure, InvokeRun, InvokesRun, WF, WellBehaved, FinalOwner;
      PlaysStart(View(), subs, plays);
      ghost var end := InvokesRun(View(), plays);
      var k := 0;
      while k < |subs|
        invariant k <= |subs| && Valid() && Extends() && PlaysLeft(View(), subs, plays, k, end)
      {
        PlaysStep(View(), subs, plays, k, end);
        InvokeCallback(subs[k], plays[k]);
        k := k + 1;
      }
      PlaysDone(View(), subs, plays, end);
    }

    /** The flush loop reads the entry at its index. */
    ghost method TakeEntry(t: Task)
      requires Valid() && next < |asyncQueue| && asyncQueue[next] == t
      modifies `next, `history
      ensures Valid() && next == old(next) + 1
      ensures View() == old(View()).(pending := old(View()).pending[1..], history :=
        old(View()).history.(started := old(View()).history.started + [t]))
    {
      assert forall x | x in View().pending[1..] :: x in View().pending;
      next := next + 1;
      history := history.(started := history.started + [t]);
      assert asyncQueue[next..] == old(View()).pending[1..];
    }

    method SetState(p: nat, state: Phase)
      requires Valid() && p < |promises|
      modifies promises[p]
      ensures Valid() && View() == SetPromise(old(View()), p, old(View()).promises[p].(phase := state))
    {
      promises[p].state := state;
      assert Records(promises) == old(Records(promises))[p := promises[p].Record()];
    }

    method DropSubs(p: nat)
      requires Valid() && p < |promises|
      modifies promises[p]
      ensures Valid() && View() == SetPromise(old(View()), p, old(View()).promises[p].(subs := None))
    {
      promises[p].subs := None;
      assert Records(promises) == old(Records(promises))[p := promises[p].Record()];
    }

    /** publishFulfillment and publishRejection up to the forEach. */
    method BeginPublish(p: nat, state: Phase) returns (subs: seq<nat>)
      requires Valid() && p < |promises| && promises[p].subs.Some?
      modifies this, promises
      ensures Valid() && promises == old(promises) && View() == StartPublish(old(View()), p, state)
      ensures next == old(next) && asyncQueue == old(asyncQueue)
      ensures control.Flushing? && control.work == subs
    {
      assert PromiseOk(View(), View().promises[p]);
      SetState(p, state);
      subs := promises[p].subs.value;
      Leave(Flushing(Publishing(p), subs, NoCall));
    }

    /** The first steps of an entry: it leaves the queue, and a promise to be published becomes final. */
    method TaskBegins(t: Task) returns (subs: seq<nat>)
      requires Valid() && Structure(View()) && Enabled(View(), TaskStarts) && asyncQueue[next] == t
      modifies this, promises
      ensures Valid() && promises == old(promises) && View() == StartTask(old(View()))
      ensures next == old(next) + 1 && asyncQueue == old(asyncQueue)
      ensures control.Flushing? && control.work == subs
    {
      assert View().pending[0] == t && t in View().pending && TaskOk(View(), t);
      if !t.Invoke? { PhasesPublish(View(), t.p); }
      TakeEntry(t);
      match t
      case PublishFulfil(p) => subs := BeginPublish(p, Fulfilled);
      case PublishReject(p) => subs := BeginPublish(p, Rejected);
      case Invoke(s) =>
        subs := [s];
        Leave(Flushing(Invoking, [s], NoCall));
    }

    /** `promise._then` is overwritten with the result of forEach, which is undefined. */
    method TaskFinishes(t: Task)
      requires Valid() && Enabled(View(), TaskEnds)
      requires control.current == TaskCurrent(t)
      modifies this, promises
      ensures Valid() && promises == old(promises) && View() == EndTask(old(View()))
      ensures next == old(next) && asyncQueue == old(asyncQueue)
    {
      if !t.Invoke? {
        DropSubs(t.p);
      }
      Leave(Flushing(NoTask, [], NoCall));
    }

    /** `asyncQueue[i][0](asyncQueue[i][1])` */
    method RunTask(t: Task, plays: seq<Play>)
      requires Valid() && Structure(View()) && next < |asyncQueue| && asyncQueue[next] == t
      requires (forall play <- plays :: WellBehaved(play)) && TaskRun(View(), plays).Some?
      modifies this, promises
      ensures Valid() && PromisesAdded() && Some(View()) == TaskRun(old(View()), plays)
      ensures next == old(next) + 1 && old(asyncQueue) <= asyncQueue
    {
      hide PhasesOf, PlacesOf, Schedule, Fifo, ControlInv, TaskRun, InvokesRun, StartTask, Completes, WF;
      ghost var w := View();
      assert w.pending[0] == t;
      TaskStartable(w, plays);
      TaskUnfold(w, StartTask(w), plays);
      TaskShape(w, StartTask(w), t, plays);
      EngineStepKeeps(w, TaskStarts);
      var subs := TaskBegins(t);
      TaskMiddle(t, subs, plays);
    }

    method TaskMiddle(t: Task, subs: seq<nat>, plays: seq<Play>)
      requires Valid() && Structure(View()) && control.Flushing? && control.work == subs
      requires (forall play <- plays :: WellBehaved(play)) && Completes(View(), t, plays)
      modifies this, promises
      ensures Valid() && Extends() && Some(View()) == Step(InvokesRun(old(View()), plays).value, TaskEnds)
    {
      InvokeEach(subs, plays);
      ghost var w := View();
      assert Step(w, TaskEnds) == Some(EndTask(w));
      TaskFinishes(t);
    }

    /** The timer goes off. */
    method FlushStarts()
      requires Valid() && Enabled(View(), FlushBegins)
      modifies this
      ensures Valid() && promises == old(promises) && Extends() && View() == Apply(old(View()), FlushBegins)
    {
      scheduled := scheduled - 1;
      control := Flushing(NoTask, [], NoCall);
    }

    /** The loop of asyncFlush: entries pushed meanwhile are reached too. */
    method FlushLoop(script: seq<seq<Play>>)
      requires Valid() && next == 0 && Flushes(View(), script)
      modifies this, promises
      ensures Valid() && PromisesAdded() && Enabled(View(), FlushEnds)
      ensures Some(Apply(View(), FlushEnds)) == LoopRun(old(View()), script)
    {
      hide Structure, TaskRun, LoopRun, WF;
      var i := 0;
      while i < |asyncQueue|
        invariant next == i <= |script| && i <= |asyncQueue|
        invariant Valid() && PromisesAdded() && Flushes(View(), script[i..])
        invariant LoopRun(View(), script[i..]) == LoopRun(old(View()), script)
        decreases |script| - i
      {
        FlushesStep(View(), script[i..]);
        assert script[i..][0] == script[i] && script[i..][1..] == script[i + 1..];
        RunTask(asyncQueue[i], script[i]);
        i := i + 1;
      }
      LoopShape(View(), script[i..]);
    }

    method FlushFinishes()
      requires Valid() && Enabled(View(), FlushEnds)
      modifies this
      ensures Valid() && promises == old(promises) && View() == Apply(old(View()), FlushEnds)
      ensures next == 0 && asyncQueue == [] && !asyncTimer
    {
      hide WF;
      ghost var w := Apply(View(), FlushEnds);
      asyncQueue := [];
      asyncTimer := false;
      next := 0;
      control := Idle;
      assert View() == w;
    }

    /** asyncFlush */
    method AsyncFlush(script: seq<seq<Play>>)
      requires Valid() && Structure(View()) && next == 0 && FlushRun(View(), script).Some?
      requires forall plays <- script :: forall play <- plays :: WellBehaved(play)
      modifies this, promises
      ensures Valid() && PromisesAdded() && Some(View()) == FlushRun(old(View()), script)
      ensures next == 0 && asyncQueue == [] && !asyncTimer
    {
      EngineStepKeeps(View(), FlushBegins);
      FlushStarts();
      FlushLoop(script);
      FlushFinishes();
    }
  }
}
