/** Reachable states that show where the promises' guarantees end. */
module PromiseExamples {
  import opened Basics
  import opened PromiseWorld
  import opened PromiseFates
  import opened PromiseTheorems

  // ---------------------------------------------------------------- a second resolver call

  // Two fresh promises; then promise 1 is resolved with promise 0 and, while it waits, with a number.
  const FRESH := Promise(Pending, Undefined, Some([]))
  const UNUSED := Trail(Constructed, [], Pending)
  const TWO_PROMISES := EMPTY_WORLD.(promises := [FRESH, FRESH],
                                     history := EMPTY_WORLD.history.(trails := [UNUSED, UNUSED]))

  lemma TwoPromises()
    ensures WF(TWO_PROMISES) && Reachable(TWO_PROMISES)
  {
    var w1 := Apply(EMPTY_WORLD, New);
    var w2 := Apply(w1, New);
    assert Exec(w2, []) == Some(w2);
    assert [New][1..] == [] && Exec(w1, [New]) == Some(w2);
    assert [New, New][1..] == [New] && Exec(EMPTY_WORLD, [New, New]) == Some(w2);
    assert w2.promises == TWO_PROMISES.promises && w2.history.trails == TWO_PROMISES.history.trails;
    assert w2 == TWO_PROMISES;
  }

  ghost predicate Overtaken(w: World) {
    && |w.promises| >= 2 && |w.history.trails| >= 2 && w.promises[0].phase == Pending
    && w.history.trails[1].calls == [ResolveCall(PromiseRef(0), 0), ResolveCall(Plain(1), 1)]
    && SettledAs(w.promises[1], w.history.trails[1], Plain(1), Fulfilled)
  }

  ghost predicate WaitingForZero(w: World) {
    && |w.promises| == |w.history.trails| >= 2 && |w.subscribers| == 1 && w.control.Idle?
    && w.promises[0].phase == Pending && w.promises[1].phase == Pending
    && w.history.trails[1] == Trail(Constructed, [ResolveCall(PromiseRef(0), 0)], Pending)
  }

  lemma FirstCallWaits()
    ensures WF(TWO_PROMISES) && Enabled(TWO_PROMISES, DoResolve(1, PromiseRef(0)))
    ensures WaitingForZero(Apply(TWO_PROMISES, DoResolve(1, PromiseRef(0))))
  {
    var w1 := RecordCall(TWO_PROMISES, 1, ResolveCall(PromiseRef(0), 0));
    assert w1.history.trails[1].calls == [ResolveCall(PromiseRef(0), 0)];
    ResolveResolves(w1, 1, PromiseRef(0));
  }

  lemma SecondCallWins(w: World)
    requires WF(w) && WaitingForZero(w)
    ensures Enabled(w, DoResolve(1, Plain(1))) && Overtaken(Apply(w, DoResolve(1, Plain(1))))
  {
    var w1 := RecordCall(w, 1, ResolveCall(Plain(1), 1));
    assert w1.history.trails[1].calls == [ResolveCall(PromiseRef(0), 0), ResolveCall(Plain(1), 1)];
    ResolveResolves(w1, 1, Plain(1));
  }

  /** Resolvers are not locked: while p waits for promise 0, a second call settles it with something else. */
  lemma SecondCallOvertakes()
    ensures exists w :: Reachable(w) && Overtaken(w)
  {
    TwoPromises();
    FirstCallWaits();
    ReachableStep(TWO_PROMISES, DoResolve(1, PromiseRef(0)));
    var w := Apply(TWO_PROMISES, DoResolve(1, PromiseRef(0)));
    SecondCallWins(w);
    ReachableStep(w, DoResolve(1, Plain(1)));
  }

  // ---------------------------------------------------------------- a thenable that answers twice

  // Promise 0 is resolved with a foreign thenable, which resolves it with itself; promise 1 is resolved with promise 0.
  const ANSWER := Thenable(0)
  const FIRST_CALLS := [ResolveCall(ANSWER, 0)]
  const SECOND_CALLS := [ResolveCall(PromiseRef(0), 0)]
  const FOLLOWER := Subscriber(0, 2, AdoptFulfil(1), AdoptReject(1))

  ghost predicate One(w: World, rec: Promise, trail: Trail) {
    && |w.promises| == |w.history.trails| == 1 && w.subscribers == []
    && w.promises[0] == rec && w.history.trails[0] == trail
  }

  ghost predicate Asked(w: World) {
    && One(w, FRESH, UNUSED.(calls := FIRST_CALLS))
    && w.control.Idle? && w.pending == [] && !w.timer && w.scheduled == 0
    && |w.latches| == 1 && w.latches[0] == Latch(0, ANSWER, false)
  }

  ghost predicate Answered(w: World) {
    && One(w, Promise(Settled, ANSWER, Some([])), Trail(Constructed, FIRST_CALLS, Fulfilled))
    && w.control.Idle? && w.pending == [PublishFulfil(0)] && w.scheduled == 1 && |w.latches| == 1
  }

  ghost predicate Three(w: World, rec0: Promise, rec1: Promise, rec2: Promise) {
    && |w.promises| == |w.history.trails| == 3
    && w.promises[0] == rec0 && w.promises[1] == rec1 && w.promises[2] == rec2
    && w.subscribers == [FOLLOWER] && w.history.trails[1].calls == SECOND_CALLS
  }

  ghost predicate Following(w: World) {
    && Three(w, Promise(Settled, ANSWER, Some([0])), FRESH, FRESH)
    && w.control.Idle? && w.pending == [PublishFulfil(0)] && w.scheduled == 1
    && |w.latches| == 2 && w.latches[1] == Latch(1, PromiseRef(0), false)
  }

  ghost predicate Flushed(w: World) {
    && Three(w, Promise(Fulfilled, ANSWER, Some([0])), FRESH, FRESH)
    && w.control == Flushing(Publishing(0), [0], NoCall) && w.pending == []
    && |w.latches| == 2 && w.latches[1] == Latch(1, PromiseRef(0), false)
  }

  ghost predicate Carried(w: World) {
    && Three(w, Promise(Fulfilled, ANSWER, Some([0])), FRESH, FRESH)
    && w.control == Flushing(Publishing(0), [], InCallback(0)) && w.pending == []
    && |w.latches| == 3 && w.latches[2] == Latch(1, ANSWER, false)
  }

  ghost predicate Changed(w: World) {
    && Three(w, Promise(Fulfilled, ANSWER, Some([0])), Promise(Settled, Plain(1), Some([])), FRESH)
    && w.control == Flushing(Publishing(0), [], InCallback(0)) && w.pending == [PublishFulfil(1)]
  }

  ghost predicate Left(w: World) {
    && |w.promises| == |w.history.trails| == 3 && w.history.trails[1].calls == SECOND_CALLS
    && w.promises[0] == Promise(Fulfilled, ANSWER, None) && w.promises[1] == Promise(Settled, Plain(1), Some([]))
    && w.promises[2] == Promise(Settled, Undefined, Some([]))
    && w.control == Flushing(NoTask, [], NoCall) && w.pending == [PublishFulfil(1), PublishFulfil(2)]
  }

  /** All is quiet; promise 1, resolved once with promise 0, has another outcome. */
  ghost predicate AnswersDiffer(w: World) {
    && |w.promises| == 3 && Quiescent(w) && ResolvedOnceWith(w, 1, 0)
    && w.promises[0].phase == Fulfilled && w.promises[0].data == ANSWER
    && w.promises[1].phase == Fulfilled && w.promises[1].data == Plain(1)
  }

  lemma Step(w: World, e: Event) returns (w': World)
    requires Reachable(w) && WF(w) && Enabled(w, e)
    ensures w' == Apply(w, e) && Reachable(w')
  {
    w' := Apply(w, e);
    ReachableStep(w, e);
  }

  ghost predicate Begun(w: World) {
    One(w, FRESH, UNUSED) && w.latches == [] && w.control.Idle? && w.pending == [] && !w.timer && w.scheduled == 0
  }

  lemma Beginning()
    ensures exists w :: WF(w) && Reachable(w) && Begun(w)
  {
    assert Exec(EMPTY_WORLD, []) == Some(EMPTY_WORLD);
    ReachableStep(EMPTY_WORLD, New);
    assert Begun(Apply(EMPTY_WORLD, New));
  }

  lemma Asking()
    ensures exists w :: WF(w) && Reachable(w) && Asked(w)
  {
    hide Reachable, Apply, Enabled, Begun, Asked;
    Beginning();
    var w1 :| WF(w1) && Reachable(w1) && Begun(w1);
    AskingStep(w1);
    var w2 := Step(w1, DoResolve(0, ANSWER));
  }

  lemma AskingStep(w: World)
    requires WF(w) && Begun(w)
    ensures Enabled(w, DoResolve(0, ANSWER)) && Asked(Apply(w, DoResolve(0, ANSWER)))
  {
    assert [] + FIRST_CALLS == FIRST_CALLS;
  }

  lemma Answering(w: World)
    requires WF(w) && Asked(w)
    ensures Enabled(w, ThenableResolves(0, ANSWER)) && Answered(Apply(w, ThenableResolves(0, ANSWER)))
  {
    assert [] + [PublishFulfil(0)] == [PublishFulfil(0)];
  }

  ghost predicate Joined(w: World) {
    && |w.promises| == |w.history.trails| == 2 && w.subscribers == []
    && w.promises[0] == Promise(Settled, ANSWER, Some([])) && w.promises[1] == FRESH && w.history.trails[1] == UNUSED
    && w.control.Idle? && w.pending == [PublishFulfil(0)] && w.scheduled == 1 && |w.latches| == 1
  }

  lemma Joining(w: World)
    requires WF(w) && Answered(w)
    ensures Enabled(w, New) && Joined(Apply(w, New))
  {
  }

  lemma Waiting(w: World)
    requires WF(w) && Joined(w)
    ensures Enabled(w, DoResolve(1, PromiseRef(0))) && Following(Apply(w, DoResolve(1, PromiseRef(0))))
  {
    var none: seq<nat> := [];
    assert [] + SECOND_CALLS == SECOND_CALLS && [] + [FOLLOWER] == [FOLLOWER] && none + [0] == [0];
  }

  lemma Publishes(w: World)
    requires WF(w) && Following(w)
    ensures Enabled(w, FlushBegins) && Enabled(Apply(w, FlushBegins), TaskStarts)
    ensures Flushed(Apply(Apply(w, FlushBegins), TaskStarts))
  {
  }

  lemma Carrying(w: World)
    requires WF(w) && Flushed(w)
    ensures Enabled(w, CallbackBegins) && Carried(Apply(w, CallbackBegins))
  {
  }

  lemma Changing(w: World)
    requires WF(w) && Carried(w)
    ensures Enabled(w, ThenableResolves(2, Plain(1))) && Changed(Apply(w, ThenableResolves(2, Plain(1))))
  {
  }

  lemma Leaving(w: World)
    requires WF(w) && Changed(w)
    ensures Enabled(w, CallbackEnds(Returned(Undefined)))
    ensures Enabled(Apply(w, CallbackEnds(Returned(Undefined))), TaskEnds)
    ensures Left(Apply(Apply(w, CallbackEnds(Returned(Undefined))), TaskEnds))
  {
  }

  /** The publish task of a promise nobody waits for. */
  lemma PublishesAlone(w: World, p: nat)
    requires WF(w) && w.control == Flushing(NoTask, [], NoCall) && w.pending != [] && w.pending[0] == PublishFulfil(p)
    requires p < |w.promises| && w.promises[p].subs == Some([])
    ensures Enabled(w, TaskStarts) && Enabled(Apply(w, TaskStarts), TaskEnds)
    ensures var w' := Apply(Apply(w, TaskStarts), TaskEnds);
      && w'.control == w.control && w'.pending == w.pending[1..] && w'.history.trails == w.history.trails
      && w'.promises == w.promises[p := Promise(Fulfilled, w.promises[p].data, None)]
      && w'.subscribers == w.subscribers && w'.latches == w.latches && w'.history.log == w.history.log
  {
  }

  lemma ReachesFollowing()
    ensures exists w :: WF(w) && Reachable(w) && Following(w)
  {
    hide Reachable, Asked, Answered, Joined, Following, Apply, Enabled;
    Asking();
    var w1 :| WF(w1) && Reachable(w1) && Asked(w1);
    Answering(w1);
    var w2 := Step(w1, ThenableResolves(0, ANSWER));
    Joining(w2);
    var w3 := Step(w2, New);
    Waiting(w3);
    var w4 := Step(w3, DoResolve(1, PromiseRef(0)));
  }

  lemma ReachesLeft()
    ensures exists w :: WF(w) && Reachable(w) && Left(w)
  {
    hide Reachable, Following, Flushed, Carried, Changed, Left, Apply, Enabled;
    ReachesFollowing();
    var w4 :| WF(w4) && Reachable(w4) && Following(w4);
    Publishes(w4);
    var w5 := Step(w4, FlushBegins);
    var w6 := Step(w5, TaskStarts);
    Carrying(w6);
    var w7 := Step(w6, CallbackBegins);
    Changing(w7);
    var w8 := Step(w7, ThenableResolves(2, Plain(1)));
    Leaving(w8);
    var w9 := Step(w8, CallbackEnds(Returned(Undefined)));
    var w10 := Step(w9, TaskEnds);
  }

  lemma Finishing(w: World)
    requires WF(w) && w.control == Flushing(NoTask, [], NoCall) && w.pending == []
    ensures Enabled(w, FlushEnds)
    ensures var w' := Apply(w, FlushEnds);
      && Quiescent(w') && w'.promises == w.promises && w'.history.trails == w.history.trails
      && w'.subscribers == w.subscribers
  {
  }

  ghost predicate Last(w: World) {
    && |w.promises| == |w.history.trails| == 3 && w.history.trails[1].calls == SECOND_CALLS
    && w.promises[0] == Promise(Fulfilled, ANSWER, None) && w.promises[1] == Promise(Fulfilled, Plain(1), None)
    && w.promises[2] == Promise(Settled, Undefined, Some([]))
    && w.control == Flushing(NoTask, [], NoCall) && w.pending == [PublishFulfil(2)]
  }

  lemma ReachesLast()
    ensures exists w :: WF(w) && Reachable(w) && Last(w)
  {
    hide Reachable, Apply, Enabled;
    ReachesLeft();
    var w10 :| WF(w10) && Reachable(w10) && Left(w10);
    PublishesAlone(w10, 1);
    var w11 := Step(w10, TaskStarts);
    var w12 := Step(w11, TaskEnds);
    assert Last(w12);
  }

  /**
    Where adoption fails: promise 0 is fulfilled with a foreign thenable; promise 1, resolved once with promise 0,
    asks that thenable again and gets another answer. All is quiet in the end, and the two outcomes differ.
  */
  lemma ForeignAnswersTwice()
    ensures exists w :: Reachable(w) && AnswersDiffer(w)
  {
    hide Reachable, Apply, Enabled, WF, Quiescent;
    ReachesLast();
    var w12 :| WF(w12) && Reachable(w12) && Last(w12);
    PublishesAlone(w12, 2);
    var w13 := Step(w12, TaskStarts);
    var w14 := Step(w13, TaskEnds);
    Finishing(w14);
    var w := Step(w14, FlushEnds);
    assert AnswersDiffer(w);
  }

  // ---------------------------------------------------------------- a rejection that becomes a fulfilment

  // Promise 0 is fulfilled with 1; promise 1 is rejected with promise 0 as the reason; `then` without callbacks on
  // promise 1 gives promise 2, which follows promise 0.
  const PLAIN_THEN := Subscriber(1, 2, Absent, Absent)
  const REASON_THEN := Subscriber(0, 3, AdoptFulfil(0), AdoptReject(0))
  const KEPT := Promise(Fulfilled, Plain(1), None)
  const BOTH := [PublishFulfil(0), PublishReject(1)]

  ghost predicate Sources(w: World) {
    && |w.promises| == |w.history.trails| == 2 && w.subscribers == [] && w.latches == []
    && w.promises[0] == Promise(Settled, Plain(1), Some([])) && w.promises[1] == FRESH
    && w.history.trails[1] == UNUSED
    && w.control.Idle? && w.pending == [PublishFulfil(0)] && w.timer && w.scheduled == 1
  }

  ghost predicate Turned(w: World, rec0: Promise, rec1: Promise, rec2: Promise) {
    && |w.promises| == |w.history.trails| == 3 && w.subscribers == [PLAIN_THEN] && w.latches == []
    && w.promises[0] == rec0 && w.promises[1] == rec1 && w.promises[2] == rec2
    && w.history.trails[1].origin == Constructed
  }

  ghost predicate Chained(w: World) {
    && Turned(w, Promise(Settled, Plain(1), Some([])), Promise(Pending, Undefined, Some([0])), FRESH)
    && w.control.Idle? && w.pending == [PublishFulfil(0)] && w.timer && w.scheduled == 1
  }

  ghost predicate Refused(w: World) {
    && Turned(w, Promise(Settled, Plain(1), Some([])), Promise(Settled, PromiseRef(0), Some([0])), FRESH)
    && w.control.Idle? && w.pending == [PublishFulfil(0), PublishReject(1)] && w.scheduled == 1
  }

  ghost predicate Published(w: World) {
    && Turned(w, KEPT, Promise(Rejected, PromiseRef(0), Some([0])), FRESH)
    && w.control == Flushing(Publishing(1), [0], NoCall) && w.pending == []
  }

  ghost predicate Four(w: World, rec1: Promise, rec2: Promise, rec3: Promise, closed: bool) {
    && |w.promises| == |w.history.trails| == 4 && w.subscribers == [PLAIN_THEN, REASON_THEN]
    && w.promises[0] == KEPT && w.promises[1] == rec1 && w.promises[2] == rec2 && w.promises[3] == rec3
    && w.latches == [Latch(2, PromiseRef(0), closed)]
  }

  ghost predicate FollowsReason(w: World) {
    && Four(w, Promise(Rejected, PromiseRef(0), Some([0])), FRESH, FRESH, false)
    && w.control == Flushing(Publishing(1), [], NoCall) && w.pending == [Invoke(1)]
  }

  ghost predicate Invited(w: World) {
    && Four(w, Promise(Rejected, PromiseRef(0), None), FRESH, FRESH, false)
    && w.control == Flushing(Invoking, [1], NoCall) && w.pending == []
  }

  ghost predicate Taken(w: World) {
    && Four(w, Promise(Rejected, PromiseRef(0), None), Promise(Settled, Plain(1), Some([])), FRESH, true)
    && w.control == Flushing(Invoking, [], InCallback(1)) && w.pending == [PublishFulfil(2)]
  }

  ghost predicate Over(w: World) {
    && Four(w, Promise(Rejected, PromiseRef(0), None), Promise(Settled, Plain(1), Some([])),
            Promise(Settled, Undefined, Some([])), true)
    && w.control == Flushing(NoTask, [], NoCall) && w.pending == [PublishFulfil(2), PublishFulfil(3)]
  }

  /** All is quiet; promise 2 comes from `then` without callbacks on promise 1, which is rejected, and is fulfilled. */
  ghost predicate RejectionFulfils(w: World) {
    && |w.promises| == 4 && Quiescent(w) && w.subscribers == [PLAIN_THEN, REASON_THEN]
    && w.promises[1].phase == Rejected && w.promises[1].data == PromiseRef(0)
    && w.promises[0].phase == Fulfilled && w.promises[0].data == Plain(1)
    && w.promises[2].phase == Fulfilled && w.promises[2].data == Plain(1)
  }

  lemma Fulfilling(w: World)
    requires WF(w) && Begun(w)
    ensures Enabled(w, DoResolve(0, Plain(1))) && Enabled(Apply(w, DoResolve(0, Plain(1))), New)
    ensures Sources(Apply(Apply(w, DoResolve(0, Plain(1))), New))
  {
    assert [] + [PublishFulfil(0)] == [PublishFulfil(0)];
  }

  lemma Chaining(w: World)
    requires WF(w) && Sources(w)
    ensures Enabled(w, DoThen(1, Absent, Absent)) && Chained(Apply(w, DoThen(1, Absent, Absent)))
  {
    var none: seq<nat> := [];
    assert none + [0] == [0] && [] + [PLAIN_THEN] == [PLAIN_THEN];
  }

  lemma Refusing(w: World)
    requires WF(w) && Chained(w)
    ensures Enabled(w, DoReject(1, PromiseRef(0))) && Refused(Apply(w, DoReject(1, PromiseRef(0))))
  {
    assert [PublishFulfil(0)] + [PublishReject(1)] == [PublishFulfil(0), PublishReject(1)];
  }

  ghost predicate Draining(w: World, pending: seq<Task>, rec0: Promise) {
    && Turned(w, rec0, Promise(Settled, PromiseRef(0), Some([0])), FRESH)
    && w.control == Flushing(NoTask, [], NoCall) && w.pending == pending
  }

  lemma Starting(w: World)
    requires WF(w) && Refused(w)
    ensures Enabled(w, FlushBegins)
    ensures Draining(Apply(w, FlushBegins), BOTH, Promise(Settled, Plain(1), Some([])))
  {
  }

  lemma Rejecting(w: World)
    requires WF(w) && Draining(w, [PublishReject(1)], KEPT)
    ensures Enabled(w, TaskStarts) && Published(Apply(w, TaskStarts))
  {
  }

  lemma Passing(w: World)
    requires WF(w) && Published(w)
    ensures Enabled(w, CallbackBegins) && FollowsReason(Apply(w, CallbackBegins))
  {
    hide FollowsReason, Resume;
    var w1 := TakeWork(w);
    var c := ConclusionCall(w1, 2, PromiseRef(0), false);
    PassingOn(RecordCall(w1, 2, c));
    assert Apply(w, CallbackBegins) == Resume(RecordCall(w1, 2, c), 0, PromiseRef(0), false);
  }

  lemma PassingOn(w: World)
    requires WF(w) && Turned(w, KEPT, Promise(Rejected, PromiseRef(0), Some([0])), FRESH)
    requires w.control == Flushing(Publishing(1), [], InCallback(0)) && w.pending == []
    ensures FollowsReason(Resume(w, 0, PromiseRef(0), false))
  {
    assert [PLAIN_THEN] + [REASON_THEN] == [PLAIN_THEN, REASON_THEN];
  }

  lemma Inviting(w: World)
    requires WF(w) && FollowsReason(w)
    ensures Enabled(w, TaskEnds) && Enabled(Apply(w, TaskEnds), TaskStarts)
    ensures Invited(Apply(Apply(w, TaskEnds), TaskStarts))
  {
  }

  lemma Taking(w: World)
    requires WF(w) && Invited(w)
    ensures Enabled(w, CallbackBegins) && Taken(Apply(w, CallbackBegins))
  {
  }

  lemma Ending(w: World)
    requires WF(w) && Taken(w)
    ensures Enabled(w, CallbackEnds(Returned(Undefined)))
    ensures Enabled(Apply(w, CallbackEnds(Returned(Undefined))), TaskEnds)
    ensures Over(Apply(Apply(w, CallbackEnds(Returned(Undefined))), TaskEnds))
  {
  }

  lemma ReachesDraining()
    ensures exists w :: WF(w) && Reachable(w) && Draining(w, BOTH, Promise(Settled, Plain(1), Some([])))
  {
    hide Reachable, Begun, Sources, Chained, Refused, Draining, Apply, Enabled;
    Beginning();
    var w1 :| WF(w1) && Reachable(w1) && Begun(w1);
    Fulfilling(w1);
    var w2 := Step(w1, DoResolve(0, Plain(1)));
    var w3 := Step(w2, New);
    Chaining(w3);
    var w4 := Step(w3, DoThen(1, Absent, Absent));
    Refusing(w4);
    var w5 := Step(w4, DoReject(1, PromiseRef(0)));
    Starting(w5);
    var w6 := Step(w5, FlushBegins);
  }

  lemma ReachesPublished()
    ensures exists w :: WF(w) && Reachable(w) && Published(w)
  {
    hide Reachable, Published, Apply, Enabled, WF;
    ReachesDraining();
    var w6 :| WF(w6) && Reachable(w6) && Draining(w6, BOTH, Promise(Settled, Plain(1), Some([])));
    PublishesAlone(w6, 0);
    var w7 := Step(w6, TaskStarts);
    var w8 := Step(w7, TaskEnds);
    assert w8.pending == [PublishReject(1)];
    Rejecting(w8);
    var w9 := Step(w8, TaskStarts);
  }

  lemma ReachesOver()
    ensures exists w :: WF(w) && Reachable(w) && Over(w)
  {
    hide Reachable, Published, FollowsReason, Invited, Taken, Over, Apply, Enabled;
    ReachesPublished();
    var w9 :| WF(w9) && Reachable(w9) && Published(w9);
    Passing(w9);
    var w10 := Step(w9, CallbackBegins);
    Inviting(w10);
    var w11 := Step(w10, TaskEnds);
    var w12 := Step(w11, TaskStarts);
    Taking(w12);
    var w13 := Step(w12, CallbackBegins);
    Ending(w13);
    var w14 := Step(w13, CallbackEnds(Returned(Undefined)));
    var w15 := Step(w14, TaskEnds);
  }

  /** Only the last publish task, of promise 3, is left. */
  ghost predicate Remains(w: World) {
    && |w.promises| == |w.history.trails| == 4 && w.subscribers == [PLAIN_THEN, REASON_THEN]
    && w.promises[0] == KEPT && w.promises[1] == Promise(Rejected, PromiseRef(0), None) && w.promises[2] == KEPT
    && w.promises[3] == Promise(Settled, Undefined, Some([]))
    && w.control == Flushing(NoTask, [], NoCall) && w.pending == [PublishFulfil(3)]
  }

  lemma ReachesRemains()
    ensures exists w :: WF(w) && Reachable(w) && Remains(w)
  {
    hide Reachable, Apply, Enabled;
    ReachesOver();
    var w15 :| WF(w15) && Reachable(w15) && Over(w15);
    PublishesAlone(w15, 2);
    var w16 := Step(w15, TaskStarts);
    var w17 := Step(w16, TaskEnds);
    assert Remains(w17);
  }

  /**
    Where passing on fails: promise 1 is rejected, its reason is promise 0, and `then` without callbacks on promise 1
    gives a promise that is fulfilled.
  */
  lemma RejectionBecomesFulfilment()
    ensures exists w :: Reachable(w) && RejectionFulfils(w)
  {
    hide Reachable, Apply, Enabled, WF, Quiescent;
    ReachesRemains();
    var w17 :| WF(w17) && Reachable(w17) && Remains(w17);
    PublishesAlone(w17, 3);
    var w18 := Step(w17, TaskStarts);
    var w19 := Step(w18, TaskEnds);
    Finishing(w19);
    var w := Step(w19, FlushEnds);
    assert RejectionFulfils(w);
  }
}
