/**
  ClusterRunner.run against everything that can happen meanwhile: a state machine whose runner steps
  alternate, at every point where another thread can get in, with what the others do.
*/
module ClusterRunner {
  type Sensor = nat
  type Group = seq<Sensor>

  /** Where the runner is. */
  datatype Place =
    | Testing       // while (!isInterrupted())
    | Deciding      // groupLooper.isEmpty() || updateSensorsFlag.get()
    | Pausing       // the pause before an update
    | Clearing      // updateSensorsFlag.set(false); sensorGroups.clear()
    | Reading       // clusterMgr.getSensorGroups(...)
    | Choosing      // groupLooper.next() and startSensors
    | Resting       // the pause after a round in which nothing was started
    | Waiting       // the first waitForComplete
    | Stopping      // stopLaggards
    | WaitingAgain  // the second waitForComplete
    | Cancelling    // canceling all futures, passing on the interrupt
    | Finishing     // completedLatch.countDown()
    | Done

  /** What others do: sensors come and go, an update is notified after the change numbered k, a thread interrupts. */
  datatype Act = Change(data: seq<Group>) | Notify(k: nat) | Remove(s: Sensor) | Interrupt

  datatype Wait = Completed | TimedOut | Cancelled | Failed | Interrupted

  /** What the runner's next step meets: who is connected, who is potentially reading, how a wait ends. */
  datatype Choice = Choice(connected: set<Sensor>, reading: set<Sensor>, wait: Wait)

  datatype Turn = Turn(acts: seq<Act>, choice: Choice)

  /** A batch of readers was started, or its laggards were told to stop, or the latch was counted down. */
  datatype Mark =
    | Started(group: nat, started: Group, basis: Basis)
    | Stopped(group: nat, told: Group, reading: set<Sensor>, left: set<Sensor>, gone: set<Sensor>)
    | Opened

  /**
    What a batch was started on: the groups as last read, at the change numbered version; the sensors removed since;
    who was connected; and the latest change notified when the runner last tested for an update.
  */
  datatype Basis = Basis(source: seq<Group>, gone: set<Sensor>, connected: set<Sensor>, notified: nat, version: nat)

  /**
    pos: where groupLooper's iterator is; cur, started: the current batch; left: sensors that remove has taken
    out of its group for good. version counts changes of the data, notified is the latest change notified, and
    groupsVersion the change the groups were read at. requested: an interrupt was sent; late: batches
    started since. chosen: the groups taken in turn since they were read; quiet: how many groups in a row
    had nobody to start.
  */
  datatype State = State(
    groups: seq<Group>, flag: bool, interrupted: bool, latch: nat,
    place: Place, pos: nat, anyStarted: bool, waitInterrupted: bool,
    data: seq<Group>, history: History)

  datatype History = History(
    version: nat, notified: nat, groupsVersion: nat, requested: bool, late: nat,
    chosen: seq<nat>, quiet: nat, cur: nat, started: Group, left: set<Sensor>, trace: seq<Mark>, news: News)

  /**
    dataAt: the data after each change; given: the groups the runner was made with; source: the groups as last read,
    gone: the sensors removed since; notices: notifications so far, counting the wish for a first read; seen: those
    before the last read; tested: the latest change notified at the last test for an update.
  */
  datatype News = News(dataAt: seq<seq<Group>>, given: seq<Group>, source: seq<Group>, gone: set<Sensor>,
                       notices: nat, seen: nat, tested: nat)

  // ---------------------------------------------------------------- steps

  /** List.remove: the first occurrence. */
  function WithoutFirst(g: Group, s: Sensor): Group {
    if g == [] then [] else if g[0] == s then g[1..] else [g[0]] + WithoutFirst(g[1..], s)
  }

  /** remove: from the first group that has the sensor. */
  function RemoveFrom(gs: seq<Group>, s: Sensor): (r: seq<Group>)
    ensures |r| == |gs|
  {
    if gs == [] then []
    else if s in gs[0] then [WithoutFirst(gs[0], s)] + gs[1..]
    else [gs[0]] + RemoveFrom(gs[1..], s)
  }

  /** The sensors that have left the current batch's group, if x was the last to go. */
  function Leaving(h: History, before: seq<Group>, after: seq<Group>, x: Sensor): set<Sensor>
    requires |after| == |before|
  {
    if h.cur < |before| && x in before[h.cur] && x !in after[h.cur] then h.left + {x} else h.left
  }

  /** While the groups are being rebuilt their lock keeps remove out. */
  function Happens(s: State, a: Act): State {
    match a
    case Change(data) =>
      var news := s.history.news.(dataAt := s.history.news.dataAt + [data]);
      s.(data := data, history := s.history.(version := s.history.version + 1, news := news))
    case Notify(k) =>
      var news := s.history.news.(notices := s.history.news.notices + 1);
      s.(flag := true, history := s.history.(notified := Later(s.history.notified, k, s.history.version), news := news))
    case Remove(x) =>
      if s.place.Reading? then s
      else
        s.(groups := RemoveFrom(s.groups, x),
           history := s.history.(left := Leaving(s.history, s.groups, RemoveFrom(s.groups, x), x),
                                 news := s.history.news.(gone := s.history.news.gone + {x})))
    case Interrupt =>
      s.(interrupted := true,
         history := Requested(s.history))
  }

  /** An interrupt was sent. */
  function Requested(h: History): History { if h.requested then h else h.(requested := true, late := 0) }

  /** A notification follows its change, so k can be no later than the changes so far. */
  function Later(notified: nat, k: nat, version: nat): nat {
    if notified < k <= version then k else notified
  }

  function Happen(s: State, acts: seq<Act>): State {
    if acts == [] then s else Happens(Happen(s, acts[..|acts| - 1]), acts[|acts| - 1])
  }

  function Filter(g: Group, keep: set<Sensor>): (r: Group)
    ensures forall x :: x in r <==> x in g && x in keep
  {
    if g == [] then [] else (if g[0] in keep then [g[0]] else []) + Filter(g[1..], keep)
  }

  function Marked(h: History, m: Mark): History { h.(trace := h.trace + [m]) }

  /** groupLooper.next(): the group it returns. */
  function NextGroup(s: State): nat { if s.pos < |s.groups| then s.pos else 0 }

  function AfterStart(s: State, c: Choice): State
    requires s.groups != []
  {
    var g := NextGroup(s);
    var started := Filter(s.groups[g], c.connected);
    var any := s.anyStarted && s.pos < |s.groups|;
    var h := s.history.(chosen := s.history.chosen + [g], quiet := if started == [] then s.history.quiet + 1 else 0);
    var s1 := s.(pos := g + 1, history := h);
    if started == [] then s1.(anyStarted := any, place := if g + 1 == |s.groups| && !any then Resting else Testing)
    else s1.(anyStarted := true, waitInterrupted := false, place := Waiting,
             history := Marked(h.(cur := g, started := started, left := {}, late := h.late + 1),
                               Started(g, started, BasisOf(h, c.connected))))
  }

  function BasisOf(h: History, connected: set<Sensor>): Basis {
    Basis(h.news.source, h.news.gone, connected, h.news.tested, h.groupsVersion)
  }

  function AfterWait(s: State, w: Wait, next: Place): State {
    if w.Interrupted? then
      s.(interrupted := false, waitInterrupted := true, place := next, history := Requested(s.history))
    else s.(place := next)
  }

  function AfterStop(s: State, c: Choice): State {
    var left := if s.history.cur < |s.groups| then s.groups[s.history.cur] else [];
    s.(place := WaitingAgain,
       history := Marked(s.history, Stopped(s.history.cur, Filter(left, c.reading), c.reading, s.history.left,
                                            s.history.news.gone)))
  }

  /** The runner's next step. */
  function Advance(s: State, c: Choice): State {
    match s.place
    case Testing => s.(place := if s.interrupted then Finishing else Deciding)
    case Deciding =>
      s.(place := if s.groups == [] || s.flag then Pausing else Choosing,
         history := s.history.(news := s.history.news.(tested := s.history.notified)))
    case Pausing => s.(place := Clearing)
    case Clearing =>
      s.(flag := false, groups := [], place := Reading,
         history := s.history.(news := s.history.news.(seen := s.history.news.notices)))
    case Reading =>
      s.(groups := s.data, pos := 0, place := Testing,
         history := s.history.(groupsVersion := s.history.version, chosen := [],
                               news := s.history.news.(source := s.data, gone := {})))
    case Choosing => if s.groups == [] then s else AfterStart(s, c)
    case Resting => s.(place := Testing)
    case Waiting => AfterWait(s, c.wait, Stopping)
    case Stopping => AfterStop(s, c)
    case WaitingAgain => AfterWait(s, c.wait, Cancelling)
    case Cancelling => s.(interrupted := s.interrupted || s.waitInterrupted, place := Testing)
    case Finishing =>
      s.(latch := if s.latch > 0 then s.latch - 1 else 0, place := Done, history := Marked(s.history, Opened))
    case Done => s
  }

  function TakeTurn(s: State, t: Turn): State { Advance(Happen(s, t.acts), t.choice) }

  function Exec(s: State, ts: seq<Turn>): State {
    if ts == [] then s else TakeTurn(Exec(s, ts[..|ts| - 1]), ts[|ts| - 1])
  }

  /** A runner just made: for a cluster, whose groups are still to be read, or for groups given beforehand. */
  ghost predicate Fresh(s: State) {
    && s.place == Testing && s.latch == 1 && s.pos == 0 && !s.anyStarted && !s.waitInterrupted
    && (s.flag || s.groups != [])
    && s.history == NewHistory(s.groups, s.flag, s.interrupted, s.data)
  }

  function NewHistory(groups: seq<Group>, flag: bool, interrupted: bool, data: seq<Group>): History {
    History(0, 0, 0, interrupted, 0, [], 0, 0, [], {}, [],
            News([data], groups, groups, {}, if flag then 1 else 0, 0, 0))
  }

  // ---------------------------------------------------------------- start/stop bracketing

  /** Every batch started is stopped, as the same group, before anything else happens. */
  ghost predicate Paired(trace: seq<Mark>) {
    trace == [] ||
    (|trace| >= 2 && trace[|trace| - 2].Started? && trace[|trace| - 1].Stopped? &&
     StopsBatch(trace[|trace| - 2], trace[|trace| - 1]) && Paired(trace[..|trace| - 2]))
  }

  /**
    A sensor of the batch that may still be reading is told to stop exactly if it has not left the group; and so are
    those of the group that read without having been started.
  */
  ghost predicate StopsBatch(a: Mark, b: Mark)
    requires a.Started? && b.Stopped?
  {
    && a.group == b.group < |a.basis.source| && a.started != []
    && (forall x <- a.started :: x in b.reading ==> (x in b.told <==> x !in b.left))
    && (forall x <- b.told :: x in b.reading && x in a.basis.source[a.group])
    && (forall x <- a.basis.source[a.group] :: x in b.reading ==> x in b.told || x in b.gone)
  }

  ghost predicate InBatch(p: Place) { p.Waiting? || p.Stopping? }

  ghost predicate TraceInv(s: State) {
    var trace := s.history.trace;
    if InBatch(s.place) then
      && trace != [] && Paired(trace[..|trace| - 1]) && s.history.started != []
      && trace[|trace| - 1].Started? && trace[|trace| - 1].basis.source == s.history.news.source
      && trace[|trace| - 1].group == s.history.cur && trace[|trace| - 1].started == s.history.started
    else if s.place.Done? then trace != [] && trace[|trace| - 1] == Opened && Paired(trace[..|trace| - 1])
    else Paired(trace)
  }

  /** The sensors of the running batch are in its group, but for those that left it. */
  ghost predicate BatchInv(s: State) {
    InBatch(s.place) ==>
      && s.history.cur < |s.groups|
      && forall x <- s.history.started :: x in s.groups[s.history.cur] <==> x !in s.history.left
  }

  /** Group by group, gs has the sensors of source, but for some that are gone. */
  ghost predicate GroupsFrom(gs: seq<Group>, source: seq<Group>, gone: set<Sensor>) {
    && |gs| == |source|
    && forall i :: 0 <= i < |gs| ==> GroupFrom(gs[i], source[i], gone)
  }

  ghost predicate GroupFrom(g: Group, source: Group, gone: set<Sensor>) {
    (forall x <- g :: x in source) && (forall x <- source :: x in gone || x in g)
  }

  /** Where the groups come from: the data as of the read, or what the runner was made with. */
  ghost predicate SourceOk(source: seq<Group>, version: nat, news: News) {
    || (version == 0 && source == news.given)
    || (version < |news.dataAt| && source == news.dataAt[version])
  }

  ghost predicate NewsInv(s: State) {
    var news := s.history.news;
    && |news.dataAt| == s.history.version + 1 && news.dataAt[s.history.version] == s.data
    && SourceOk(news.source, s.history.groupsVersion, news)
    && news.seen <= news.notices && (s.flag <==> news.seen < news.notices)
    && (!s.place.Reading? ==> GroupsFrom(s.groups, news.source, news.gone))
    && (s.place.Choosing? ==> news.tested <= s.history.groupsVersion)
  }

  /**
    A batch starts exactly the connected sensors of a group, as it was read at a change not older than the latest one
    notified, but for sensors that were removed since.
  */
  ghost predicate StartedOk(m: Mark, news: News)
    requires m.Started?
  {
    && m.basis.notified <= m.basis.version && SourceOk(m.basis.source, m.basis.version, news)
    && m.group < |m.basis.source|
    && (forall x <- m.started :: x in m.basis.connected && x in m.basis.source[m.group])
    && (forall x <- m.basis.source[m.group] :: x in m.basis.connected ==> x in m.started || x in m.basis.gone)
  }

  ghost predicate MarksInv(s: State) {
    forall m <- s.history.trace :: m.Started? ==> StartedOk(m, s.history.news)
  }

  /** Nothing but an interrupt ends the loop. */
  ghost predicate EndInv(s: State) {
    && (s.interrupted ==> s.history.requested)
    && (s.place.Waiting? ==> !s.waitInterrupted)
    && (s.waitInterrupted && AfterBatch(s.place) ==> s.history.requested)
    && (s.place.Finishing? || s.place.Done? ==> s.history.requested)
  }

  ghost predicate LatchInv(s: State) { s.latch == if s.place.Done? then 0 else 1 }

  // ---------------------------------------------------------------- no lost update, no lost interrupt

  /** With the flag down, and not in the middle of an update, the groups are as new as the last notification. */
  ghost predicate UpdateInv(s: State) {
    && s.history.notified <= s.history.version && s.history.groupsVersion <= s.history.version
    && (!s.flag && !s.place.Reading? ==> s.history.notified <= s.history.groupsVersion)
    && (s.place.Choosing? ==> s.groups != [])
  }

  ghost predicate AfterBatch(p: Place) { p.Stopping? || p.WaitingAgain? || p.Cancelling? }

  /** An interrupt is still pending, or remembered for later, or the runner is on its way out. */
  ghost predicate InterruptInv(s: State) {
    s.history.requested ==>
      && (s.interrupted || (s.waitInterrupted && AfterBatch(s.place)) || s.place.Finishing? || s.place.Done?)
      && s.history.late <= 1
      && (s.place.Deciding? || s.place.Pausing? || s.place.Clearing? || s.place.Reading? || s.place.Choosing? ==>
            s.history.late == 0)
  }

  // ---------------------------------------------------------------- taking turns

  /** From group 0 on, each choice is the one after the last, and after the last group comes the first. */
  ghost predicate InTurn(chosen: seq<nat>, n: nat) {
    && (chosen != [] ==> n > 0 && chosen[0] == 0)
    && (forall i :: 0 < i < |chosen| ==> chosen[i] == After(chosen[i - 1], n))
  }

  function After(g: nat, n: nat): nat { if g + 1 < n then g + 1 else 0 }

  ghost predicate TurnInv(s: State) {
    var chosen := s.history.chosen;
    !s.place.Reading? ==>
      && InTurn(chosen, |s.groups|) && s.pos <= |s.groups|
      && s.pos == if chosen == [] then 0 else chosen[|chosen| - 1] + 1
  }

  /** The runner rests only after nobody could be started in a whole round. */
  ghost predicate RestInv(s: State) {
    && (!s.anyStarted ==> s.pos <= s.history.quiet)
    && (s.place.Resting? ==> |s.groups| <= s.history.quiet)
    && (|s.history.chosen| > |s.groups| && !s.place.Reading? ==> (s.anyStarted <==> s.history.quiet < s.pos))
  }

  ghost predicate Inv(s: State) {
    && TraceInv(s) && BatchInv(s) && LatchInv(s) && UpdateInv(s) && InterruptInv(s) && TurnInv(s) && RestInv(s)
    && NewsInv(s) && MarksInv(s) && EndInv(s)
  }

  /** That is, the i-th choice is group i modulo their number. */
  lemma {:induction false} RoundRobin(chosen: seq<nat>, n: nat, i: nat)
    requires InTurn(chosen, n) && i < |chosen|
    ensures n > 0 && chosen[i] == i % n
  {
    if i > 0 {
      RoundRobin(chosen, n, i - 1);
      Successor(i - 1, n);
    }
  }

  lemma Successor(i: nat, n: nat)
    requires n > 0
    ensures (i + 1) % n == After(i % n, n)
  {
    var q, r := i / n, i % n;
    assert i == q * n + r;
    if r + 1 < n {
      Remainder(i + 1, q, n, r + 1);
    } else {
      assert i + 1 == (q + 1) * n;
      Remainder(i + 1, q + 1, n, 0);
    }
  }

  lemma Remainder(i: nat, q: nat, n: nat, r: nat)
    requires r < n && i == q * n + r
    ensures i % n == r
  {
    var d := i / n - q;
    assert d * n == r - i % n;
    assert d == 0 by { Multiples(d, n, r - i % n); }
  }

  lemma Multiples(d: int, n: int, k: int)
    requires d * n == k && 0 - n < k < n
    ensures d == 0
  {
    AtLeast(d, n);
  }

  lemma AtLeast(d: int, n: int)
    requires n >= 0
    ensures d >= 1 ==> d * n >= n
    ensures d <= -1 ==> d * n <= 0 - n
  {
  }

  /** What taking the next group does to the turns and the rests. */
  lemma NextTaken(s: State, c: Choice)
    requires s.place.Choosing? && s.groups != []
    ensures
      var s', g := Advance(s, c), NextGroup(s);
      && s'.groups == s.groups && s'.pos == g + 1 && s'.history.chosen == s.history.chosen + [g]
      && (s'.place.Waiting? || s'.place.Testing? || s'.place.Resting?)
      && (s'.place.Waiting? ==> s'.anyStarted && s'.history.quiet == 0)
      && (!s'.place.Waiting? ==>
            && s'.history.quiet == s.history.quiet + 1 && s'.anyStarted == (s.anyStarted && s.pos < |s.groups|)
            && (s'.place.Resting? ==> s'.pos == |s.groups| && !s'.anyStarted))
  {
    hide Filter, BasisOf;
  }

  lemma ChoosingTurns(s: State, c: Choice)
    requires TurnInv(s) && RestInv(s) && s.place.Choosing? && s.groups != []
    ensures TurnInv(Advance(s, c)) && RestInv(Advance(s, c))
  {
    hide Advance;
    NextTaken(s, c);
    var chosen := s.history.chosen;
    if |chosen| == |s.groups| { RoundEnds(chosen, |s.groups|); }
  }

  lemma RoundEnds(chosen: seq<nat>, n: nat)
    requires InTurn(chosen, n) && |chosen| == n > 0
    ensures chosen[n - 1] == n - 1
  {
    RoundRobin(chosen, n, n - 1);
    Remainder(n - 1, 0, n, n - 1);
  }

  lemma {:induction false} RemoveKeeps(gs: seq<Group>, s: Sensor, i: nat, x: Sensor)
    requires i < |gs| && x in gs[i] && x != s
    ensures x in RemoveFrom(gs, s)[i]
  {
    if s in gs[0] {
      if i == 0 { WithoutKeeps(gs[0], s, x); }
    } else if i > 0 {
      RemoveKeeps(gs[1..], s, i - 1, x);
    }
  }

  lemma {:induction false} WithoutKeeps(g: Group, s: Sensor, x: Sensor)
    requires x in g && x != s
    ensures x in WithoutFirst(g, s)
  {
    if g[0] == s {
      assert g == [s] + g[1..];
    } else if g[0] != x {
      assert g == [g[0]] + g[1..];
      WithoutKeeps(g[1..], s, x);
    }
  }

  lemma {:induction false} RemoveShrinks(gs: seq<Group>, s: Sensor, i: nat, x: Sensor)
    requires i < |gs|
    ensures x in RemoveFrom(gs, s)[i] ==> x in gs[i]
  {
    if s in gs[0] {
      if i == 0 { WithoutShrinks(gs[0], s, x); }
    } else if i > 0 {
      RemoveShrinks(gs[1..], s, i - 1, x);
    }
  }

  lemma {:induction false} WithoutShrinks(g: Group, s: Sensor, x: Sensor)
    ensures x in WithoutFirst(g, s) ==> x in g
  {
    if g != [] && g[0] != s {
      assert g == [g[0]] + g[1..];
      WithoutShrinks(g[1..], s, x);
    }
  }

  /** What an act leaves alone, and what it may add. */
  ghost predicate NewsGrows(s: State, s': State) {
    && s'.history.news.given == s.history.news.given && s.history.news.dataAt <= s'.history.news.dataAt
    && s'.history.trace == s.history.trace
  }

  lemma MarksStay(s: State, s': State)
    requires MarksInv(s) && NewsGrows(s, s')
    ensures MarksInv(s')
    ensures forall source, v: nat :: SourceOk(source, v, s.history.news) ==> SourceOk(source, v, s'.history.news)
  {
    forall source, v: nat | SourceOk(source, v, s.history.news) ensures SourceOk(source, v, s'.history.news) {
      assert v < |s.history.news.dataAt| ==> s'.history.news.dataAt[v] == s.history.news.dataAt[v];
    }
  }

  lemma HappensKeeps(s: State, a: Act)
    requires Inv(s)
    ensures Inv(Happens(s, a))
  {
    hide MarksInv, SourceOk, Paired, InTurn, GroupsFrom, RemoveFrom;
    MarksStay(s, Happens(s, a));
    if a.Remove? && !s.place.Reading? { RemovingKeeps(s, a.s); }
  }

  lemma RemovingKeeps(s: State, x: Sensor)
    requires Inv(s) && !s.place.Reading?
    ensures BatchInv(Happens(s, Remove(x))) && NewsInv(Happens(s, Remove(x)))
    ensures s.groups != [] ==> |Happens(s, Remove(x)).groups| == |s.groups|
  {
    hide SourceOk, TraceInv, UpdateInv, InterruptInv, TurnInv, RestInv, MarksInv, EndInv, RemoveFrom;
    var s', news := Happens(s, Remove(x)), s.history.news;
    MarksStay(s, s');
    if InBatch(s.place) {
      forall y | y in s.history.started ensures y in s'.groups[s.history.cur] <==> y !in s'.history.left {
        if y in s.groups[s.history.cur] && y != x { RemoveKeeps(s.groups, x, s.history.cur, y); }
        RemoveShrinks(s.groups, x, s.history.cur, y);
      }
    }
    forall i | 0 <= i < |s'.groups| ensures GroupFrom(s'.groups[i], news.source[i], news.gone + {x}) {
      assert GroupFrom(s.groups[i], news.source[i], news.gone);
      forall y ensures y in s'.groups[i] ==> y in s.groups[i] { RemoveShrinks(s.groups, x, i, y); }
      forall y | y in s.groups[i] && y != x ensures y in s'.groups[i] { RemoveKeeps(s.groups, x, i, y); }
    }
  }

  lemma {:induction false} HappenKeeps(s: State, acts: seq<Act>)
    requires Inv(s)
    ensures Inv(Happen(s, acts))
  {
    if acts != [] {
      HappenKeeps(s, acts[..|acts| - 1]);
      HappensKeeps(Happen(s, acts[..|acts| - 1]), acts[|acts| - 1]);
    }
  }

  lemma StartTrace(s: State, c: Choice)
    requires TraceInv(s) && s.place.Choosing? && s.groups != []
    ensures TraceInv(Advance(s, c)) && BatchInv(Advance(s, c))
  {
    hide Paired;
    var s' := Advance(s, c);
    if s'.place.Waiting? {
      assert s'.history.trace[..|s'.history.trace| - 1] == s.history.trace;
    }
  }

  /** The mark of a new batch says what it was started on. */
  lemma StartMarks(s: State, c: Choice)
    requires TurnInv(s) && NewsInv(s) && MarksInv(s) && s.place.Choosing? && s.groups != []
    ensures NewsInv(Advance(s, c)) && MarksInv(Advance(s, c))
  {
    hide SourceOk, TurnInv;
    var s', news, g := Advance(s, c), s.history.news, NextGroup(s);
    if s'.place.Waiting? {
      var started := Filter(s.groups[g], c.connected);
      var m := Started(g, started, BasisOf(s.history, c.connected));
      assert s'.history.trace == s.history.trace + [m];
      assert GroupFrom(s.groups[g], news.source[g], news.gone);
      assert StartedOk(m, news);
    }
  }

  lemma StartKeeps(s: State, c: Choice)
    requires Inv(s) && s.place.Choosing?
    ensures Inv(Advance(s, c))
  {
    hide TraceInv, BatchInv, TurnInv, RestInv, NewsInv, MarksInv, Filter;
    ChoosingTurns(s, c);
    StartTrace(s, c);
    StartMarks(s, c);
  }

  lemma StopKeeps(s: State, c: Choice)
    requires Inv(s) && s.place.Stopping?
    ensures Inv(Advance(s, c))
  {
    hide SourceOk, InTurn, Paired, StartedOk, Filter;
    StopTrace(s, c);
    var trace' := Advance(s, c).history.trace;
    assert trace'[..|trace'| - 1] == s.history.trace;
    assert forall m <- trace' :: m in s.history.trace || m == trace'[|trace'| - 1];
  }

  lemma StopTrace(s: State, c: Choice)
    requires TraceInv(s) && BatchInv(s) && NewsInv(s) && s.place.Stopping?
    ensures Paired(Advance(s, c).history.trace)
  {
    hide SourceOk;
    var s' := Advance(s, c);
    var trace, trace', cur := s.history.trace, s'.history.trace, s.history.cur;
    assert trace'[..|trace'| - 2] == trace[..|trace| - 1];
    assert trace'[|trace'| - 2] == trace[|trace| - 1];
    assert GroupFrom(s.groups[cur], s.history.news.source[cur], s.history.news.gone);
    assert StopsBatch(trace'[|trace'| - 2], trace'[|trace'| - 1]);
  }

  lemma OpenKeeps(s: State, c: Choice)
    requires Inv(s) && s.place.Finishing?
    ensures Inv(Advance(s, c))
  {
    hide Paired, InTurn, SourceOk, GroupsFrom, StartedOk;
    var t := Advance(s, c).history.trace;
    assert t[..|t| - 1] == s.history.trace;
    assert forall m <- t :: m in s.history.trace || m == Opened;
  }

  /** A wait changes nothing that batches, updates and turns depend on. */
  lemma WaitFrame(s: State, s': State)
    requires TraceInv(s) && BatchInv(s) && LatchInv(s) && UpdateInv(s) && TurnInv(s) && RestInv(s)
    requires NewsInv(s) && MarksInv(s)
    requires (s.place.Waiting? && s'.place.Stopping?) || (s.place.WaitingAgain? && s'.place.Cancelling?)
    requires s' == s.(interrupted := s'.interrupted, waitInterrupted := s'.waitInterrupted, place := s'.place,
                      history := s'.history)
    requires s'.history == s.history || s'.history == Requested(s.history)
    ensures TraceInv(s') && BatchInv(s') && LatchInv(s') && UpdateInv(s') && TurnInv(s') && RestInv(s')
    ensures NewsInv(s') && MarksInv(s')
  {
    hide Paired, InTurn, SourceOk, GroupsFrom, StartedOk;
  }

  lemma WaitKeeps(s: State, c: Choice)
    requires Inv(s) && (s.place.Waiting? || s.place.WaitingAgain?)
    ensures Inv(Advance(s, c))
  {
    hide TraceInv, BatchInv, LatchInv, UpdateInv, TurnInv, RestInv, NewsInv, MarksInv;
    WaitFrame(s, Advance(s, c));
  }

  lemma CancelKeeps(s: State, c: Choice)
    requires Inv(s) && s.place.Cancelling?
    ensures Inv(Advance(s, c))
  {
    hide Paired, InTurn, SourceOk, GroupsFrom, StartedOk;
  }

  lemma LoopKeeps(s: State, c: Choice)
    requires Inv(s)
    requires (s.place.Testing? || s.place.Deciding? || s.place.Pausing? || s.place.Clearing? || s.place.Reading?
                        || s.place.Resting? || s.place.Done?)
    ensures Inv(Advance(s, c))
  {
    hide Paired, StartedOk, MarksInv;
    MarksStay(s, Advance(s, c));
  }

  lemma AdvanceKeeps(s: State, c: Choice)
    requires Inv(s)
    ensures Inv(Advance(s, c))
  {
    hide Inv, Advance;
    match s.place
    case Choosing => StartKeeps(s, c);
    case Stopping => StopKeeps(s, c);
    case Finishing => OpenKeeps(s, c);
    case Waiting => WaitKeeps(s, c);
    case WaitingAgain => WaitKeeps(s, c);
    case Cancelling => CancelKeeps(s, c);
    case _ => LoopKeeps(s, c);
  }

  /** On every interleaving. */
  lemma {:induction false} ExecKeeps(s: State, ts: seq<Turn>)
    requires Fresh(s) || Inv(s)
    ensures Inv(Exec(s, ts))
  {
    if ts != [] {
      var s1, t := Exec(s, ts[..|ts| - 1]), ts[|ts| - 1];
      ExecKeeps(s, ts[..|ts| - 1]);
      HappenKeeps(s1, t.acts);
      AdvanceKeeps(Happen(s1, t.acts), t.choice);
    }
  }

  /**
    No update is lost: every batch of a run is started on groups read at a change not older than the latest one
    notified when the runner tested for an update, and consists of exactly the connected sensors of its group,
    but for sensors removed since.
  */
  lemma NoLostUpdate(s: State, ts: seq<Turn>)
    requires Fresh(s)
    ensures var h := Exec(s, ts).history;
      && h.news.given == s.groups && h.news.dataAt == [s.data] + Changes(ts)
      && forall m <- h.trace :: m.Started? ==> StartedOk(m, h.news)
  {
    hide Inv;
    ExecKeeps(s, ts);
    InvMarks(Exec(s, ts));
    DataRecorded(s, ts);
  }

  lemma InvMarks(s: State)
    requires Inv(s)
    ensures MarksInv(s)
  {
  }

  /** The changes of the data in these turns. */
  function Changes(ts: seq<Turn>): seq<seq<Group>> {
    if ts == [] then [] else Changes(ts[..|ts| - 1]) + ChangesIn(ts[|ts| - 1].acts)
  }

  function ChangesIn(acts: seq<Act>): seq<seq<Group>> {
    if acts == [] then []
    else ChangesIn(acts[..|acts| - 1]) + (if acts[|acts| - 1].Change? then [acts[|acts| - 1].data] else [])
  }

  /** What one act records. */
  lemma HappensRecords(s: State, a: Act)
    ensures var h, h' := s.history, Happens(s, a).history;
      && h'.news.given == h.news.given
      && h'.news.dataAt == h.news.dataAt + (if a.Change? then [a.data] else [])
      && h'.trace == h.trace && h.notified <= h'.notified && h'.news.tested == h.news.tested
      && (h'.requested <==> h.requested || a.Interrupt?) && Happens(s, a).place == s.place
  {
    hide RemoveFrom;
  }

  /** ... and what a step of the runner does. */
  lemma AdvanceRecords(s: State, c: Choice)
    ensures Recorded(s.history, Advance(s, c).history, c)
  {
    hide Advance;
    match s.place
    case Choosing => ChoiceRecords(s, c);
    case Waiting => WaitRecords(s, c);
    case Stopping => StopRecords(s, c);
    case WaitingAgain => WaitRecords(s, c);
    case Finishing => OpenRecords(s, c);
    case Deciding => UpdateRecords(s, c);
    case Clearing => UpdateRecords(s, c);
    case Reading => UpdateRecords(s, c);
    case _ => PlainRecords(s, c);
  }

  ghost predicate Recorded(h: History, h': History, c: Choice) {
    && h'.news.given == h.news.given && h'.news.dataAt == h.news.dataAt && h'.notified == h.notified
    && (h'.requested ==> h.requested || c.wait.Interrupted?) && (h.requested ==> h'.requested)
  }

  ghost predicate AddsNoBatch(trace: seq<Mark>, trace': seq<Mark>) {
    trace <= trace' && forall i :: |trace| <= i < |trace'| ==> !trace'[i].Started?
  }

  lemma ChoiceRecords(s: State, c: Choice)
    requires s.place.Choosing?
    ensures Recorded(s.history, Advance(s, c).history, c)
  {
    hide AfterStart;
    if s.groups != [] { StartRecords(s, c); }
  }

  lemma WaitRecords(s: State, c: Choice)
    requires s.place.Waiting? || s.place.WaitingAgain?
    ensures Recorded(s.history, Advance(s, c).history, c) && Advance(s, c).history.trace == s.history.trace
    ensures !Advance(s, c).place.Choosing?
  {
  }

  lemma StopRecords(s: State, c: Choice)
    requires s.place.Stopping?
    ensures Recorded(s.history, Advance(s, c).history, c) && !Advance(s, c).place.Choosing?
    ensures AddsNoBatch(s.history.trace, Advance(s, c).history.trace)
  {
    hide Filter;
  }

  lemma OpenRecords(s: State, c: Choice)
    requires s.place.Finishing?
    ensures Recorded(s.history, Advance(s, c).history, c) && !Advance(s, c).place.Choosing?
    ensures AddsNoBatch(s.history.trace, Advance(s, c).history.trace)
  {
  }

  lemma UpdateRecords(s: State, c: Choice)
    requires s.place.Deciding? || s.place.Clearing? || s.place.Reading?
    ensures Recorded(s.history, Advance(s, c).history, c) && Advance(s, c).history.trace == s.history.trace
    ensures Advance(s, c).place.Choosing? ==> Advance(s, c).history.news.tested == s.history.notified
  {
  }

  lemma PlainRecords(s: State, c: Choice)
    requires s.place.Testing? || s.place.Pausing? || s.place.Resting? || s.place.Cancelling? || s.place.Done?
    ensures Advance(s, c).history == s.history && !Advance(s, c).place.Choosing?
  {
  }

  lemma StartRecords(s: State, c: Choice)
    requires s.place.Choosing? && s.groups != []
    ensures var h, h' := s.history, Advance(s, c).history;
      && h'.news == h.news && h'.notified == h.notified && h'.requested == h.requested
      && (h'.trace == h.trace || h'.trace == h.trace + [StartMark(s, c)])
  {
    hide Filter;
  }

  function StartMark(s: State, c: Choice): Mark
    requires s.groups != []
  {
    Started(NextGroup(s), Filter(s.groups[NextGroup(s)], c.connected), BasisOf(s.history, c.connected))
  }

  lemma {:induction false} ActsRecorded(s: State, acts: seq<Act>)
    ensures var news := Happen(s, acts).history.news;
      news.given == s.history.news.given && news.dataAt == s.history.news.dataAt + ChangesIn(acts)
  {
    hide Happens;
    if acts != [] {
      ActsRecorded(s, acts[..|acts| - 1]);
      HappensRecords(Happen(s, acts[..|acts| - 1]), acts[|acts| - 1]);
    }
  }

  lemma {:induction false} DataRecorded(s: State, ts: seq<Turn>)
    requires Fresh(s)
    ensures Exec(s, ts).history.news.given == s.groups
    ensures Exec(s, ts).history.news.dataAt == [s.data] + Changes(ts)
  {
    hide Happen, Advance;
    if ts != [] {
      var s1, t := Exec(s, ts[..|ts| - 1]), ts[|ts| - 1];
      DataRecorded(s, ts[..|ts| - 1]);
      ActsRecorded(s1, t.acts);
      AdvanceRecords(Happen(s1, t.acts), t.choice);
    }
  }

  /** Since s1, whatever was tested for and started knows of the change numbered k. */
  ghost predicate Heard(s1: State, s2: State, k: nat) {
    && k <= s2.history.notified && s1.history.trace <= s2.history.trace
    && (s2.place.Choosing? ==> k <= s2.history.news.tested)
    && (forall i :: |s1.history.trace| <= i < |s2.history.trace| && s2.history.trace[i].Started? ==>
          k <= s2.history.trace[i].basis.version)
  }

  lemma HeardStep(s1: State, s2: State, k: nat, c: Choice)
    requires Inv(s2) && Heard(s1, s2, k)
    ensures Heard(s1, Advance(s2, c), k)
  {
    hide Advance, Paired, InTurn, BatchInv, TraceInv, GroupsFrom, SourceOk, MarksInv, TurnInv, RestInv;
    AdvanceRecords(s2, c);
    match s2.place
    case Choosing => HeardStart(s1, s2, k, c);
    case Waiting => WaitRecords(s2, c);
    case Stopping => StopRecords(s2, c);
    case WaitingAgain => WaitRecords(s2, c);
    case Finishing => OpenRecords(s2, c);
    case Deciding => UpdateRecords(s2, c);
    case Clearing => UpdateRecords(s2, c);
    case Reading => UpdateRecords(s2, c);
    case _ => PlainRecords(s2, c);
  }

  lemma HeardStart(s1: State, s2: State, k: nat, c: Choice)
    requires UpdateInv(s2) && NewsInv(s2) && Heard(s1, s2, k) && s2.place.Choosing?
    ensures Heard(s1, Advance(s2, c), k)
  {
    hide GroupsFrom, SourceOk, Filter;
    StartRecords(s2, c);
  }

  lemma {:induction false} HeardActs(s1: State, s2: State, k: nat, acts: seq<Act>)
    requires Heard(s1, s2, k)
    ensures Heard(s1, Happen(s2, acts), k)
  {
    hide Happens;
    if acts != [] {
      HeardActs(s1, s2, k, acts[..|acts| - 1]);
      HappensRecords(Happen(s2, acts[..|acts| - 1]), acts[|acts| - 1]);
    }
  }

  lemma {:induction false} HeardAlong(s1: State, k: nat, ts: seq<Turn>)
    requires Inv(s1) && Heard(s1, s1, k)
    ensures Heard(s1, Exec(s1, ts), k)
  {
    hide Inv, Heard;
    if ts != [] {
      var s2, t := Exec(s1, ts[..|ts| - 1]), ts[|ts| - 1];
      HeardAlong(s1, k, ts[..|ts| - 1]);
      ExecKeeps(s1, ts[..|ts| - 1]);
      HappenKeeps(s2, t.acts);
      HeardActs(s1, s2, k, t.acts);
      HeardStep(s1, Happen(s2, t.acts), k, t.choice);
    }
  }

  /**
    Once a change has been notified, no batch is started on groups older than it, except the one the runner may
    be about to start, having tested already.
  */
  lemma HeedsNotice(s: State, ts: seq<Turn>, k: nat, more: seq<Turn>)
    requires Fresh(s) && k <= Exec(s, ts).history.version && !Exec(s, ts).place.Choosing?
    ensures var s1 := Happens(Exec(s, ts), Notify(k)); var s2 := Exec(s1, more);
      && s1.history.trace <= s2.history.trace
      && forall i :: |s1.history.trace| <= i < |s2.history.trace| && s2.history.trace[i].Started? ==>
           k <= s2.history.trace[i].basis.version
  {
    hide Inv;
    var s1 := Happens(Exec(s, ts), Notify(k));
    ExecKeeps(s, ts);
    HappensKeeps(Exec(s, ts), Notify(k));
    HeardAlong(s1, k, more);
  }

  /** The runner updates exactly when it has no groups, or a notification came since it last began to read them. */
  lemma DecidesIff(s: State, ts: seq<Turn>, acts: seq<Act>, c: Choice)
    requires Fresh(s) && Happen(Exec(s, ts), acts).place.Deciding?
    ensures var s' := Happen(Exec(s, ts), acts); var next := Advance(s', c).place;
      && (next.Pausing? <==> s'.groups == [] || s'.history.news.seen < s'.history.news.notices)
      && (next.Choosing? <==> s'.groups != [] && s'.history.news.seen == s'.history.news.notices)
  {
    ExecKeeps(s, ts);
    HappenKeeps(Exec(s, ts), acts);
  }

  /**
    A batch is started exactly if somebody in the next group is connected; else, from the second round on, the
    runner rests exactly at the end of a round in which nobody was.
  */
  lemma StartsOrRests(s: State, ts: seq<Turn>, acts: seq<Act>, c: Choice)
    requires Fresh(s) && Happen(Exec(s, ts), acts).place.Choosing?
    ensures var s' := Happen(Exec(s, ts), acts); var next := Advance(s', c); var n := |s'.groups|;
      && n > 0 && next.history.chosen == s'.history.chosen + [|s'.history.chosen| % n]
      && (next.place.Waiting? <==> exists x :: x in s'.groups[|s'.history.chosen| % n] && x in c.connected)
      && (next.place.Waiting? || next.place.Testing? || next.place.Resting?)
      && (|next.history.chosen| > n && !next.place.Waiting? ==>
            (next.place.Resting? <==> |next.history.chosen| % n == 0 && n <= next.history.quiet))
  {
    hide Exec, Happen;
    ExecKeeps(s, ts);
    HappenKeeps(Exec(s, ts), acts);
    NextStarts(Happen(Exec(s, ts), acts), c);
  }

  lemma NextStarts(s: State, c: Choice)
    requires TurnInv(s) && RestInv(s) && s.place.Choosing? && s.groups != []
    ensures var next, n := Advance(s, c), |s.groups|;
      && next.history.chosen == s.history.chosen + [|s.history.chosen| % n]
      && (next.place.Waiting? <==> exists x :: x in s.groups[|s.history.chosen| % n] && x in c.connected)
      && (next.place.Waiting? || next.place.Testing? || next.place.Resting?)
      && (|next.history.chosen| > n && !next.place.Waiting? ==>
            (next.place.Resting? <==> |next.history.chosen| % n == 0 && n <= next.history.quiet))
  {
    hide InTurn, BasisOf;
    ChoosingTurns(s, c);
    var next, n, g := Advance(s, c), |s.groups|, NextGroup(s);
    var k := |s.history.chosen|;
    assert next.history.chosen == s.history.chosen + [g];
    RoundRobin(next.history.chosen, n, k);
    Successor(k, n);
    var started := Filter(s.groups[g], c.connected);
    assert started != [] ==> started[0] in started;
  }

  /** How far the runner is from the loop's test. */
  function Rank(p: Place): nat {
    match p
    case Testing => 0
    case Deciding => 9
    case Pausing => 8
    case Clearing => 7
    case Reading => 6
    case Choosing => 5
    case Waiting => 4
    case Stopping => 3
    case WaitingAgain => 2
    case Cancelling => 1
    case Resting => 1
    case Finishing => 1
    case Done => 0
  }

  /** Every step leads on, so that at most ten steps after a test the runner tests again or is done. */
  lemma Progresses(s: State, ts: seq<Turn>, acts: seq<Act>, c: Choice)
    requires Fresh(s)
    ensures var p := Happen(Exec(s, ts), acts).place; var next := Advance(Happen(Exec(s, ts), acts), c).place;
      && (p.Testing? ==> next.Deciding? || next.Finishing?)
      && (!p.Testing? && !p.Done? ==> Rank(next) < Rank(p))
      && (p.Done? ==> next.Done?)
  {
    hide Exec, Happen, Inv;
    ExecKeeps(s, ts);
    HappenKeeps(Exec(s, ts), acts);
    ChoosingHasGroups(Happen(Exec(s, ts), acts));
    StepProgresses(Happen(Exec(s, ts), acts), c);
  }

  lemma StepProgresses(s: State, c: Choice)
    requires s.place.Choosing? ==> s.groups != []
    ensures var p, next := s.place, Advance(s, c).place;
      && (p.Testing? ==> next.Deciding? || next.Finishing?)
      && (!p.Testing? && !p.Done? ==> Rank(next) < Rank(p))
      && (p.Done? ==> next.Done?)
  {
    hide AfterStart, AfterStop, Requested;
    if s.place.Choosing? { StartProgresses(s, c); }
    if s.place.Stopping? { StopProgresses(s, c); }
  }

  lemma StopProgresses(s: State, c: Choice)
    ensures AfterStop(s, c).place.WaitingAgain?
  {
  }

  lemma ChoosingHasGroups(s: State)
    requires Inv(s)
    ensures s.place.Choosing? ==> s.groups != []
  {
  }

  lemma StartProgresses(s: State, c: Choice)
    requires s.groups != []
    ensures var next := AfterStart(s, c).place; next.Waiting? || next.Testing? || next.Resting?
  {
    hide Filter, BasisOf, Marked;
  }

  /** An interrupt was sent, or met a wait. */
  ghost predicate SomeInterrupt(ts: seq<Turn>) { exists i :: 0 <= i < |ts| && Interrupting(ts[i]) }

  ghost predicate Interrupting(t: Turn) { Interrupt in t.acts || t.choice.wait.Interrupted? }

  lemma {:induction false} ActsRequest(s: State, acts: seq<Act>)
    ensures Happen(s, acts).history.requested <==> s.history.requested || Interrupt in acts
  {
    hide Happens;
    if acts != [] {
      ActsRequest(s, acts[..|acts| - 1]);
      HappensRecords(Happen(s, acts[..|acts| - 1]), acts[|acts| - 1]);
      assert acts == acts[..|acts| - 1] + [acts[|acts| - 1]];
    }
  }

  lemma {:induction false} RequestedOnly(s: State, ts: seq<Turn>)
    requires Fresh(s)
    ensures Exec(s, ts).history.requested ==> s.interrupted || SomeInterrupt(ts)
    ensures s.interrupted || (exists i :: 0 <= i < |ts| && Interrupt in ts[i].acts) ==> Exec(s, ts).history.requested
  {
    hide Happen, Advance;
    if ts != [] {
      var n := |ts| - 1;
      var s1 := Exec(s, ts[..n]);
      RequestedOnly(s, ts[..n]);
      ActsRequest(s1, ts[n].acts);
      AdvanceRecords(Happen(s1, ts[n].acts), ts[n].choice);
      if i :| 0 <= i < n && Interrupting(ts[..n][i]) { assert Interrupting(ts[i]); }
      if i :| 0 <= i < |ts| && Interrupt in ts[i].acts && i < n { assert Interrupt in ts[..n][i].acts; }
    }
  }

  /** The loop ends only if the runner was interrupted. */
  lemma OnlyInterruptEnds(s: State, ts: seq<Turn>)
    requires Fresh(s)
    ensures Exec(s, ts).place.Done? || Exec(s, ts).place.Finishing? ==> s.interrupted || SomeInterrupt(ts)
  {
    hide SomeInterrupt;
    ExecKeeps(s, ts);
    RequestedOnly(s, ts);
  }

  /** Batches are stopped before anything else starts and before the latch opens, which it does once, at the end. */
  lemma Bracketing(s: State, ts: seq<Turn>)
    requires Fresh(s)
    ensures var s' := Exec(s, ts); var trace := s'.history.trace;
      && (s'.latch == 0 <==> s'.place.Done?)
      && (s'.place.Done? ==> trace != [] && trace[|trace| - 1] == Opened && Paired(trace[..|trace| - 1]))
      && (!s'.place.Done? ==> forall m <- trace :: m != Opened)
      && (!s'.place.Done? && !InBatch(s'.place) ==> Paired(trace))
      && (InBatch(s'.place) ==> trace != [] && trace[|trace| - 1].Started? && Paired(trace[..|trace| - 1]))
  {
    hide Exec, Fresh, Paired, BatchInv, UpdateInv, InterruptInv, TurnInv, RestInv;
    ExecKeeps(s, ts);
    if !Exec(s, ts).place.Done? { ClosedUntilDone(Exec(s, ts)); }
  }

  lemma ClosedUntilDone(s: State)
    requires TraceInv(s) && !s.place.Done?
    ensures forall m <- s.history.trace :: m != Opened
  {
    hide Paired;
    var trace := s.history.trace;
    if InBatch(s.place) {
      LastNotOpened(trace);
    } else {
      PairedClosed(trace);
    }
  }

  lemma LastNotOpened(trace: seq<Mark>)
    requires trace != [] && Paired(trace[..|trace| - 1]) && trace[|trace| - 1] != Opened
    ensures forall m <- trace :: m != Opened
  {
    hide Paired;
    PairedClosed(trace[..|trace| - 1]);
    forall m | m in trace ensures m in trace[..|trace| - 1] || m == trace[|trace| - 1] {
      var i :| 0 <= i < |trace| && trace[i] == m;
      assert i < |trace| - 1 ==> trace[..|trace| - 1][i] == m;
    }
  }

  // A runner for one sensor; the same with the sensor's batch started; and with the sensor removed meanwhile.
  const FOR_ONE := State([[1]], false, false, 1, Testing, 0, false, false, [[1]],
                         NewHistory([[1]], false, false, [[1]]))
  const ON_ONE := Basis([[1]], {}, {1}, 0, 0)
  const STARTED_ONE := FOR_ONE.(place := Waiting, pos := 1, anyStarted := true,
                                history := FOR_ONE.history.(chosen := [0], started := [1],
                                                            late := 1, trace := [Started(0, [1], ON_ONE)]))
  const LEFT_ONE := STARTED_ONE.(groups := [[]], place := Stopping,
                                 history := STARTED_ONE.history.(left := {1},
                                                                 news := STARTED_ONE.history.news.(gone := {1})))

  const READS := Choice({1}, {1}, Completed)

  lemma StartsOne()
    ensures var s1 := TakeTurn(FOR_ONE, Turn([], READS)); var s2 := TakeTurn(s1, Turn([], READS));
      TakeTurn(s2, Turn([], READS)) == STARTED_ONE
  {
    assert [1][1..] == [] && Filter([1], {1}) == [1];
  }

  lemma LeavesOne()
    ensures TakeTurn(STARTED_ONE, Turn([Remove(1)], READS)) == LEFT_ONE
  {
    assert [Remove(1)][..0] == [] && [[1]][1..] == [] && [1][1..] == [];
    assert RemoveFrom([[1]], 1) == [[]];
    assert Happen(STARTED_ONE, [Remove(1)]) == Happens(STARTED_ONE, Remove(1));
  }

  /** A run in which a sensor that reads is not told to stop: it is removed while the runner waits for its batch. */
  lemma LeftUntold()
    ensures exists s, ts :: Fresh(s) && Untold(Exec(s, ts))
  {
    var quiet, remove := Turn([], READS), Turn([Remove(1)], READS);
    var ts := [quiet, quiet, quiet, remove, quiet];
    StartsOne();
    LeavesOne();
    FiveTurns(FOR_ONE, ts);
    ToldNone();
    assert Fresh(FOR_ONE) && Untold(Exec(FOR_ONE, ts));
  }

  lemma FiveTurns(s: State, ts: seq<Turn>)
    requires |ts| == 5
    ensures Exec(s, ts) == TakeTurn(TakeTurn(TakeTurn(TakeTurn(TakeTurn(s, ts[0]), ts[1]), ts[2]), ts[3]), ts[4])
  {
    hide TakeTurn;
    ExecLast(s, ts, 4);
    ExecLast(s, ts, 3);
    ExecLast(s, ts, 2);
    ExecLast(s, ts, 1);
    ExecLast(s, ts, 0);
    assert ts[..5] == ts && ts[..0] == [];
  }

  lemma ExecLast(s: State, ts: seq<Turn>, k: nat)
    requires k < |ts|
    ensures Exec(s, ts[..k + 1]) == TakeTurn(Exec(s, ts[..k]), ts[k])
  {
    assert ts[..k + 1][..k] == ts[..k];
  }

  lemma ToldNone()
    ensures Untold(TakeTurn(LEFT_ONE, Turn([], READS)))
  {
    var s := TakeTurn(LEFT_ONE, Turn([], READS));
    assert s.history.trace == [Started(0, [1], ON_ONE), Stopped(0, [], {1}, {1}, {1})];
    assert s.history.trace[0].started[0] == 1;
  }

  /** The last mark stopped a batch; a sensor started with it reads and was not told. */
  ghost predicate Untold(s: State) {
    |s.history.trace| >= 2 && MissesSome(s.history.trace[|s.history.trace| - 2], s.history.trace[|s.history.trace| - 1])
  }

  ghost predicate MissesSome(a: Mark, b: Mark) {
    a.Started? && b.Stopped? && exists i :: 0 <= i < |a.started| && a.started[i] in b.reading && a.started[i] !in b.told
  }

  lemma {:induction false} PairedClosed(trace: seq<Mark>)
    requires Paired(trace)
    ensures forall m <- trace :: m != Opened
  {
    if trace != [] {
      PairedClosed(trace[..|trace| - 2]);
      assert trace == trace[..|trace| - 2] + [trace[|trace| - 2], trace[|trace| - 1]];
    }
  }

  /** Between two updates the groups are taken in turn, and the runner rests only when a whole round started nobody. */
  lemma TakesTurns(s: State, ts: seq<Turn>)
    requires Fresh(s)
    ensures var s' := Exec(s, ts);
      && (!s'.place.Reading? ==> forall i :: 0 <= i < |s'.history.chosen| ==>
            |s'.groups| > 0 && s'.history.chosen[i] == i % |s'.groups|)
      && (s'.place.Resting? ==> |s'.groups| <= s'.history.quiet)
  {
    ExecKeeps(s, ts);
    var s' := Exec(s, ts);
    if !s'.place.Reading? {
      forall i | 0 <= i < |s'.history.chosen| ensures |s'.groups| > 0 && s'.history.chosen[i] == i % |s'.groups| {
        RoundRobin(s'.history.chosen, |s'.groups|, i);
      }
    }
  }

  /** An interrupt is never swallowed: it stays pending, and at most one more batch is started after it. */
  lemma InterruptHeeded(s: State, ts: seq<Turn>)
    requires Fresh(s)
    ensures s.interrupted || (exists i :: 0 <= i < |ts| && Interrupt in ts[i].acts) ==> Exec(s, ts).history.requested
    ensures var s' := Exec(s, ts);
      s'.history.requested ==>
        && (s'.interrupted || (s'.waitInterrupted && AfterBatch(s'.place)) || s'.place.Finishing? || s'.place.Done?)
        && s'.history.late <= 1 && (s'.place.Testing? ==> Advance(s', Choice({}, {}, Completed)).place.Finishing?)
  {
    ExecKeeps(s, ts);
    RequestedOnly(s, ts);
  }

  // ---------------------------------------------------------------- the runner

  /** The fields of ClusterRunner and the locals of run. */
  class Runner {
    var sensorGroups: seq<Group>
    var updateSensorsFlag: bool
    var completedLatch: nat
    var interrupted: bool          // the thread's interrupt status
    var pos: nat                   // where groupLooper's iterator is
    var anySensorStarted: bool
    var waitInterrupted: bool
    var data: seq<Group>           // what getSensorGroups would answer
    var place: Place               // where the thread is
    var history: History           // bookkeeping: what has happened so far

    ghost function View(): State
      reads this
    {
      State(sensorGroups, updateSensorsFlag, interrupted, completedLatch, place, pos, anySensorStarted, waitInterrupted,
            data, history)
    }

    constructor (data: seq<Group>)
      ensures Fresh(View()) && this.data == data
    {
      sensorGroups, updateSensorsFlag, completedLatch := [], true, 1;
      interrupted, pos, anySensorStarted, waitInterrupted, this.data := false, 0, false, false, data;
      place, history := Testing, NewHistory([], true, false, data);
    }

    /** The constructor for a single sensor. */
    constructor OfSensor(sensor: Sensor, data: seq<Group>)
      ensures Fresh(View()) && sensorGroups == [[sensor]] && !updateSensorsFlag
    {
      sensorGroups, updateSensorsFlag, completedLatch := [[sensor]], false, 1;
      interrupted, pos, anySensorStarted, waitInterrupted, this.data := false, 0, false, false, data;
      place, history := Testing, NewHistory([[sensor]], false, false, data);
    }

    /** remove */
    method RemoveSensor(x: Sensor) returns (found: bool)
      modifies `sensorGroups
      ensures sensorGroups == RemoveFrom(old(sensorGroups), x)
      ensures found <==> exists i :: 0 <= i < |old(sensorGroups)| && x in old(sensorGroups)[i]
    {
      for i := 0 to |sensorGroups|
        invariant sensorGroups == old(sensorGroups)
        invariant forall k :: 0 <= k < i ==> x !in sensorGroups[k]
      {
        if x in sensorGroups[i] {
          RemovedAt(sensorGroups, x, i);
          sensorGroups := sensorGroups[i := WithoutFirst(sensorGroups[i], x)];
          return true;
        }
      }
      RemovedNowhere(sensorGroups, x);
      return false;
    }

    /** What other threads do between two steps of run. */
    method Meanwhile(acts: seq<Act>)
      modifies this
      ensures View() == Happen(old(View()), acts) && place == old(place)
    {
      for i := 0 to |acts|
        invariant View() == Happen(old(View()), acts[..i]) && place == old(place)
      {
        assert acts[..i + 1][..i] == acts[..i];
        match acts[i] {
          case Change(d) =>
            data := d;
            history := history.(version := history.version + 1,
                                news := history.news.(dataAt := history.news.dataAt + [d]));
          case Notify(k) =>
            updateSensorsFlag := true;
            history := history.(notified := Later(history.notified, k, history.version),
                                news := history.news.(notices := history.news.notices + 1));
          case Remove(x) =>
            if !place.Reading? {
              var wasThere := history.cur < |sensorGroups| && x in sensorGroups[history.cur];
              var _ := RemoveSensor(x);
              if wasThere && x !in sensorGroups[history.cur] {
                history := history.(left := history.left + {x});
              }
              history := history.(news := history.news.(gone := history.news.gone + {x}));
            }
          case Interrupt =>
            interrupted := true;
            history := Requested(history);
        }
      }
      assert acts[..|acts|] == acts;
    }

    /** `while (!Thread.currentThread().isInterrupted())` */
    method Test(c: Choice) returns (goesOn: bool)
      requires place == Testing
      modifies `place
      ensures View() == Advance(old(View()), c) && place == (if goesOn then Deciding else Finishing)
    {
      goesOn := !interrupted;
      place := if goesOn then Deciding else Finishing;
    }

    method Decide(c: Choice) returns (update: bool)
      requires place == Deciding
      modifies `place, `history
      ensures View() == Advance(old(View()), c) && place == (if update then Pausing else Choosing)
    {
      update := sensorGroups == [] || updateSensorsFlag;
      history := history.(news := history.news.(tested := history.notified));
      place := if update then Pausing else Choosing;
    }

    /** pause: an interrupt during the sleep is passed on to the thread's status. */
    method Pause(c: Choice)
      requires place == Pausing || place == Resting
      modifies `place
      ensures View() == Advance(old(View()), c) && place == (if old(place) == Pausing then Clearing else Testing)
    {
      place := if place == Pausing then Clearing else Testing;
    }

    /** updateSensorGroups up to the call of getSensorGroups. */
    method Clear(c: Choice)
      requires place == Clearing
      modifies `updateSensorsFlag, `sensorGroups, `place, `history
      ensures View() == Advance(old(View()), c) && place == Reading && sensorGroups == [] && !updateSensorsFlag
    {
      updateSensorsFlag := false;
      sensorGroups := [];
      history := history.(news := history.news.(seen := history.news.notices));
      place := Reading;
    }

    /** getSensorGroups, and a new looper over the result. */
    method Read(c: Choice)
      requires place == Reading
      modifies `sensorGroups, `pos, `place, `history
      ensures View() == Advance(old(View()), c) && place == Testing
    {
      sensorGroups := data;
      pos := 0;
      history := history.(groupsVersion := history.version, chosen := [],
                          news := history.news.(source := data, gone := {}));
      place := Testing;
    }

    /** The next group's connected sensors start to scan. */
    method StartNext(c: Choice) returns (group: nat, count: nat)
      requires place == Choosing && sensorGroups != []
      modifies `pos, `anySensorStarted, `waitInterrupted, `place, `history
      ensures View() == Advance(old(View()), c)
      ensures place == if count == 0 then (if Rests() then Resting else Testing) else Waiting
    {
      hide Filter, Marked, BasisOf;
      if pos >= |sensorGroups| {
        anySensorStarted := false;
        pos := 0;
      }
      group := pos;
      pos := pos + 1;
      var started := Filter(sensorGroups[group], c.connected);
      count := |started|;
      history := history.(chosen := history.chosen + [group], quiet := if count == 0 then history.quiet + 1 else 0);
      if count == 0 {
        place := if Rests() then Resting else Testing;
      } else {
        BatchStarted(group, started, c.connected);
      }
    }

    method BatchStarted(group: nat, started: Group, connected: set<Sensor>)
      modifies `anySensorStarted, `waitInterrupted, `place, `history
      ensures place == Waiting
      ensures View() == old(View()).(anyStarted := true, waitInterrupted := false, place := Waiting,
        history := Marked(old(history).(cur := group, started := started, left := {}, late := old(history).late + 1),
                          Started(group, started, BasisOf(old(history), connected))))
    {
      anySensorStarted := true;
      waitInterrupted := false;
      place := Waiting;
      history := Marked(history.(cur := group, started := started, left := {}, late := history.late + 1),
                        Started(group, started, BasisOf(history, connected)));
    }

    /** `groupLooper.listLooped() && !anySensorStarted` */
    predicate Rests()
      reads this
    {
      pos == |sensorGroups| && !anySensorStarted
    }

    /** waitForComplete: every way it can end is survived; only an interrupt leaves a trace. */
    method WaitForComplete(c: Choice)
      requires place == Waiting || place == WaitingAgain
      modifies `interrupted, `waitInterrupted, `place, `history
      ensures View() == Advance(old(View()), c) && place == (if old(place) == Waiting then Stopping else Cancelling)
      ensures c.wait == Interrupted ==> !interrupted && waitInterrupted
      ensures c.wait != Interrupted ==> interrupted == old(interrupted) && waitInterrupted == old(waitInterrupted)
    {
      if c.wait == Interrupted {
        interrupted := false;
        waitInterrupted := true;
        history := Requested(history);
      }
      place := if place == Waiting then Stopping else Cancelling;
    }

    /** stopLaggards */
    method StopLaggards(c: Choice) returns (told: Group)
      requires place == Stopping && BatchInv(View())
      modifies `place, `history
      ensures View() == Advance(old(View()), c) && place == WaitingAgain
      ensures told == Filter(sensorGroups[old(history).cur], c.reading)
    {
      told := Filter(sensorGroups[history.cur], c.reading);
      place := WaitingAgain;
      history := Marked(history, Stopped(history.cur, told, c.reading, history.left, history.news.gone));
    }

    method PassOnInterrupt(c: Choice)
      requires place == Cancelling
      modifies `interrupted, `place
      ensures View() == Advance(old(View()), c) && place == Testing
    {
      if waitInterrupted {
        interrupted := true;
      }
      place := Testing;
    }

    method CountDown(c: Choice)
      requires place == Finishing
      modifies `completedLatch, `place, `history
      ensures View() == Advance(old(View()), c) && place == Done
    {
      completedLatch := if completedLatch > 0 then completedLatch - 1 else 0;
      place := Done;
      history := Marked(history, Opened);
    }

    /** The runner is where the first k turns lead from state s. */
    ghost predicate At(s: State, turns: seq<Turn>, k: nat)
      reads this
    {
      k <= |turns| && View() == Exec(s, turns[..k]) && Fresh(s)
    }

    /**
      pause, updateSensorGroups and the new looper. Here and below, running out of turns stops the account, not
      the thread.
    */
    method Update(turns: seq<Turn>, k0: nat, ghost s: State) returns (k: nat)
      requires At(s, turns, k0) && place == Pausing
      modifies this
      ensures k0 <= k && At(s, turns, k) && (k < |turns| ==> place == Testing)
    {
      hide Exec, Happen, Advance, Fresh;
      k := k0;
      if k == |turns| { return; }
      ExecSnoc(s, turns, k);
      Meanwhile(turns[k].acts);
      Pause(turns[k].choice);
      k := k + 1;
      if k == |turns| { return; }
      ExecSnoc(s, turns, k);
      Meanwhile(turns[k].acts);
      Clear(turns[k].choice);
      k := k + 1;
      if k == |turns| { return; }
      ExecSnoc(s, turns, k);
      Meanwhile(turns[k].acts);
      Read(turns[k].choice);
      k := k + 1;
    }

    /** From the first waitForComplete to the end of the loop body. */
    method Finish(turns: seq<Turn>, k0: nat, ghost s: State) returns (k: nat)
      requires At(s, turns, k0) && place == Waiting
      modifies this
      ensures k0 <= k && At(s, turns, k) && (k < |turns| ==> place == Testing)
    {
      hide Exec, Happen, Advance, Fresh, BatchInv, Inv;
      k := k0;
      if k == |turns| { return; }
      ExecSnoc(s, turns, k);
      Meanwhile(turns[k].acts);
      WaitForComplete(turns[k].choice);
      k := k + 1;
      if k == |turns| { return; }
      ExecSnoc(s, turns, k);
      Meanwhile(turns[k].acts);
      GroupsAreThere(s, turns, k);
      var _ := StopLaggards(turns[k].choice);
      k := k + 1;
      if k == |turns| { return; }
      ExecSnoc(s, turns, k);
      Meanwhile(turns[k].acts);
      WaitForComplete(turns[k].choice);
      k := k + 1;
      if k == |turns| { return; }
      ExecSnoc(s, turns, k);
      Meanwhile(turns[k].acts);
      PassOnInterrupt(turns[k].choice);
      k := k + 1;
    }

    /** One batch: nothing to start and perhaps a rest, or readers that are waited for and stopped. */
    method Batch(turns: seq<Turn>, k0: nat, ghost s: State) returns (k: nat)
      requires At(s, turns, k0) && place == Choosing
      modifies this
      ensures k0 <= k && At(s, turns, k) && (k < |turns| ==> place == Testing)
    {
      hide Exec, Happen, Advance, Fresh, BatchInv, Inv;
      k := k0;
      if k == |turns| { return; }
      ExecSnoc(s, turns, k);
      Meanwhile(turns[k].acts);
      GroupsAreThere(s, turns, k);
      var _, count := StartNext(turns[k].choice);
      k := k + 1;
      if count > 0 {
        k := Finish(turns, k, s);
      } else if k < |turns| && place == Resting {
        ExecSnoc(s, turns, k);
        Meanwhile(turns[k].acts);
        Pause(turns[k].choice);
        k := k + 1;
      } else if k == |turns| {
        return;
      }
    }

    /** run, for as many turns as are given. */
    method Run(turns: seq<Turn>)
      requires Fresh(View())
      modifies this
      ensures View() == Exec(old(View()), turns)
    {
      hide Exec, Happen, Advance;
      ghost var s := View();
      ExecNothing(s);
      var k := 0;
      while k < |turns|
        invariant At(s, turns, k) && (k < |turns| ==> place == Testing)
        decreases |turns| - k
      {
        ExecSnoc(s, turns, k);
        Meanwhile(turns[k].acts);
        var goesOn := Test(turns[k].choice);
        k := k + 1;
        if !goesOn { break; }
        if k == |turns| { break; }
        ExecSnoc(s, turns, k);
        Meanwhile(turns[k].acts);
        var update := Decide(turns[k].choice);
        k := k + 1;
        if update {
          k := Update(turns, k, s);
        } else {
          k := Batch(turns, k, s);
        }
      }
      if k < |turns| {
        ExecSnoc(s, turns, k);
        Meanwhile(turns[k].acts);
        CountDown(turns[k].choice);
        k := k + 1;
      }
      while k < |turns|
        invariant At(s, turns, k) && (k < |turns| ==> place == Done)
      {
        ExecSnoc(s, turns, k);
        Meanwhile(turns[k].acts);
        NothingMore(View(), turns[k].choice);
        k := k + 1;
      }
      assert turns[..k] == turns;
    }
  }

  lemma ExecNothing(s: State)
    ensures Exec(s, []) == s
  {
  }

  lemma ExecSnoc(s: State, turns: seq<Turn>, k: nat)
    requires k < |turns|
    ensures Exec(s, turns[..k + 1]) == Advance(Happen(Exec(s, turns[..k]), turns[k].acts), turns[k].choice)
  {
    assert turns[..k + 1][..k] == turns[..k];
  }

  lemma NothingMore(s: State, c: Choice)
    requires s.place == Done
    ensures Advance(s, c) == s
  {
  }

  /** The group chosen or being read is there. */
  lemma GroupsAreThere(s: State, turns: seq<Turn>, k: nat)
    requires Fresh(s) && k < |turns|
    ensures var s' := Happen(Exec(s, turns[..k]), turns[k].acts);
      BatchInv(s') && (s'.place == Choosing ==> s'.groups != [])
  {
    ExecKeeps(s, turns[..k]);
    HappenKeeps(Exec(s, turns[..k]), turns[k].acts);
  }

  /** remove takes away the first occurrence and nothing else. */
  lemma {:induction false} FirstRemoved(g: Group, x: Sensor, i: nat)
    requires i < |g| && g[i] == x && x !in g[..i]
    ensures WithoutFirst(g, x) == g[..i] + g[i + 1..]
  {
    if i > 0 {
      assert g[0] in g[..i] && g[1..][..i - 1] == g[..i][1..];
      FirstRemoved(g[1..], x, i - 1);
    }
  }

  lemma {:induction false} RemovedAt(gs: seq<Group>, s: Sensor, i: nat)
    requires i < |gs| && s in gs[i] && forall k :: 0 <= k < i ==> s !in gs[k]
    ensures RemoveFrom(gs, s) == gs[i := WithoutFirst(gs[i], s)]
  {
    assert gs == [gs[0]] + gs[1..];
    if i > 0 {
      assert s !in gs[0];
      RemovedAt(gs[1..], s, i - 1);
    }
  }

  lemma {:induction false} RemovedNowhere(gs: seq<Group>, s: Sensor)
    requires forall k :: 0 <= k < |gs| ==> s !in gs[k]
    ensures RemoveFrom(gs, s) == gs
  {
    if gs != [] {
      assert gs == [gs[0]] + gs[1..] && s !in gs[0];
      RemovedNowhere(gs[1..], s);
    }
  }
}
