/**
  ControllerWebSocket: the reconnecting JSON-RPC socket of the administration pages, against every
  order of browser events.
*/
module Socket {
  import opened Basics

  // ---------------------------------------------------------------- the state

  datatype Ready = Connecting | Opened | Closing | Gone

  datatype Announced = Open | Closed

  datatype Request = Request(id: nat, call: string, params: Option<int>)

  /** A WebSocket object, with the topics set when it opened. */
  datatype Connection = Connection(ready: Ready, everOpen: bool, topics: Option<int>)

  /** A message handed to the connection `on`. */
  datatype Sent = Sent(on: nat, request: Request)

  /** A call of inboundResponse; completed unless it threw. */
  datatype Delivery = Delivery(id: nat, request: Request, completed: bool)

  /** What the page's code asks to have sent while one of its handlers runs, and whether it throws in the end. */
  datatype Handler = Handler(asks: seq<Ask>, throws: bool)

  datatype Ask = Ask(call: string, params: Option<int>)

  /** sockets and timers are the browser's; told, issued, sent and delivered record what happened. */
  datatype State = State(
    socket: Option<nat>, state: Announced, interval: Option<nat>,
    topics: Option<int>, reqId: nat, pending: map<nat, Request>,
    sockets: seq<Connection>, timers: seq<bool>, log: Log)

  datatype Log = Log(told: seq<Announced>, issued: seq<Request>, sent: seq<Sent>, delivered: seq<Delivery>)

  const NEW_SOCKET := State(None, Closed, None, Some(0), 0, map[], [], [], Log([], [], [], []))

  /** References are in range. */
  predicate Valid(s: State) {
    (s.socket.Some? ==> s.socket.value < |s.sockets|) && (s.interval.Some? ==> s.interval.value < |s.timers|)
  }

  // ---------------------------------------------------------------- what the functions do

  function Told(s: State): State { s.(log := s.log.(told := s.log.told + [s.state])) }

  /** A new connection, if there is no socket and the constructor does not throw. */
  function CheckedOpen(s: State, throws: bool): State {
    if s.socket.Some? || throws then s
    else s.(socket := Some(|s.sockets|), sockets := s.sockets + [Connection(Connecting, false, None)])
  }

  function Timed(s: State): State {
    if s.interval.Some? then s else s.(interval := Some(|s.timers|), timers := s.timers + [true])
  }

  function Untimed(s: State): State
    requires Valid(s)
  {
    if s.interval.None? then s else s.(interval := None, timers := s.timers[s.interval.value := false])
  }

  /** A request gets the next id and is pending from then on, whether or not it can be sent. */
  function Asked(s: State, a: Ask): State
    requires Valid(s)
  {
    var r := Request(s.reqId, a.call, a.params);
    s.(reqId := s.reqId + 1, pending := s.pending[s.reqId := r],
       log := s.log.(issued := s.log.issued + [r],
                     sent := if Transmits(s) then s.log.sent + [Sent(s.socket.value, r)] else s.log.sent))
  }

  /** Sending while connecting throws, while closing it does nothing. */
  predicate Transmits(s: State)
    requires Valid(s)
  {
    s.socket.Some? && s.sockets[s.socket.value].ready == Opened
  }

  function AllAsked(s: State, asks: seq<Ask>): (r: State)
    requires Valid(s)
    ensures Valid(r) && r.socket == s.socket && r.sockets == s.sockets
  {
    if asks == [] then s else Asked(AllAsked(s, asks[..|asks| - 1]), asks[|asks| - 1])
  }

  function SetReady(s: State, k: nat, ready: Ready): State
    requires k < |s.sockets|
  {
    s.(sockets := s.sockets[k := s.sockets[k].(ready := ready)])
  }

  /** The state in which the listeners learn that connection k is open. */
  function Opening(s: State, k: nat): (r: State)
    requires Valid(s) && k < |s.sockets|
    ensures Valid(r) && |r.sockets| == |s.sockets|
  {
    Told(Untimed(s.(sockets := s.sockets[k := Connection(Opened, true, s.topics)])).(state := Open))
  }

  /** onopen, up to the subscription; h is what the state listeners do. */
  function Announcing(s: State, k: nat, h: Handler): (r: State)
    requires Valid(s) && k < |s.sockets|
    ensures Valid(r) && |r.sockets| == |s.sockets|
  {
    AllAsked(Opening(s, k), h.asks)
  }

  function OnOpened(s: State, k: nat, h: Handler): (r: State)
    requires Valid(s) && k < |s.sockets|
    ensures Valid(r)
  {
    var s1 := Announcing(s, k, h);
    if s1.topics.None? then s1 else Asked(s1, Ask("subscribe", s1.topics))
  }

  function OnClosed(s: State, k: nat, h: Handler): (r: State)
    requires Valid(s) && k < |s.sockets|
    ensures Valid(r)
  {
    var s1 := SetReady(s, k, Gone);
    var s2 := if s.state == Open then AllAsked(Told(s1.(state := Closed)), h.asks) else s1;
    Timed(s2.(socket := None))
  }

  /** onmessage for a response with this id: an id that is not pending is a TypeError. */
  function OnResponse(s: State, id: nat, h: Handler): (r: State)
    requires Valid(s)
    ensures Valid(r)
  {
    if id !in s.pending then s
    else
      var s1 := s.(log := s.log.(delivered := s.log.delivered + [Delivery(id, s.pending[id], !h.throws)]));
      var s2 := AllAsked(s1, h.asks);
      if h.throws then s2 else s2.(pending := s2.pending - {id})
  }

  /** Everything else goes to a handler, or fails to parse. */
  function OnOther(s: State, h: Handler): (r: State)
    requires Valid(s)
    ensures Valid(r)
  {
    AllAsked(s, h.asks)
  }

  // ---------------------------------------------------------------- events

  /** `throws` says whether the WebSocket constructor, if called, throws. */
  datatype Event =
    | Init(throws: bool)
    | Tick(throws: bool)
    | Opens(k: nat, h: Handler)
    | Responds(k: nat, id: nat, h: Handler)
    | Sends(k: nat, h: Handler)
    | StartsClosing(k: nat)
    | Closes(k: nat, h: Handler)
    | Asks(a: Ask)
    | SetTopics(topics: Option<int>)

  /** What the browser can do. init is called once, before anything else. */
  predicate Enabled(s: State, e: Event)
    requires Valid(s)
  {
    match e
    case Init(_) => s.log.told == [] && s.sockets == []
    case Tick(_) => s.interval.Some?
    case Opens(k, _) => k < |s.sockets| && s.sockets[k].ready == Connecting
    case Responds(k, _, _) => k < |s.sockets| && s.sockets[k].ready == Opened
    case Sends(k, _) => k < |s.sockets| && s.sockets[k].ready == Opened
    case StartsClosing(k) => k < |s.sockets| && s.sockets[k].ready == Opened
    case Closes(k, _) => k < |s.sockets| && s.sockets[k].ready != Gone
    case Asks(_) => true
    case SetTopics(_) => true
  }

  function Apply(s: State, e: Event): (r: State)
    requires Valid(s) && Enabled(s, e)
    ensures Valid(r)
  {
    match e
    case Init(throws) => CheckedOpen(Told(s), throws)
    case Tick(throws) => CheckedOpen(s, throws)
    case Opens(k, h) => OnOpened(s, k, h)
    case Responds(_, id, h) => OnResponse(s, id, h)
    case Sends(_, h) => OnOther(s, h)
    case StartsClosing(k) => SetReady(s, k, Closing)
    case Closes(k, h) => OnClosed(s, k, h)
    case Asks(a) => Asked(s, a)
    case SetTopics(topics) => s.(topics := topics)
  }

  function Exec(s: State, es: seq<Event>): (r: Option<State>)
    requires Valid(s)
    ensures r.Some? ==> Valid(r.value)
    decreases |es|
  {
    if es == [] then Some(s) else if !Enabled(s, es[0]) then None else Exec(Apply(s, es[0]), es[1..])
  }

  // ---------------------------------------------------------------- the connection

  /** The socket field holds the one connection that is not gone. */
  ghost predicate OneSocket(s: State) {
    forall k :: 0 <= k < |s.sockets| ==> (s.sockets[k].ready != Gone <==> s.socket == Some(k))
  }

  /** The interval field holds the one timer that runs. */
  ghost predicate OneTimer(s: State) {
    forall t :: 0 <= t < |s.timers| ==> (s.timers[t] <==> s.interval == Some(t))
  }

  /** Listeners think the connection is open exactly while it is, and then no timer runs. */
  ghost predicate OpenInv(s: State)
    requires Valid(s)
  {
    && (s.state == Open <==> s.socket.Some? && s.sockets[s.socket.value].everOpen)
    && (s.state == Open ==> s.interval.None?)
    && (forall k :: 0 <= k < |s.sockets| ==> ReadyInv(s.sockets[k]))
  }

  ghost predicate ReadyInv(c: Connection) {
    && (c.ready == Connecting ==> !c.everOpen) && (c.ready == Opened || c.ready == Closing ==> c.everOpen)
  }

  /** First closed, then strictly alternating, and the last one told is the present one. */
  ghost predicate ToldInv(s: State) {
    var told := s.log.told;
    && (told == [] ==> s.state == Closed && s.sockets == [] && s.interval.None?)
    && (told != [] ==> told[0] == Closed && told[|told| - 1] == s.state)
    && (forall i :: 0 <= i < |told| - 1 ==> told[i] != told[i + 1])
  }

  ghost predicate Connected(s: State) {
    Valid(s) && OneSocket(s) && OneTimer(s) && OpenInv(s) && ToldInv(s)
  }

  /** A connection exists or will be tried again. */
  ghost predicate Alive(s: State) { s.socket.Some? || s.interval.Some? }

  /** The two states agree on everything the connection's invariant looks at. */
  ghost predicate SameConnection(s: State, s': State) {
    && s'.socket == s.socket && s'.state == s.state && s'.interval == s.interval
    && s'.sockets == s.sockets && s'.timers == s.timers && s'.log.told == s.log.told
  }

  lemma ConnectedFrame(s: State, s': State)
    requires Connected(s) && SameConnection(s, s')
    ensures Connected(s')
  {
  }

  /** Requests for what is asked, numbered from id on. */
  function Requests(id: nat, asks: seq<Ask>): seq<Request> {
    seq(|asks|, i requires 0 <= i < |asks| => Request(id + i, asks[i].call, asks[i].params))
  }

  function OnConnection(k: nat, requests: seq<Request>): seq<Sent> {
    seq(|requests|, i requires 0 <= i < |requests| => Sent(k, requests[i]))
  }

  lemma RequestsSnoc(id: nat, asks: seq<Ask>, a: Ask, k: nat)
    ensures
      var r := Request(id + |asks|, a.call, a.params);
      && Requests(id, asks + [a]) == Requests(id, asks) + [r]
      && OnConnection(k, Requests(id, asks + [a])) == OnConnection(k, Requests(id, asks)) + [Sent(k, r)]
  {
  }

  /**
    Every request asked for is issued, in order and with the next ids; it is sent exactly if the socket is open
    at that moment.
  */
  lemma {:induction false} AskedFrame(s: State, asks: seq<Ask>)
    requires Valid(s)
    ensures
      var s' := AllAsked(s, asks);
      && SameConnection(s, s') && s'.topics == s.topics && s'.log.delivered == s.log.delivered
      && s'.reqId == s.reqId + |asks| && s'.log.issued == s.log.issued + Requests(s.reqId, asks)
      && (s.socket.Some? && s.sockets[s.socket.value].ready == Opened ==>
            s'.log.sent == s.log.sent + OnConnection(s.socket.value, Requests(s.reqId, asks)))
      && (s.socket.Some? && s.sockets[s.socket.value].ready != Opened ==> s'.log.sent == s.log.sent)
      && (s.socket.None? ==> s'.log.sent == s.log.sent)
  {
    if asks != [] {
      var most, last := asks[..|asks| - 1], asks[|asks| - 1];
      AskedFrame(s, most);
      assert most + [last] == asks;
      RequestsSnoc(s.reqId, most, last, if s.socket.Some? then s.socket.value else 0);
    }
  }

  lemma ToldSnoc(s: State)
    requires ToldInv(s.(state := if s.log.told == [] then Closed else s.log.told[|s.log.told| - 1]))
    requires s.log.told == [] ==> s.state == Closed
    requires s.log.told != [] ==> s.log.told[|s.log.told| - 1] != s.state
    ensures ToldInv(Told(s))
  {
  }

  lemma OpeningKeeps(s: State, k: nat)
    requires Connected(s) && k < |s.sockets| && s.sockets[k].ready == Connecting
    ensures Connected(Opening(s, k)) && s.socket == Some(k) && Opening(s, k).sockets[k].ready == Opened
  {
    assert ReadyInv(s.sockets[k]) && s.socket == Some(k) && s.log.told != [];
    ToldSnoc(Untimed(s.(sockets := s.sockets[k := Connection(Opened, true, s.topics)])).(state := Open));
    forall j | 0 <= j < |Opening(s, k).sockets| ensures ReadyInv(Opening(s, k).sockets[j]) {
      if j != k { assert ReadyInv(s.sockets[j]); }
    }
  }

  /**
    Opening tells the listeners, then lets them ask, and then sends exactly one more request, the subscription
    to the topics, on this connection; without topics nothing more is issued or sent.
  */
  lemma OpenKeeps(s: State, k: nat, h: Handler)
    requires Connected(s) && k < |s.sockets| && s.sockets[k].ready == Connecting
    ensures
      var s' := OnOpened(s, k, h);
      && Connected(s') && s'.state == Open && s'.sockets[k] == Connection(Opened, true, s.topics)
      && s'.log.told == s.log.told + [Open]
      && var all := h.asks + (if s.topics.Some? then [Ask("subscribe", s.topics)] else []);
        && s'.log.issued == s.log.issued + Requests(s.reqId, all)
        && s'.log.sent == s.log.sent + OnConnection(k, Requests(s.reqId, all))
  {
    hide OneSocket, OneTimer, OpenInv, ToldInv;
    OpeningKeeps(s, k);
    AskedFrame(Opening(s, k), h.asks);
    ConnectedFrame(Opening(s, k), OnOpened(s, k, h));
    RequestsSnoc(s.reqId, h.asks, Ask("subscribe", s.topics), k);
    assert h.asks + [] == h.asks;
  }

  lemma CloseKeeps(s: State, k: nat, h: Handler)
    requires Connected(s) && k < |s.sockets| && s.sockets[k].ready != Gone
    ensures
      var s' := OnClosed(s, k, h);
      && Connected(s') && s'.state == Closed && s'.socket == None && s'.interval.Some?
      && s'.sockets == s.sockets[k := s.sockets[k].(ready := Gone)]
      && s'.log.told == s.log.told + (if s.state == Open then [Closed] else [])
      && s'.log.issued == s.log.issued + (if s.state == Open then Requests(s.reqId, h.asks) else [])
      && s'.log.sent == s.log.sent
  {
    var s1 := SetReady(s, k, Gone);
    AskedFrame(Told(s1.(state := Closed)), h.asks);
    var s' := OnClosed(s, k, h);
    assert s.socket == Some(k);
    forall j | 0 <= j < |s'.sockets| ensures ReadyInv(s'.sockets[j]) { assert ReadyInv(s.sockets[j]); }
  }

  lemma StepConnected(s: State, e: Event)
    requires Connected(s) && Enabled(s, e)
    ensures Connected(Apply(s, e))
  {
    match e
    case Opens(k, h) => OpenKeeps(s, k, h);
    case Closes(k, h) => CloseKeeps(s, k, h);
    case Responds(_, id, h) =>
      if id in s.pending {
        AskedFrame(s.(log := s.log.(delivered := s.log.delivered + [Delivery(id, s.pending[id], !h.throws)])), h.asks);
      }
    case Sends(_, h) => AskedFrame(s, h.asks);
    case _ =>
  }

  /** Over every order of events. */
  lemma {:induction false} RunsConnected(s: State, es: seq<Event>)
    requires Connected(s)
    ensures Exec(s, es).Some? ==> Connected(Exec(s, es).value)
    decreases |es|
  {
    if es != [] && Enabled(s, es[0]) {
      StepConnected(s, es[0]);
      RunsConnected(Apply(s, es[0]), es[1..]);
    }
  }

  /**
    Retrying never stops: it starts with init exactly if the first constructor call succeeds, and then goes on
    for good.
  */
  lemma AliveStep(s: State, e: Event)
    requires Connected(s) && Enabled(s, e)
    ensures e.Init? ==> (Alive(Apply(s, e)) <==> !e.throws)
    ensures Alive(s) ==> Alive(Apply(s, e))
  {
    match e
    case Opens(k, h) => OpenKeeps(s, k, h);
    case Closes(k, h) => CloseKeeps(s, k, h);
    case Responds(_, id, h) =>
      if id in s.pending {
        AskedFrame(s.(log := s.log.(delivered := s.log.delivered + [Delivery(id, s.pending[id], !h.throws)])), h.asks);
      }
    case Sends(_, h) => AskedFrame(s, h.asks);
    case _ =>
  }

  lemma {:induction false} RunsAlive(s: State, es: seq<Event>)
    requires Connected(s) && Alive(s)
    ensures Exec(s, es).Some? ==> Alive(Exec(s, es).value)
    decreases |es|
  {
    if es != [] && Enabled(s, es[0]) {
      StepConnected(s, es[0]);
      AliveStep(s, es[0]);
      RunsAlive(Apply(s, es[0]), es[1..]);
    }
  }

  /** A tick of the timer opens a new connection unless there is one or the constructor throws. */
  lemma TickRetries(s: State, throws: bool)
    requires Connected(s) && Enabled(s, Tick(throws))
    ensures Apply(s, Tick(throws)).sockets
      == if throws || (exists k :: 0 <= k < |s.sockets| && s.sockets[k].ready != Gone) then s.sockets
         else s.sockets + [Connection(Connecting, false, None)]
  {
    if s.socket.Some? { assert s.sockets[s.socket.value].ready != Gone; }
  }

  /** With neither, no event of the browser brings the connection back. */
  lemma {:induction false} DeadForGood(s: State, es: seq<Event>)
    requires Connected(s) && !Alive(s) && s.log.told != []
    ensures Exec(s, es).Some? ==> !Alive(Exec(s, es).value)
    decreases |es|
  {
    if es != [] && Enabled(s, es[0]) {
      StepConnected(s, es[0]);
      assert forall k :: 0 <= k < |s.sockets| ==> s.sockets[k].ready == Gone;
      DeadForGood(Apply(s, es[0]), es[1..]);
    }
  }

  /**
    After any run that begins with init there is a connection or a timer exactly if the first constructor call
    succeeded.
  */
  lemma AliveIff(throws: bool, es: seq<Event>)
    ensures Exec(NEW_SOCKET, [Init(throws)] + es).Some? ==>
      (Alive(Exec(NEW_SOCKET, [Init(throws)] + es).value) <==> !throws)
  {
    var s := Apply(NEW_SOCKET, Init(throws));
    assert ([Init(throws)] + es)[1..] == es;
    StepConnected(NEW_SOCKET, Init(throws));
    AliveStep(NEW_SOCKET, Init(throws));
    if throws { DeadForGood(s, es); } else { RunsAlive(s, es); }
  }

  // ---------------------------------------------------------------- subscriptions

  /** The topics of the subscriptions sent on connection k, in order. */
  function Subscriptions(sent: seq<Sent>, k: nat): seq<Option<int>> {
    if sent == [] then []
    else
      var last := sent[|sent| - 1];
      Subscriptions(sent[..|sent| - 1], k)
        + (if last.on == k && last.request.call == "subscribe" then [last.request.params] else [])
  }

  predicate Subscribes(asks: seq<Ask>) { exists i :: 0 <= i < |asks| && asks[i].call == "subscribe" }

  /** The page's own code does not ask for a subscription. */
  predicate Plain(e: Event) {
    match e
    case Opens(_, h) => !Subscribes(h.asks)
    case Responds(_, _, h) => !Subscribes(h.asks)
    case Sends(_, h) => !Subscribes(h.asks)
    case Closes(_, h) => !Subscribes(h.asks)
    case Asks(a) => !Subscribes([a])
    case _ => true
  }

  /**
    A connection that opened with topics was sent them, and that alone if the page's own code asks for no
    subscription; in that case one that opened without was sent none, nor was ever one that did not open.
  */
  ghost predicate SubscribedOn(s: State, k: nat, plain: bool) {
    var subscriptions := Subscriptions(s.log.sent, k);
    if k >= |s.sockets| || !s.sockets[k].everOpen then subscriptions == []
    else if s.sockets[k].topics.None? then plain ==> subscriptions == []
    else s.sockets[k].topics in subscriptions && (plain ==> subscriptions == [s.sockets[k].topics])
  }

  ghost predicate Subscribed(s: State, plain: bool) { forall k: nat :: SubscribedOn(s, k, plain) }

  /** What asking adds to the subscriptions of connection j. */
  lemma {:induction false} AskedSubscriptions(sent: seq<Sent>, k: nat, id: nat, asks: seq<Ask>, j: nat)
    ensures
      var before, after := Subscriptions(sent, j), Subscriptions(sent + OnConnection(k, Requests(id, asks)), j);
      before <= after && (j != k || !Subscribes(asks) ==> after == before)
  {
    if asks == [] {
      assert sent + OnConnection(k, Requests(id, asks)) == sent;
    } else {
      var most, last := asks[..|asks| - 1], asks[|asks| - 1];
      assert most + [last] == asks;
      AskedSubscriptions(sent, k, id, most, j);
      RequestsSnoc(id, most, last, k);
      SentSnoc(sent + OnConnection(k, Requests(id, most)), Sent(k, Request(id + |most|, last.call, last.params)), j);
      assert sent + OnConnection(k, Requests(id, asks)) == sent + OnConnection(k, Requests(id, most))
        + [Sent(k, Request(id + |most|, last.call, last.params))];
      assert asks[|asks| - 1] == last;
    }
  }

  lemma SentSnoc(sent: seq<Sent>, m: Sent, j: nat)
    ensures Subscriptions(sent + [m], j)
      == Subscriptions(sent, j) + (if m.on == j && m.request.call == "subscribe" then [m.request.params] else [])
  {
    assert (sent + [m])[..|sent|] == sent;
  }

  /** Asking on an open connection, or on none, keeps what was subscribed. */
  lemma AskSubscribed(s: State, asks: seq<Ask>, plain: bool)
    requires Connected(s) && Subscribed(s, plain) && (plain ==> !Subscribes(asks))
    ensures Subscribed(AllAsked(s, asks), plain)
  {
    hide OneSocket, OneTimer, ToldInv, Subscriptions;
    var s' := AllAsked(s, asks);
    AskedFrame(s, asks);
    forall j: nat ensures SubscribedOn(s', j, plain) {
      assert SubscribedOn(s, j, plain);
      if s'.log.sent != s.log.sent {
        AskedSubscriptions(s.log.sent, s.socket.value, s.reqId, asks, j);
        assert ReadyInv(s.sockets[s.socket.value]);
      }
    }
  }

  lemma OpenSubscribed(s: State, k: nat, h: Handler, plain: bool)
    requires Connected(s) && k < |s.sockets| && s.sockets[k].ready == Connecting
    requires Subscribed(s, plain) && (plain ==> !Subscribes(h.asks))
    ensures Subscribed(OnOpened(s, k, h), plain)
  {
    hide OneSocket, OneTimer, OpenInv, ToldInv, Subscriptions;
    var s1, s' := Announcing(s, k, h), OnOpened(s, k, h);
    OpeningKeeps(s, k);
    AskedFrame(Opening(s, k), h.asks);
    forall j: nat ensures SubscribedOn(s', j, plain) {
      assert SubscribedOn(s, j, plain);
      AskedSubscriptions(s.log.sent, k, s.reqId, h.asks, j);
      ReadyAt(s, k);
      if s.topics.Some? {
        SentSnoc(s1.log.sent, Sent(k, Request(s1.reqId, "subscribe", s.topics)), j);
      }
    }
  }

  lemma ReadyAt(s: State, k: nat)
    requires Connected(s) && k < |s.sockets|
    ensures ReadyInv(s.sockets[k])
  {
  }

  lemma StepSubscribed(s: State, e: Event, plain: bool)
    requires Connected(s) && Enabled(s, e) && Subscribed(s, plain) && (plain ==> Plain(e))
    ensures Subscribed(Apply(s, e), plain)
  {
    hide OneSocket, OneTimer, OpenInv, ToldInv, Subscriptions;
    match e
    case Opens(k, h) => OpenSubscribed(s, k, h, plain);
    case Closes(k, h) =>
      CloseKeeps(s, k, h);
      SubscribedFrame(s, Apply(s, e), plain);
    case Responds(_, id, h) =>
      if id in s.pending {
        var s1 := s.(log := s.log.(delivered := s.log.delivered + [Delivery(id, s.pending[id], !h.throws)]));
        ConnectedFrame(s, s1);
        SubscribedFrame(s, s1, plain);
        AskSubscribed(s1, h.asks, plain);
        SubscribedFrame(AllAsked(s1, h.asks), Apply(s, e), plain);
      }
    case Sends(_, h) => AskSubscribed(s, h.asks, plain);
    case Asks(a) =>
      AskSubscribed(s, [a], plain);
      assert AllAsked(s, [a]) == Asked(AllAsked(s, []), a);
    case _ => SubscribedFrame(s, Apply(s, e), plain);
  }

  lemma SubscribedFrame(s: State, s': State, plain: bool)
    requires Subscribed(s, plain) && s'.log.sent == s.log.sent && |s.sockets| <= |s'.sockets|
    requires forall k :: 0 <= k < |s.sockets| ==>
      s'.sockets[k].everOpen == s.sockets[k].everOpen && s'.sockets[k].topics == s.sockets[k].topics
    requires forall k :: |s.sockets| <= k < |s'.sockets| ==> !s'.sockets[k].everOpen
    ensures Subscribed(s', plain)
  {
    forall k: nat ensures SubscribedOn(s', k, plain) { assert SubscribedOn(s, k, plain); }
  }

  lemma {:induction false} RunsSubscribed(s: State, es: seq<Event>, plain: bool)
    requires Connected(s) && Subscribed(s, plain) && (plain ==> forall e <- es :: Plain(e))
    ensures Exec(s, es).Some? ==> Subscribed(Exec(s, es).value, plain)
    decreases |es|
  {
    if es != [] && Enabled(s, es[0]) {
      StepConnected(s, es[0]);
      StepSubscribed(s, es[0], plain);
      RunsSubscribed(Apply(s, es[0]), es[1..], plain);
    }
  }

  /** What the page and the server see from a fresh object on. */
  lemma Reconnects(es: seq<Event>)
    ensures Exec(NEW_SOCKET, es).Some? ==>
      var s := Exec(NEW_SOCKET, es).value;
      && OneSocket(s) && OneTimer(s) && ToldInv(s)
      && (s.state == Open ==> s.socket.Some? && s.interval.None?)
      && Subscribed(s, false) && ((forall e <- es :: Plain(e)) ==> Subscribed(s, true))
  {
    RunsConnected(NEW_SOCKET, es);
    RunsSubscribed(NEW_SOCKET, es, false);
    if forall e <- es :: Plain(e) { RunsSubscribed(NEW_SOCKET, es, true); }
  }

  // ---------------------------------------------------------------- requests and responses

  /** id was answered: a call of inboundResponse for it came to its end. */
  ghost predicate Answered(delivered: seq<Delivery>, id: nat) {
    exists i :: 0 <= i < |delivered| && delivered[i].id == id && delivered[i].completed
  }

  /** Exactly the ids issued and not yet answered are pending, each with its own request. */
  ghost predicate PendingInv(s: State) {
    && |s.log.issued| == s.reqId
    && (forall i :: 0 <= i < |s.log.issued| ==> s.log.issued[i].id == i)
    && (forall id: nat :: id in s.pending <==> id < s.reqId && !Answered(s.log.delivered, id))
    && (forall id <- s.pending :: id < s.reqId ==> s.pending[id] == s.log.issued[id])
  }

  /** Handlers get the request their response belongs to, and nothing more once they have completed. */
  ghost predicate DeliveredInv(log: Log) {
    && (forall i :: 0 <= i < |log.delivered| ==> DeliveryOk(log, log.delivered[i]))
    && (forall i, j :: 0 <= i < j < |log.delivered| && log.delivered[i].completed ==>
          log.delivered[j].id != log.delivered[i].id)
  }

  ghost predicate DeliveryOk(log: Log, d: Delivery) { d.id < |log.issued| && d.request == log.issued[d.id] }

  ghost predicate Matched(s: State) { Valid(s) && PendingInv(s) && DeliveredInv(s.log) }

  lemma AnsweredIssued(s: State, id: nat)
    requires Matched(s) && Answered(s.log.delivered, id)
    ensures id < s.reqId
  {
    var i :| 0 <= i < |s.log.delivered| && s.log.delivered[i].id == id;
    assert DeliveryOk(s.log, s.log.delivered[i]);
  }

  lemma AskKeeps(s: State, a: Ask)
    requires Matched(s)
    ensures Matched(Asked(s, a))
  {
    var s' := Asked(s, a);
    forall id: nat | Answered(s.log.delivered, id) ensures id < s.reqId { AnsweredIssued(s, id); }
    forall i | 0 <= i < |s'.log.delivered| ensures DeliveryOk(s'.log, s'.log.delivered[i]) {
      assert DeliveryOk(s.log, s.log.delivered[i]);
    }
  }

  lemma {:induction false} AllAskKeeps(s: State, asks: seq<Ask>)
    requires Matched(s)
    ensures Matched(AllAsked(s, asks))
    ensures forall id <- s.pending :: id in AllAsked(s, asks).pending && AllAsked(s, asks).pending[id] == s.pending[id]
  {
    if asks != [] {
      AllAskKeeps(s, asks[..|asks| - 1]);
      AskKeeps(AllAsked(s, asks[..|asks| - 1]), asks[|asks| - 1]);
    }
  }

  lemma MatchedFrame(s: State, s': State)
    requires Matched(s) && Valid(s') && s'.reqId == s.reqId && s'.pending == s.pending
    requires s'.log.issued == s.log.issued && s'.log.delivered == s.log.delivered
    ensures Matched(s')
  {
    forall i | 0 <= i < |s'.log.delivered| ensures DeliveryOk(s'.log, s'.log.delivered[i]) {
      assert DeliveryOk(s.log, s.log.delivered[i]);
    }
  }

  lemma OwnRequest(s: State, id: nat)
    requires Matched(s) && id in s.pending
    ensures id < |s.log.issued| && s.pending[id] == s.log.issued[id]
  {
  }

  /** One delivery, completed or not; the entry goes only in the first case. */
  lemma ResponseMatches(s: State, id: nat, h: Handler)
    requires Matched(s)
    ensures Matched(OnResponse(s, id, h))
    ensures id in s.pending ==>
      && OnResponse(s, id, h).log.delivered == s.log.delivered + [Delivery(id, s.log.issued[id], !h.throws)]
      && (id in OnResponse(s, id, h).pending <==> h.throws)
    ensures id !in s.pending ==> OnResponse(s, id, h) == s
  {
    hide PendingInv, DeliveredInv;
    if id in s.pending {
      OwnRequest(s, id);
      AllAskKeeps(s, h.asks);
      AskedFrame(s, h.asks);
      var d := Delivery(id, s.pending[id], !h.throws);
      var s1 := s.(log := s.log.(delivered := s.log.delivered + [d]));
      AskedSame(s, s1, h.asks);
      AskedFrame(s1, h.asks);
      DeliverKeeps(AllAsked(s, h.asks), OnResponse(s, id, h), d);
    }
  }

  lemma AnsweredSnoc(delivered: seq<Delivery>, d: Delivery, x: nat)
    ensures Answered(delivered + [d], x) <==> Answered(delivered, x) || (x == d.id && d.completed)
  {
    var now := delivered + [d];
    if Answered(delivered, x) {
      var i :| 0 <= i < |delivered| && delivered[i].id == x && delivered[i].completed;
      assert now[i] == delivered[i];
    }
    assert now[|delivered|] == d;
  }

  /** Recording the delivery d of a pending request, and forgetting the request if it completed. */
  lemma DeliverKeeps(s: State, s': State, d: Delivery)
    requires Matched(s) && d.id in s.pending && d.request == s.pending[d.id]
    requires s' == s.(pending := s'.pending, log := s.log.(delivered := s.log.delivered + [d]))
    requires s'.pending == if d.completed then s.pending - {d.id} else s.pending
    ensures Matched(s')
  {
    forall x: nat
      ensures Answered(s'.log.delivered, x) <==> Answered(s.log.delivered, x) || (x == d.id && d.completed)
    {
      AnsweredSnoc(s.log.delivered, d, x);
    }
    forall i | 0 <= i < |s'.log.delivered| ensures DeliveryOk(s'.log, s'.log.delivered[i]) {
      if i < |s.log.delivered| { assert DeliveryOk(s.log, s.log.delivered[i]); }
    }
  }

  /** Requests made do not depend on what was delivered. */
  lemma {:induction false} AskedSame(s: State, s1: State, asks: seq<Ask>)
    requires Valid(s) && s1 == s.(log := s1.log) && s1.log == s.log.(delivered := s1.log.delivered)
    ensures AllAsked(s1, asks) == AllAsked(s, asks).(log := AllAsked(s, asks).log.(delivered := s1.log.delivered))
  {
    if asks == [] {
    } else {
      AskedSame(s, s1, asks[..|asks| - 1]);
      AskedFrame(s, asks[..|asks| - 1]);
    }
  }

  lemma StepMatched(s: State, e: Event)
    requires Matched(s) && Enabled(s, e)
    ensures Matched(Apply(s, e))
  {
    match e
    case Opens(k, h) => OpenMatched(s, k, h);
    case Closes(k, h) => CloseMatched(s, k, h);
    case Responds(_, id, h) => ResponseMatches(s, id, h);
    case Sends(_, h) => AllAskKeeps(s, h.asks);
    case Asks(a) => AskKeeps(s, a);
    case _ => MatchedFrame(s, Apply(s, e));
  }

  lemma OpenMatched(s: State, k: nat, h: Handler)
    requires Matched(s) && k < |s.sockets|
    ensures Matched(OnOpened(s, k, h))
  {
    MatchedFrame(s, Opening(s, k));
    AllAskKeeps(Opening(s, k), h.asks);
    var s3 := Announcing(s, k, h);
    if s3.topics.Some? {
      AskKeeps(s3, Ask("subscribe", s3.topics));
    }
  }

  lemma CloseMatched(s: State, k: nat, h: Handler)
    requires Matched(s) && k < |s.sockets|
    ensures Matched(OnClosed(s, k, h))
  {
    var s1 := SetReady(s, k, Gone);
    var s2 := Told(s1.(state := Closed));
    MatchedFrame(s, s1);
    MatchedFrame(s1, s2);
    AllAskKeeps(s2, h.asks);
    MatchedFrame(if s.state == Open then AllAsked(s2, h.asks) else s1, OnClosed(s, k, h));
  }

  lemma {:induction false} RunsMatched(s: State, es: seq<Event>)
    requires Matched(s)
    ensures Exec(s, es).Some? ==> Matched(Exec(s, es).value)
    decreases |es|
  {
    if es != [] && Enabled(s, es[0]) {
      StepMatched(s, es[0]);
      RunsMatched(Apply(s, es[0]), es[1..]);
    }
  }

  /** Section 5 of JSON-RPC 2.0, over every run and across reconnects. */
  lemma RequestsMatched(es: seq<Event>)
    ensures Exec(NEW_SOCKET, es).Some? ==>
      PendingInv(Exec(NEW_SOCKET, es).value) && DeliveredInv(Exec(NEW_SOCKET, es).value.log)
  {
    assert Matched(NEW_SOCKET);
    RunsMatched(NEW_SOCKET, es);
  }

  // ---------------------------------------------------------------- the object

  class ControllerWebSocket {
    var socket: Option<nat>
    var state: Announced
    var interval: Option<nat>
    var topics: Option<int>
    var reqId: nat
    var pendingRequests: map<nat, Request>
    var sockets: seq<Connection>   // every WebSocket made
    var timers: seq<bool>          // every interval timer set, true while it runs
    var log: Log

    function View(): State
      reads this
    {
      State(socket, state, interval, topics, reqId, pendingRequests, sockets, timers, log)
    }

    constructor ()
      ensures View() == NEW_SOCKET
    {
      socket, state, interval, topics := None, Closed, None, Some(0);
      reqId, pendingRequests, sockets, timers, log := 0, map[], [], [], Log([], [], [], []);
    }

    /** notifyStateListeners; what the listeners do is left to the caller. */
    method NotifyStateListeners()
      modifies `log
      ensures View() == Told(old(View()))
    {
      log := log.(told := log.told + [state]);
    }

    /** init */
    method Initialize(throws: bool)
      modifies `log, `socket, `sockets
      ensures View() == CheckedOpen(Told(old(View())), throws)
    {
      NotifyStateListeners();
      CheckOpen(throws);
    }

    /** checkOpen */
    method CheckOpen(throws: bool)
      modifies `socket, `sockets
      ensures View() == CheckedOpen(old(View()), throws)
    {
      if socket.Some? { return; }
      if throws { return; }
      socket, sockets := Some(|sockets|), sockets + [Connection(Connecting, false, None)];
    }

    /** startInterval */
    method StartInterval()
      modifies `interval, `timers
      ensures View() == Timed(old(View()))
    {
      if interval.None? {
        interval, timers := Some(|timers|), timers + [true];
      }
    }

    /** stopInterval */
    method StopInterval()
      requires Valid(View())
      modifies `interval, `timers
      ensures View() == Untimed(old(View()))
    {
      if interval.Some? {
        timers, interval := timers[interval.value := false], None;
      }
    }

    /** send: false without a socket, Err where WebSocket.send throws. */
    method Send(r: Request) returns (result: Result<bool, string>)
      requires Valid(View())
      modifies `log
      ensures log == if socket.Some? && sockets[socket.value].ready == Opened
        then old(log).(sent := old(log).sent + [Sent(socket.value, r)]) else old(log)
      ensures result.Ok? && !result.value <==> socket.None?
      ensures result.Err? <==> socket.Some? && sockets[socket.value].ready == Connecting
    {
      if socket.None? { return Ok(false); }
      if sockets[socket.value].ready == Connecting { return Err("InvalidStateError"); }
      if sockets[socket.value].ready == Opened {
        log := log.(sent := log.sent + [Sent(socket.value, r)]);
      }
      return Ok(true);
    }

    /** sendJsonRequest: whatever becomes of the message, its id is used up and pending. */
    method SendJsonRequest(a: Ask) returns (result: Result<nat, string>)
      requires Valid(View())
      modifies `reqId, `pendingRequests, `log
      ensures View() == Asked(old(View()), a)
      ensures result.Ok? ==> result.value == old(reqId)
      ensures log.issued == old(log).issued + [Request(old(reqId), a.call, a.params)]
      ensures result.Err? <==> socket.Some? && sockets[socket.value].ready == Connecting
    {
      var req := Request(reqId, a.call, a.params);
      reqId := reqId + 1;
      pendingRequests := pendingRequests[req.id := req];
      log := log.(issued := log.issued + [req]);
      var sent := Send(req);
      result := if sent.Err? then Err(sent.error) else Ok(req.id);
    }

    /** A handler of the page runs and asks for requests to be sent. */
    method RunHandler(h: Handler)
      requires Valid(View())
      modifies `reqId, `pendingRequests, `log
      ensures View() == AllAsked(old(View()), h.asks)
    {
      for i := 0 to |h.asks|
        invariant Valid(View()) && View() == AllAsked(old(View()), h.asks[..i])
      {
        assert h.asks[..i + 1][..i] == h.asks[..i];
        var _ := SendJsonRequest(h.asks[i]);
      }
      assert h.asks[..|h.asks|] == h.asks;
    }

    /** socket.onopen, for the connection k */
    method OnOpen(k: nat, h: Handler)
      requires Connected(View()) && Enabled(View(), Opens(k, h))
      modifies this
      ensures View() == OnOpened(old(View()), k, h)
    {
      sockets := sockets[k := Connection(Opened, true, topics)];
      StopInterval();
      state := Open;
      NotifyStateListeners();
      RunHandler(h);
      if topics.Some? {
        var _ := SendJsonRequest(Ask("subscribe", topics));
      }
    }

    /** socket.onmessage for a response; Err is the TypeError, or the handler's own exception. */
    method OnResponseMessage(id: nat, h: Handler) returns (result: Result<(), string>)
      requires Valid(View())
      modifies `reqId, `pendingRequests, `log
      ensures View() == OnResponse(old(View()), id, h)
      ensures result.Err? <==> id !in old(pendingRequests) || h.throws
    {
      if id !in pendingRequests { return Err("TypeError"); }
      log := log.(delivered := log.delivered + [Delivery(id, pendingRequests[id], !h.throws)]);
      RunHandler(h);
      if h.throws { return Err("handler"); }
      pendingRequests := pendingRequests - {id};
      return Ok(());
    }

    /** socket.onclose, for the connection k */
    method OnClose(k: nat, h: Handler)
      requires Connected(View()) && Enabled(View(), Closes(k, h))
      modifies this
      ensures View() == OnClosed(old(View()), k, h)
    {
      sockets := sockets[k := sockets[k].(ready := Gone)];
      if state == Open {
        state := Closed;
        NotifyStateListeners();
        RunHandler(h);
      }
      socket := None;
      StartInterval();
    }
  }
}
