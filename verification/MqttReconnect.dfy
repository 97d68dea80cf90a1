/**
 * Connection state machine of the Meshtastic MQTT manager: API calls, events of the mqtt.js
 * clients it created, and its timers.  The pure functions give the meaning of each entry point;
 * class `MqttManager` carries the fields and is proved against them.
 *
 * Environment: a client delivers at most one `close` and nothing after it, and a timer that was
 * cleared never fires (`Enabled`).  Everything else about the order of events is arbitrary.
 */
module MqttReconnect {
  import opened Common
  import opened Text

  const DEFAULT_RECONNECT_ATTEMPTS: nat := 5
  const MAX_RECONNECT_ATTEMPTS: nat := 12

  datatype Status = Disconnected | Connecting | Connected | Error

  datatype Settings = Settings(topicPrefix: string, maxRetries: Option<int>, useWebSocket: bool)
  {
    function MaxRetries(): (n: nat)
      ensures 1 <= n <= MAX_RECONNECT_ATTEMPTS
    {
      Max(1, Min(if maxRetries.Some? then maxRetries.value else DEFAULT_RECONNECT_ATTEMPTS, MAX_RECONNECT_ATTEMPTS))
    }
  }

  /**
   * One mqtt.js client: the settings its handlers captured, whether it was force-ended, whether it
   * delivered `close`, and the callbacks it still owes, by topic: of subscribes, and of unsubscribes that
   * will subscribe the topic next.
   */
  datatype Client = Client(settings: Settings, ended: bool, closed: bool, subscribes: seq<string>, unsubscribes: seq<string>)

  /** `client` and `ackTimer` hold indices into `clients`, which lists every client ever created. */
  datatype State = State(
    client: Option<nat>, status: Status, retryCount: nat, reconnectTimer: bool, settings: Option<Settings>,
    preferFast: bool, ackTimer: Option<nat>, topic: Option<string>, pingTimers: bool, clients: seq<Client>)

  datatype ErrorKind = ConnackTimeout | OtherTransient | Fatal

  datatype Outcome = Subscribed | Cascade | Refused

  /** `online` is what `client?.connected` reads at that moment. */
  datatype Event =
    | Connect(settings: Settings)
    | Disconnect
    | Suspend
    | Resume
    | UpdatePrefix(prefix: string, online: bool)
    | ClientError(id: nat, kind: ErrorKind)
    | ClientConnect(id: nat, online: bool)
    | ClientClose(id: nat)
    | ClientOffline(id: nat)
    | SubscribeDone(id: nat, topic: string, outcome: Outcome)
    | UnsubscribeDone(id: nat, topic: string, online: bool)
    | ReconnectFires
    | AckFires

  const INITIAL := State(None, Disconnected, 0, false, None, false, None, None, false, [])

  predicate HasWildcard(prefix: string) { '+' in prefix || '#' in prefix }

  function WildcardTopic(prefix: string): string {
    (if EndsWith(prefix, "/") then prefix else prefix + "/") + "#"
  }

  predicate Live(s: State, id: nat) { id < |s.clients| && !s.clients[id].closed }

  predicate Enabled(s: State, e: Event) {
    match e
    case ClientError(id, _) => Live(s, id)
    case ClientConnect(id, _) => Live(s, id)
    case ClientClose(id) => Live(s, id)
    case ClientOffline(id) => Live(s, id)
    case SubscribeDone(id, topic, _) => Live(s, id) && topic in s.clients[id].subscribes
    case UnsubscribeDone(id, topic, _) => Live(s, id) && topic in s.clients[id].unsubscribes
    case ReconnectFires => s.reconnectTimer
    case AckFires => s.ackTimer.Some?
    case _ => true
  }

  // ---------------------------------------------------------------- meaning of the entry points

  function Update(s: State, id: nat, c: Client): State {
    if id < |s.clients| then s.(clients := s.clients[id := c]) else s
  }

  function DropClient(s: State): State {
    if s.client.Some? && s.client.value < |s.clients|
    then Update(s, s.client.value, s.clients[s.client.value].(ended := true)).(client := None)
    else s.(client := None)
  }

  function DoConnect(s: State, settings: Settings): State {
    var d := DropClient(s.(ackTimer := None, status := Connecting));
    d.(client := Some(|d.clients|), ackTimer := Some(|d.clients|),
       clients := d.clients + [Client(settings, false, false, [], [])])
  }

  function OnDisconnect(s: State): State {
    DropClient(s.(preferFast := false, ackTimer := None, reconnectTimer := false, pingTimers := false,
                  topic := None, settings := None, retryCount := 0)).(status := Disconnected)
  }

  function OnConnect(s: State, settings: Settings): State {
    if HasWildcard(settings.topicPrefix) then s
    else DoConnect(OnDisconnect(s).(settings := Some(settings)), settings)
  }

  function OnSuspend(s: State): State { s.(reconnectTimer := false, pingTimers := false) }

  function OnResume(s: State): State {
    if s.settings.None? then s
    else DoConnect(DropClient(s.(preferFast := true, retryCount := 0, ackTimer := None, pingTimers := false,
                                 reconnectTimer := false, status := Disconnected)), s.settings.value)
  }

  function DoSubscribe(s: State, topic: string, online: bool): State {
    if s.client.Some? && s.client.value < |s.clients| && online
    then var c := s.clients[s.client.value]; Update(s, s.client.value, c.(subscribes := c.subscribes + [topic]))
    else s
  }

  function SubscribeWildcard(s: State, topic: string, online: bool): State {
    if !(s.client.Some? && s.client.value < |s.clients| && online) || s.topic == Some(topic) then s
    else if s.topic.Some? then
      var c := s.clients[s.client.value];
      Update(s, s.client.value, c.(unsubscribes := c.unsubscribes + [topic])).(topic := Some(topic))
    else DoSubscribe(s.(topic := Some(topic)), topic, online)
  }

  function OnUpdatePrefix(s: State, prefix: string, online: bool): State {
    if s.settings.None? || HasWildcard(prefix) || Trim(prefix) == "" then s
    else
      var next := WildcardTopic(Trim(prefix));
      if WildcardTopic(s.settings.value.topicPrefix) == next && s.topic == Some(next) then s
      else SubscribeWildcard(s.(settings := Some(s.settings.value.(topicPrefix := Trim(prefix)))), next, online)
  }

  function OnClientError(s: State, id: nat, kind: ErrorKind): State {
    if s.client != Some(id) then s
    else match kind
      case ConnackTimeout => s.(preferFast := true)
      case OtherTransient => s
      case Fatal => s.(status := Error)
  }

  function OnClientConnect(s: State, id: nat, online: bool): State
    requires id < |s.clients|
  {
    if s.client != Some(id) then s
    else
      var c := s.(ackTimer := None, status := Connected);
      if !online then c
      else
        var captured := s.clients[id].settings;
        var t := SubscribeWildcard(c, WildcardTopic(captured.topicPrefix), online);
        if captured.useWebSocket then t.(pingTimers := true) else t
  }

  predicate SchedulesRetry(s: State, id: nat) {
    && s.client == Some(id)
    && s.status in {Connecting, Connected}
    && s.settings.Some?
    && s.retryCount < s.settings.value.MaxRetries()
  }

  function OnClientClose(s: State, id: nat): State
    requires id < |s.clients|
  {
    var s := Update(s, id, s.clients[id].(closed := true));
    if s.client != Some(id) then s
    else
      var c := s.(ackTimer := None, pingTimers := false, reconnectTimer := false);
      if s.status == Disconnected || s.status == Error || s.settings.None? then c
      else if s.retryCount >= s.settings.value.MaxRetries() then c.(status := Error)
      else c.(retryCount := s.retryCount + 1, preferFast := false, status := Disconnected, reconnectTimer := true)
  }

  function OnClientOffline(s: State, id: nat): State {
    if s.client != Some(id) || s.status == Disconnected || s.status == Error then s
    else s.(status := Connecting)
  }

  /** The subscribe callback: the source does not check which client it belongs to. */
  function OnSubscribeDone(s: State, id: nat, topic: string, outcome: Outcome): State
    requires id < |s.clients|
  {
    var s := Update(s, id, s.clients[id].(subscribes := RemoveOne(s.clients[id].subscribes, topic)));
    match outcome
    case Subscribed => s.(retryCount := 0)
    case Cascade => s
    case Refused => s.(status := Error)
  }

  /** The unsubscribe callback does not check it either: it subscribes on whatever client is current. */
  function OnUnsubscribeDone(s: State, id: nat, topic: string, online: bool): State
    requires id < |s.clients|
  {
    var c := s.clients[id];
    DoSubscribe(Update(s, id, c.(unsubscribes := RemoveOne(c.unsubscribes, topic))), topic, online)
  }

  function OnReconnectFires(s: State): State {
    var t := s.(reconnectTimer := false);
    if s.settings.Some? then DoConnect(t, s.settings.value) else t
  }

  function OnAckFires(s: State): State
    requires s.ackTimer.Some?
  {
    var t := s.(ackTimer := None);
    if s.client != s.ackTimer || s.status != Connecting || s.client.value >= |s.clients| then t
    else Update(t.(preferFast := true), s.client.value, s.clients[s.client.value].(ended := true))
  }

  function Step(s: State, e: Event): State
    requires Enabled(s, e)
  {
    match e
    case Connect(settings) => OnConnect(s, settings)
    case Disconnect => OnDisconnect(s)
    case Suspend => OnSuspend(s)
    case Resume => OnResume(s)
    case UpdatePrefix(prefix, online) => OnUpdatePrefix(s, prefix, online)
    case ClientError(id, kind) => OnClientError(s, id, kind)
    case ClientConnect(id, online) => OnClientConnect(s, id, online)
    case ClientClose(id) => OnClientClose(s, id)
    case ClientOffline(id) => OnClientOffline(s, id)
    case SubscribeDone(id, topic, outcome) => OnSubscribeDone(s, id, topic, outcome)
    case UnsubscribeDone(id, topic, online) => OnUnsubscribeDone(s, id, topic, online)
    case ReconnectFires => OnReconnectFires(s)
    case AckFires => OnAckFires(s)
  }

  // ---------------------------------------------------------------- runs and their history

  /**
   * What happened since the retry budget was last renewed (connect, disconnect, power resume or a
   * successful subscribe): `scheduled` closes that armed the reconnect timer and `performed`
   * automatic reconnects.  `carried` is 1 when the renewal came while a timer was already armed, and
   * `cancelled` counts the armed timers that a suspend cleared.
   */
  datatype History = History(suspended: bool, scheduled: nat, performed: nat, carried: nat, cancelled: nat)

  const NO_HISTORY := History(false, 0, 0, 0, 0)

  function Record(h: History, s: State, e: Event): History {
    match e
    case Connect(settings) => if HasWildcard(settings.topicPrefix) then h else NO_HISTORY
    case Disconnect => NO_HISTORY
    case Suspend => h.(suspended := true, cancelled := h.cancelled + (if s.reconnectTimer then 1 else 0))
    case Resume => if s.settings.Some? then NO_HISTORY else h.(suspended := false)
    case SubscribeDone(_, _, Subscribed) => History(h.suspended, 0, 0, if s.reconnectTimer then 1 else 0, 0)
    case ClientClose(id) => if SchedulesRetry(s, id) then h.(scheduled := h.scheduled + 1) else h
    case ReconnectFires => if s.settings.Some? then h.(performed := h.performed + 1) else h
    case _ => h
  }

  ghost predicate Legal(s: State, es: seq<Event>)
    decreases |es|
  {
    es == [] || (Enabled(s, es[0]) && Legal(Step(s, es[0]), es[1..]))
  }

  ghost function Run(s: State, es: seq<Event>): State
    requires Legal(s, es)
    decreases |es|
  {
    if es == [] then s else Run(Step(s, es[0]), es[1..])
  }

  ghost function RunHistory(h: History, s: State, es: seq<Event>): History
    requires Legal(s, es)
    decreases |es|
  {
    if es == [] then h else RunHistory(Record(h, s, es[0]), Step(s, es[0]), es[1..])
  }

  ghost predicate Inv(s: State, h: History) {
    && (s.client.Some? ==> s.client.value < |s.clients|)
    && (forall i :: 0 <= i < |s.clients| && s.client != Some(i) ==> s.clients[i].ended)
    && (s.settings.None? ==> s.client.None? && !s.reconnectTimer && s.topic.None? && s.ackTimer.None?)
    && (s.ackTimer.Some? ==> s.ackTimer == s.client && Live(s, s.client.value))
    && (s.reconnectTimer ==> s.client.Some? && !Live(s, s.client.value))
    && (s.settings.Some? ==> NotWedged(s, h))
    && h.scheduled == s.retryCount
    && (s.settings.Some? ==> s.retryCount <= s.settings.value.MaxRetries())
    && h.performed + h.cancelled + (if s.reconnectTimer then 1 else 0) == h.scheduled + h.carried
    && h.carried <= 1
  }

  /** What is still going to happen: the timer is armed or the current client owes its `close`. */
  ghost predicate NotWedged(s: State, h: History) {
    && (s.status in {Connecting, Connected} ==> s.client.Some? && Live(s, s.client.value))
    && (s.status == Disconnected ==>
          (s.reconnectTimer || h.suspended) && !(s.client.Some? && Live(s, s.client.value)))
  }

  /** Starting a client abandons the previous one force-ended and leaves a live current client. */
  lemma DoConnectEnds(s: State, settings: Settings)
    requires s.client.Some? ==> s.client.value < |s.clients|
    requires forall i :: 0 <= i < |s.clients| && s.client != Some(i) ==> s.clients[i].ended
    ensures
      var d := DoConnect(s, settings);
      && d.client == d.ackTimer == Some(|s.clients|) && |d.clients| == |s.clients| + 1
      && d.clients[|s.clients|] == Client(settings, false, false, [], [])
      && (forall i :: 0 <= i < |s.clients| ==> d.clients[i].ended)
      && d.(client := s.client, ackTimer := s.ackTimer, status := s.status, clients := s.clients) == s
  {
  }

  lemma DropClientEnds(s: State)
    requires s.client.Some? ==> s.client.value < |s.clients|
    requires forall i :: 0 <= i < |s.clients| && s.client != Some(i) ==> s.clients[i].ended
    ensures
      var d := DropClient(s);
      && d.client.None? && |d.clients| == |s.clients|
      && (forall i :: 0 <= i < |s.clients| ==> d.clients[i].ended)
      && d.(client := s.client, clients := s.clients) == s
  {
  }

  /** Subscribing only adds owed callbacks to the current client and may change the topic. */
  lemma SubscribeFrame(s: State, topic: string, online: bool)
    ensures
      var d := SubscribeWildcard(s, topic, online);
      && |d.clients| == |s.clients|
      && (forall i :: 0 <= i < |s.clients| ==>
            d.clients[i].ended == s.clients[i].ended && d.clients[i].closed == s.clients[i].closed)
      && d.(topic := s.topic, clients := s.clients) == s
      && (s.client.None? ==> d.topic == s.topic)
  {
  }

  lemma DisconnectEnds(s: State)
    requires s.client.Some? ==> s.client.value < |s.clients|
    requires forall i :: 0 <= i < |s.clients| && s.client != Some(i) ==> s.clients[i].ended
    ensures
      var d := OnDisconnect(s);
      && d.client.None? && d.settings.None? && d.status == Disconnected && |d.clients| == |s.clients|
      && (forall i :: 0 <= i < |s.clients| ==> d.clients[i].ended)
      && !d.reconnectTimer && d.topic.None? && d.ackTimer.None? && d.retryCount == 0
  {
    DropClientEnds(s.(preferFast := false, ackTimer := None, reconnectTimer := false, pingTimers := false,
                      topic := None, settings := None, retryCount := 0));
  }

  lemma InvConnect(s: State, h: History, settings: Settings)
    requires Inv(s, h)
    ensures Inv(OnConnect(s, settings), Record(h, s, Connect(settings)))
  {
    if !HasWildcard(settings.topicPrefix) {
      DisconnectEnds(s);
      DoConnectEnds(OnDisconnect(s).(settings := Some(settings)), settings);
    }
  }

  lemma InvResume(s: State, h: History)
    requires Inv(s, h)
    ensures Inv(OnResume(s), Record(h, s, Resume))
  {
    if s.settings.Some? {
      var t := s.(preferFast := true, retryCount := 0, ackTimer := None, pingTimers := false,
                  reconnectTimer := false, status := Disconnected);
      DropClientEnds(t);
      DoConnectEnds(DropClient(t), s.settings.value);
    }
  }

  lemma InvUpdatePrefix(s: State, h: History, prefix: string, online: bool)
    requires Inv(s, h)
    ensures Inv(OnUpdatePrefix(s, prefix, online), h)
  {
    if s.settings.Some? {
      SubscribeFrame(s.(settings := Some(s.settings.value.(topicPrefix := Trim(prefix)))), WildcardTopic(Trim(prefix)), online);
    }
  }

  lemma InvReconnectFires(s: State, h: History)
    requires Inv(s, h) && s.reconnectTimer
    ensures Inv(OnReconnectFires(s), Record(h, s, ReconnectFires))
  {
    DoConnectEnds(s.(reconnectTimer := false), s.settings.value);
  }

  lemma InvClientConnect(s: State, h: History, id: nat, online: bool)
    requires Inv(s, h) && Live(s, id)
    ensures Inv(OnClientConnect(s, id, online), h)
  {
    SubscribeFrame(s.(ackTimer := None, status := Connected), WildcardTopic(s.clients[id].settings.topicPrefix), online);
  }

  /** A callback of any client leaves every `ended` and `closed` flag alone. */
  lemma CallbackFrame(s: State, id: nat, topic: string, online: bool)
    requires id < |s.clients|
    ensures
      var d := OnUnsubscribeDone(s, id, topic, online);
      && |d.clients| == |s.clients|
      && (forall i :: 0 <= i < |s.clients| ==>
            d.clients[i].ended == s.clients[i].ended && d.clients[i].closed == s.clients[i].closed)
      && d.(clients := s.clients) == s
  {
  }

  lemma InvSubscribeDone(s: State, h: History, id: nat, topic: string, outcome: Outcome)
    requires Inv(s, h) && Enabled(s, SubscribeDone(id, topic, outcome))
    ensures Inv(OnSubscribeDone(s, id, topic, outcome), Record(h, s, SubscribeDone(id, topic, outcome)))
  {
  }

  lemma InvClose(s: State, h: History, id: nat)
    requires Inv(s, h) && Live(s, id)
    ensures Inv(OnClientClose(s, id), Record(h, s, ClientClose(id)))
  {
  }

  lemma InvStep(s: State, h: History, e: Event)
    requires Inv(s, h) && Enabled(s, e)
    ensures Inv(Step(s, e), Record(h, s, e))
  {
    match e
    case Connect(settings) => InvConnect(s, h, settings);
    case Disconnect => DisconnectEnds(s);
    case Resume => InvResume(s, h);
    case UpdatePrefix(prefix, online) => InvUpdatePrefix(s, h, prefix, online);
    case ClientConnect(id, online) => InvClientConnect(s, h, id, online);
    case ClientClose(id) => InvClose(s, h, id);
    case SubscribeDone(id, topic, outcome) => InvSubscribeDone(s, h, id, topic, outcome);
    case UnsubscribeDone(id, topic, online) => CallbackFrame(s, id, topic, online);
    case ReconnectFires => InvReconnectFires(s, h);
    case _ => InvLocal(s, h, e);
  }

  lemma InvLocal(s: State, h: History, e: Event)
    requires Inv(s, h) && Enabled(s, e)
    requires e.Suspend? || e.ClientError? || e.ClientOffline? || e.AckFires?
    ensures Inv(Step(s, e), Record(h, s, e))
  {
  }

  lemma {:induction false} InvRun(s: State, h: History, es: seq<Event>)
    requires Inv(s, h) && Legal(s, es)
    ensures Inv(Run(s, es), RunHistory(h, s, es))
    decreases |es|
  {
    if es != [] {
      InvStep(s, h, es[0]);
      InvRun(Step(s, es[0]), Record(h, s, es[0]), es[1..]);
    }
  }

  // ---------------------------------------------------------------- main results

  ghost predicate Reached(s: State, h: History, es: seq<Event>) {
    Legal(INITIAL, es) && s == Run(INITIAL, es) && h == RunHistory(NO_HISTORY, INITIAL, es)
  }

  lemma ReachedInv(s: State, h: History, es: seq<Event>)
    requires Reached(s, h, es)
    ensures Inv(s, h)
  {
    InvRun(INITIAL, NO_HISTORY, es);
  }

  /**
   * Over every run: while settings are present, the system is awake and the status is not `error`,
   * exactly one thing is still to come, the armed timer or the `close` of the current client.
   */
  lemma NoWedge(s: State, h: History, es: seq<Event>)
    requires Reached(s, h, es)
    requires s.settings.Some? && !h.suspended && s.status != Error
    ensures s.reconnectTimer <==> !(s.client.Some? && Live(s, s.client.value))
  {
    ReachedInv(s, h, es);
  }

  predicate ConnectionEvent(e: Event, id: nat) {
    || (e.ClientError? && e.id == id) || (e.ClientConnect? && e.id == id)
    || (e.ClientClose? && e.id == id) || (e.ClientOffline? && e.id == id)
  }

  /** `s` with the bookkeeping of client `id` taken from `t`. */
  function ExceptClient(s: State, t: State, id: nat): State
    requires id < |s.clients| && id < |t.clients|
  {
    s.(clients := s.clients[id := t.clients[id]])
  }

  /** A client that is no longer current was force-ended, and its connection events change no field. */
  lemma StaleClientInert(s: State, h: History, es: seq<Event>, id: nat, e: Event)
    requires Reached(s, h, es)
    requires id < |s.clients| && s.client != Some(id) && ConnectionEvent(e, id) && Enabled(s, e)
    ensures s.clients[id].ended
    ensures Step(s, e) == ExceptClient(s, Step(s, e), id)
  {
    ReachedInv(s, h, es);
    assert s == s.(clients := s.clients[id := s.clients[id]]);
  }

  /**
   * The two callbacks have no identity check.  A subscribe callback owed by a stale client is inert
   * exactly when it reports the connection loss, or would set what is already set.
   */
  lemma StaleSubscribeInertIff(s: State, h: History, es: seq<Event>, id: nat, topic: string, outcome: Outcome)
    requires Reached(s, h, es)
    requires s.client != Some(id) && Enabled(s, SubscribeDone(id, topic, outcome))
    ensures
      var t := Step(s, SubscribeDone(id, topic, outcome));
      t == ExceptClient(s, t, id) <==>
        || outcome == Cascade
        || (outcome == Subscribed && s.retryCount == 0)
        || (outcome == Refused && s.status == Error)
  {
    var t := Step(s, SubscribeDone(id, topic, outcome));
    assert ExceptClient(s, t, id).retryCount == s.retryCount && ExceptClient(s, t, id).status == s.status;
  }

  /** An unsubscribe callback owed by a stale client is inert exactly when no connected client is current. */
  lemma StaleUnsubscribeInertIff(s: State, h: History, es: seq<Event>, id: nat, topic: string, online: bool)
    requires Reached(s, h, es)
    requires s.client != Some(id) && Enabled(s, UnsubscribeDone(id, topic, online))
    ensures
      var t := Step(s, UnsubscribeDone(id, topic, online));
      t == ExceptClient(s, t, id) <==> s.client.None? || !online
  {
    ReachedInv(s, h, es);
    var t := Step(s, UnsubscribeDone(id, topic, online));
    if s.client.Some? && online {
      var c := s.client.value;
      assert |t.clients[c].subscribes| == |s.clients[c].subscribes| + 1;
      assert ExceptClient(s, t, id).clients[c] == s.clients[c];
    }
  }

  /** The step from `s` to `t` sent a subscribe for the topic on the client current throughout. */
  predicate Subscribes(s: State, t: State, topic: string) {
    && s.client.Some? && t.client == s.client && s.client.value < |s.clients| && s.client.value < |t.clients|
    && t.clients[s.client.value].subscribes == s.clients[s.client.value].subscribes + [topic]
  }

  /**
   * An unsubscribe callback of any client subscribes the topic of the moment it was issued: it sends an
   * outdated one exactly when a client is connected and the remembered topic has changed since.
   */
  lemma OutdatedSubscribeIff(s: State, h: History, es: seq<Event>, id: nat, topic: string, online: bool)
    requires Reached(s, h, es) && Enabled(s, UnsubscribeDone(id, topic, online))
    ensures
      var t := Step(s, UnsubscribeDone(id, topic, online));
      && t.topic == s.topic
      && (Subscribes(s, t, topic) && t.topic != Some(topic) <==> s.client.Some? && online && s.topic != Some(topic))
  {
    ReachedInv(s, h, es);
    var t := Step(s, UnsubscribeDone(id, topic, online));
    if s.client.Some? {
      var before, after := s.clients[s.client.value].subscribes, t.clients[s.client.value].subscribes;
      assert after == if online then before + [topic] else before;
      assert |before + [topic]| == |before| + 1;
    }
  }

  /** After `disconnect()` nothing but `connect()` creates a client, arms a timer or restores settings. */
  lemma {:induction false} DisconnectIsFinal(s: State, h: History, es: seq<Event>)
    requires Inv(s, h) && s.settings.None? && Legal(s, es)
    requires forall e <- es :: !e.Connect?
    ensures
      var t := Run(s, es);
      t.settings.None? && t.client.None? && !t.reconnectTimer && t.ackTimer.None? && |t.clients| == |s.clients|
    decreases |es|
  {
    if es != [] {
      InvStep(s, h, es[0]);
      var t := Step(s, es[0]);
      assert es[0] in es;
      assert t.settings.None? && |t.clients| == |s.clients|;
      DisconnectIsFinal(t, Record(h, s, es[0]), es[1..]);
    }
  }

  lemma DisconnectClears(s: State, h: History)
    requires Inv(s, h)
    ensures
      var t := OnDisconnect(s);
      t.settings.None? && t.client.None? && t.status == Disconnected && Inv(t, NO_HISTORY)
  {
    DisconnectEnds(s);
  }

  /** No successful subscribe callback arrives from a client that was already abandoned. */
  ghost predicate SubscribesFlushed(s: State, es: seq<Event>)
    requires Legal(s, es)
    decreases |es|
  {
    es == [] || (
      && (es[0].SubscribeDone? && es[0].outcome == Subscribed ==> s.client == Some(es[0].id))
      && SubscribesFlushed(Step(s, es[0]), es[1..]))
  }

  lemma {:induction false} CarriedStaysZero(s: State, h: History, es: seq<Event>)
    requires Inv(s, h) && h.carried == 0 && Legal(s, es) && SubscribesFlushed(s, es)
    ensures RunHistory(h, s, es).carried == 0
    decreases |es|
  {
    if es != [] {
      InvStep(s, h, es[0]);
      CarriedStaysZero(Step(s, es[0]), Record(h, s, es[0]), es[1..]);
    }
  }

  /**
   * Retry budget over every run: the reconnects scheduled since the last renewal are counted exactly
   * by `retryCount` and stay within the clamped maximum.  Those performed exceed it by at most one, and
   * do so exactly when the renewal found a timer armed, all retries since were used, and none of the
   * timers is still armed or was cleared by a suspend.
   */
  lemma RetryBudget(s: State, h: History, es: seq<Event>)
    requires Reached(s, h, es) && s.settings.Some?
    ensures h.scheduled == s.retryCount <= s.settings.value.MaxRetries()
    ensures h.performed <= s.settings.value.MaxRetries() + 1
    ensures h.performed > s.settings.value.MaxRetries() <==>
      h.carried == 1 && s.retryCount == s.settings.value.MaxRetries() && !s.reconnectTimer && h.cancelled == 0
    ensures SubscribesFlushed(INITIAL, es) ==> h.carried == 0
  {
    ReachedInv(s, h, es);
    if SubscribesFlushed(INITIAL, es) { CarriedStaysZero(INITIAL, NO_HISTORY, es); }
  }

  lemma {:induction false} RunAppend(s: State, h: History, es: seq<Event>, fs: seq<Event>)
    requires Legal(s, es) && Legal(Run(s, es), fs)
    ensures Legal(s, es + fs) && Run(s, es + fs) == Run(Run(s, es), fs)
    ensures RunHistory(h, s, es + fs) == RunHistory(RunHistory(h, s, es), Run(s, es), fs)
    decreases |es|
  {
    if es == [] {
      assert es + fs == fs;
    } else {
      assert (es + fs)[1..] == es[1..] + fs;
      RunAppend(Step(s, es[0]), Record(h, s, es[0]), es[1..], fs);
    }
  }

  lemma RunUnfold(s: State, h: History, es: seq<Event>)
    requires es != [] && Enabled(s, es[0]) && Legal(Step(s, es[0]), es[1..])
    ensures Legal(s, es)
    ensures Run(s, es) == Run(Step(s, es[0]), es[1..])
    ensures RunHistory(h, s, es) == RunHistory(Record(h, s, es[0]), Step(s, es[0]), es[1..])
  {
  }

  lemma ReachedStep(s: State, h: History, es: seq<Event>, e: Event)
    requires Reached(s, h, es) && Enabled(s, e)
    ensures Reached(Step(s, e), Record(h, s, e), es + [e])
  {
    assert [e][1..] == [];
    RunUnfold(s, h, [e]);
    RunAppend(INITIAL, NO_HISTORY, es, [e]);
  }

  // ---------------------------------------------------------------- two runs, state by state

  const ONE_RETRY := Settings("msh", Some(1), false)
  const CLIENT := Client(ONE_RETRY, false, false, [], [])
  const SUBSCRIBER := CLIENT.(subscribes := ["msh/#"])

  const OPENED := State(Some(0), Connecting, 0, false, Some(ONE_RETRY), false, Some(0), None, false, [CLIENT])

  const ONLINE := State(Some(0), Connected, 0, false, Some(ONE_RETRY), false, None, Some("msh/#"), false, [SUBSCRIBER])

  const REOPENED := State(Some(1), Connecting, 0, false, Some(ONE_RETRY), false, Some(1), None, false,
                          [SUBSCRIBER.(ended := true), CLIENT])

  /** A session dropped while the subscribe of an abandoned client is still unanswered. */
  const DROPPED := State(Some(1), Disconnected, 1, true, Some(ONE_RETRY), false, None, None, false,
                         [SUBSCRIBER.(ended := true), CLIENT.(closed := true)])

  const RENEWED := DROPPED.(retryCount := 0, clients := [CLIENT.(ended := true), CLIENT.(closed := true)])

  const RETRYING := State(Some(2), Connecting, 0, false, Some(ONE_RETRY), false, Some(2), None, false,
                          [CLIENT.(ended := true), CLIENT.(ended := true, closed := true), CLIENT])

  const REDROPPED := State(Some(2), Disconnected, 1, true, Some(ONE_RETRY), false, None, None, false,
                           [CLIENT.(ended := true), CLIENT.(ended := true, closed := true), CLIENT.(closed := true)])

  lemma PlainTopic()
    ensures WildcardTopic("msh") == "msh/#"
  {
    assert "msh"[2..][0] == 'h';
    assert "msh" + "/" + "#" == "msh/#";
  }

  lemma StepOpened()
    ensures Step(INITIAL, Connect(ONE_RETRY)) == OPENED
  {
  }

  lemma StepOnline()
    ensures Step(OPENED, ClientConnect(0, true)) == ONLINE
  {
    PlainTopic();
    assert CLIENT.subscribes + ["msh/#"] == ["msh/#"];
    assert OPENED.clients[0 := SUBSCRIBER] == [SUBSCRIBER];
  }

  lemma StepReopened()
    ensures Step(ONLINE, Connect(ONE_RETRY)) == REOPENED
  {
    assert ONLINE.clients[0 := SUBSCRIBER.(ended := true)] + [CLIENT] == REOPENED.clients;
  }

  lemma StepDropped()
    ensures Step(REOPENED, ClientClose(1)) == DROPPED
  {
    assert REOPENED.clients[1 := CLIENT.(closed := true)] == DROPPED.clients;
  }

  lemma StepRenewed()
    ensures Enabled(DROPPED, SubscribeDone(0, "msh/#", Subscribed))
    ensures Step(DROPPED, SubscribeDone(0, "msh/#", Subscribed)) == RENEWED
  {
    assert DROPPED.clients[0].subscribes[0] == "msh/#";
    assert RemoveOne(["msh/#"], "msh/#") == [];
    assert DROPPED.clients[0 := CLIENT.(ended := true)] == RENEWED.clients;
  }

  lemma StepRetrying()
    ensures Step(RENEWED, ReconnectFires) == RETRYING
  {
    assert RENEWED.clients[1 := CLIENT.(ended := true, closed := true)] + [CLIENT] == RETRYING.clients;
  }

  lemma StepRedropped()
    ensures Step(RETRYING, ClientClose(2)) == REDROPPED
  {
    assert RETRYING.clients[2 := CLIENT.(closed := true)] == REDROPPED.clients;
  }

  lemma ReachOnline() returns (es: seq<Event>)
    ensures Reached(ONLINE, NO_HISTORY, es)
  {
    es := [Connect(ONE_RETRY), ClientConnect(0, true)];
    StepOpened();
    ReachedStep(INITIAL, NO_HISTORY, [], Connect(ONE_RETRY));
    StepOnline();
    ReachedStep(OPENED, NO_HISTORY, [] + [Connect(ONE_RETRY)], ClientConnect(0, true));
    assert es == [] + [Connect(ONE_RETRY)] + [ClientConnect(0, true)];
  }

  /** With one retry scheduled, and the stale callback still to come. */
  lemma ReachDropped() returns (es: seq<Event>)
    ensures Reached(DROPPED, NO_HISTORY.(scheduled := 1), es)
  {
    es := ReachOnline();
    StepReopened();
    ReachedStep(ONLINE, NO_HISTORY, es, Connect(ONE_RETRY));
    es := es + [Connect(ONE_RETRY)];
    StepDropped();
    ReachedStep(REOPENED, NO_HISTORY, es, ClientClose(1));
    es := es + [ClientClose(1)];
  }

  /** The extra reconnect does happen: with one retry allowed, a stale callback lets a second through. */
  lemma BudgetOverrunWitness() returns (s: State, h: History, es: seq<Event>)
    ensures Reached(s, h, es) && s.settings.Some? && h.performed == s.settings.value.MaxRetries() + 1
  {
    es := ReachDropped();
    StepRenewed();
    ReachedStep(DROPPED, NO_HISTORY.(scheduled := 1), es, SubscribeDone(0, "msh/#", Subscribed));
    es := es + [SubscribeDone(0, "msh/#", Subscribed)];
    h := NO_HISTORY.(carried := 1);
    StepRetrying();
    ReachedStep(RENEWED, h, es, ReconnectFires);
    es := es + [ReconnectFires];
    h := h.(performed := 1);
    StepRedropped();
    ReachedStep(RETRYING, h, es, ClientClose(2));
    es := es + [ClientClose(2)];
    h := h.(scheduled := 1);
    ReachedStep(REDROPPED, h, es, ReconnectFires);
    es := es + [ReconnectFires];
    s, h := Step(REDROPPED, ReconnectFires), h.(performed := 2);
  }

  const MOVING := ONLINE.(settings := Some(ONE_RETRY.(topicPrefix := "a")), topic := Some("a/#"),
                          clients := [SUBSCRIBER.(unsubscribes := ["a/#"])])

  /** Two prefix changes in a row: both unsubscribes are unanswered, and the second topic is remembered. */
  const MOVED := ONLINE.(settings := Some(ONE_RETRY.(topicPrefix := "b")), topic := Some("b/#"),
                         clients := [SUBSCRIBER.(unsubscribes := ["a/#", "b/#"])])

  lemma PrefixTexts()
    ensures Trim("a") == "a" && Trim("b") == "b" && WildcardTopic("a") == "a/#" && WildcardTopic("b") == "b/#"
  {
    assert TrimStart("a") == "a" && TrimEnd("a") == "a" && TrimStart("b") == "b" && TrimEnd("b") == "b";
    assert "a"[0..][0] == 'a' && "b"[0..][0] == 'b';
    assert "a" + "/" + "#" == "a/#" && "b" + "/" + "#" == "b/#";
  }

  lemma StepMoving()
    ensures Step(ONLINE, UpdatePrefix("a", true)) == MOVING
  {
    PlainTopic();
    PrefixTexts();
    assert SUBSCRIBER.unsubscribes + ["a/#"] == ["a/#"];
    assert ONLINE.clients[0 := SUBSCRIBER.(unsubscribes := ["a/#"])] == MOVING.clients;
  }

  lemma StepMoved()
    ensures Step(MOVING, UpdatePrefix("b", true)) == MOVED
  {
    PrefixTexts();
    assert ["a/#"] + ["b/#"] == ["a/#", "b/#"];
    assert MOVING.clients[0 := SUBSCRIBER.(unsubscribes := ["a/#", "b/#"])] == MOVED.clients;
  }

  const OUTDATED := MOVED.(clients := [SUBSCRIBER.(subscribes := ["msh/#", "a/#"], unsubscribes := ["b/#"])])

  lemma StepOutdated()
    ensures Enabled(MOVED, UnsubscribeDone(0, "a/#", true)) && Step(MOVED, UnsubscribeDone(0, "a/#", true)) == OUTDATED
  {
    var c := MOVED.clients[0];
    assert c.unsubscribes[0] == "a/#";
    assert RemoveOne(c.unsubscribes, "a/#") == ["b/#"];
    assert ["msh/#"] + ["a/#"] == ["msh/#", "a/#"];
    var once := c.(unsubscribes := ["b/#"]);
    assert MOVED.clients[0 := once] == [once];
    assert [once][0 := OUTDATED.clients[0]] == OUTDATED.clients;
  }

  lemma ReachMoved() returns (es: seq<Event>)
    ensures Reached(MOVED, NO_HISTORY, es)
  {
    es := ReachOnline();
    StepMoving();
    ReachedStep(ONLINE, NO_HISTORY, es, UpdatePrefix("a", true));
    es := es + [UpdatePrefix("a", true)];
    StepMoved();
    ReachedStep(MOVING, NO_HISTORY, es, UpdatePrefix("b", true));
    es := es + [UpdatePrefix("b", true)];
  }

  /** An outdated subscribe does happen: the client is told to subscribe `a/#` while `b/#` is remembered. */
  lemma OutdatedSubscribeWitness() returns (s: State, h: History, es: seq<Event>)
    ensures Reached(s, h, es) && s.client == Some(0) && |s.clients| == 1
    ensures s.clients[0].subscribes == ["msh/#", "a/#"] && s.topic == Some("b/#")
  {
    es := ReachMoved();
    StepOutdated();
    ReachedStep(MOVED, NO_HISTORY, es, UnsubscribeDone(0, "a/#", true));
    s, h, es := OUTDATED, NO_HISTORY, es + [UnsubscribeDone(0, "a/#", true)];
  }

  /** A close of the current client at the bound rests in `error`: no timer, no live client, settings kept. */
  lemma CloseAtBoundRests(s: State, h: History, es: seq<Event>, id: nat)
    requires Reached(s, h, es) && Live(s, id) && s.client == Some(id)
    requires s.settings.Some? && s.status != Error
    ensures
      var t := Step(s, ClientClose(id));
      && (s.retryCount == s.settings.value.MaxRetries() <==> t.status == Error)
      && (t.status == Error <==> !t.reconnectTimer)
      && !Live(t, id) && t.settings == s.settings
  {
    ReachedInv(s, h, es);
  }

  /** The closes in `es` that arm the reconnect timer. */
  ghost function EffectiveCloses(s: State, es: seq<Event>): nat
    requires Legal(s, es)
    decreases |es|
  {
    if es == [] then 0
    else
      (if es[0].ClientClose? && SchedulesRetry(s, es[0].id) then 1 else 0) + EffectiveCloses(Step(s, es[0]), es[1..])
  }

  /** Clients created so far plus the one the armed timer stands for. */
  function Routes(s: State): nat { |s.clients| + (if s.reconnectTimer then 1 else 0) }

  lemma RoutesStep(s: State, h: History, e: Event)
    requires Inv(s, h) && Enabled(s, e) && !e.Connect? && !e.Resume?
    ensures Routes(Step(s, e)) <= Routes(s) + (if e.ClientClose? && SchedulesRetry(s, e.id) then 1 else 0)
  {
    match e
    case Disconnect => DisconnectEnds(s);
    case UpdatePrefix(prefix, online) => RoutesUpdatePrefix(s, prefix, online);
    case ClientConnect(id, online) => RoutesConnect(s, id, online);
    case UnsubscribeDone(id, topic, online) => RoutesCallback(s, id, topic, online);
    case ReconnectFires => RoutesReconnect(s, h);
    case ClientClose(id) => RoutesClose(s, id);
    case _ => RoutesLocal(s, e);
  }

  lemma RoutesConnect(s: State, id: nat, online: bool)
    requires id < |s.clients|
    ensures Routes(OnClientConnect(s, id, online)) == Routes(s)
  {
    SubscribeFrame(s.(ackTimer := None, status := Connected), WildcardTopic(s.clients[id].settings.topicPrefix), online);
  }

  lemma RoutesCallback(s: State, id: nat, topic: string, online: bool)
    requires id < |s.clients|
    ensures Routes(OnUnsubscribeDone(s, id, topic, online)) == Routes(s)
  {
    CallbackFrame(s, id, topic, online);
  }

  lemma RoutesReconnect(s: State, h: History)
    requires Inv(s, h) && s.reconnectTimer
    ensures Routes(OnReconnectFires(s)) == Routes(s)
  {
    DoConnectEnds(s.(reconnectTimer := false), s.settings.value);
  }

  lemma RoutesClose(s: State, id: nat)
    requires id < |s.clients|
    ensures Routes(OnClientClose(s, id)) <= Routes(s) + (if SchedulesRetry(s, id) then 1 else 0)
  {
  }

  lemma RoutesUpdatePrefix(s: State, prefix: string, online: bool)
    ensures Routes(OnUpdatePrefix(s, prefix, online)) == Routes(s)
  {
    if s.settings.Some? {
      SubscribeFrame(s.(settings := Some(s.settings.value.(topicPrefix := Trim(prefix)))), WildcardTopic(Trim(prefix)), online);
    }
  }

  lemma RoutesLocal(s: State, e: Event)
    requires Enabled(s, e)
    requires e.Suspend? || e.ClientError? || e.ClientOffline? || e.AckFires? || e.SubscribeDone?
    ensures Routes(Step(s, e)) <= Routes(s)
  {
  }

  /** Without connect or resume calls each close leads to at most one new client, whatever the order of events. */
  lemma {:induction false} OneSuccessorPerClose(s: State, h: History, es: seq<Event>)
    requires Inv(s, h) && Legal(s, es)
    requires forall e <- es :: !e.Connect? && !e.Resume?
    ensures
      Routes(Run(s, es)) <= Routes(s) + EffectiveCloses(s, es)
    decreases |es|
  {
    if es != [] {
      InvStep(s, h, es[0]);
      RoutesStep(s, h, es[0]);
      OneSuccessorPerClose(Step(s, es[0]), Record(h, s, es[0]), es[1..]);
    }
  }

  /**
   * The wildcard topic is remembered across automatic reconnects, so the CONNACK of a reconnected
   * client issues a subscribe exactly when nothing had been subscribed before, and issues nothing
   * at all exactly when the remembered topic is the one of the current prefix.
   */
  lemma ReconnectSubscribesIff(s: State, h: History, es: seq<Event>)
    requires Reached(s, h, es) && s.reconnectTimer
    ensures Live(Step(s, ReconnectFires), |s.clients|)
    ensures
      var id := |s.clients|;
      var t := Step(s, ReconnectFires);
      var u := Step(t, ClientConnect(id, true));
      && t.client == Some(id) && u.status == Connected
      && (u.clients[id].subscribes == [WildcardTopic(s.settings.value.topicPrefix)] <==> s.topic.None?)
      && (u.clients[id].subscribes == [] && u.clients[id].unsubscribes == [] <==>
            s.topic == Some(WildcardTopic(s.settings.value.topicPrefix)))
  {
    ReachedInv(s, h, es);
    DoConnectEnds(s.(reconnectTimer := false), s.settings.value);
  }

  // ---------------------------------------------------------------- what each event leads to

  /** The step from `s` to `t` started one client with these settings, and it waits for its CONNACK. */
  predicate Starts(s: State, t: State, settings: Settings) {
    && |t.clients| == |s.clients| + 1
    && t.clients[|s.clients|] == Client(settings, false, false, [], [])
    && t.client == t.ackTimer == Some(|s.clients|)
    && t.status == Connecting && !t.reconnectTimer
    && t.settings == Some(settings)
    && forall i :: 0 <= i < |s.clients| ==> t.clients[i].ended
  }

  /** `connect` starts a fresh session with the settings it is given, unless their prefix has a wildcard. */
  lemma ConnectStarts(s: State, h: History, es: seq<Event>, settings: Settings)
    requires Reached(s, h, es)
    ensures
      var t := Step(s, Connect(settings));
      if '+' in settings.topicPrefix || '#' in settings.topicPrefix then t == s
      else Starts(s, t, settings) && t.retryCount == 0 && !t.preferFast && t.topic.None? && !t.pingTimers
  {
    ReachedInv(s, h, es);
    DisconnectEnds(s);
    DoConnectEnds(OnDisconnect(s).(settings := Some(settings)), settings);
  }

  /** The armed timer starts a client with the settings of that moment and keeps the count of retries. */
  lemma TimerReconnects(s: State, h: History, es: seq<Event>)
    requires Reached(s, h, es) && s.reconnectTimer
    ensures
      var t := Step(s, ReconnectFires);
      && s.settings.Some? && Starts(s, t, s.settings.value)
      && t.retryCount == s.retryCount && t.topic == s.topic && t.preferFast == s.preferFast
  {
    ReachedInv(s, h, es);
    DoConnectEnds(s.(reconnectTimer := false), s.settings.value);
  }

  /** After a suspend no timer is left, and a resume starts over with a full budget and a fast first retry. */
  lemma ResumeRestarts(s: State, h: History, es: seq<Event>)
    requires Reached(s, h, es)
    ensures Step(s, Suspend) == s.(reconnectTimer := false, pingTimers := false)
    ensures
      var t := Step(s, Resume);
      if s.settings.None? then t == s
      else Starts(s, t, s.settings.value) && t.retryCount == 0 && t.preferFast && t.topic == s.topic && !t.pingTimers
  {
    ReachedInv(s, h, es);
    if s.settings.Some? {
      var t := s.(preferFast := true, retryCount := 0, ackTimer := None, pingTimers := false,
                  reconnectTimer := false, status := Disconnected);
      DropClientEnds(t);
      DoConnectEnds(DropClient(t), s.settings.value);
    }
  }

  /** The retries allowed: as configured between 1 and 12, and 5 if nothing is. */
  lemma RetryLimit(settings: Settings)
    ensures settings.maxRetries.None? ==> settings.MaxRetries() == 5
    ensures settings.maxRetries.Some? ==>
      var v, n := settings.maxRetries.value, settings.MaxRetries();
      if v < 1 then n == 1 else if v > 12 then n == 12 else n == v
  {
  }

  /** The CONNACK of a first session: connected, and the one topic of its prefix is subscribed. */
  lemma FirstConnackSubscribes(s: State, h: History, es: seq<Event>, settings: Settings, online: bool)
    requires Reached(s, h, es) && '+' !in settings.topicPrefix && '#' !in settings.topicPrefix
    ensures Enabled(Step(s, Connect(settings)), ClientConnect(|s.clients|, online))
    ensures
      var topic := WildcardTopic(settings.topicPrefix);
      var t := Step(Step(s, Connect(settings)), ClientConnect(|s.clients|, online));
      && |t.clients| == |s.clients| + 1 && t.client == Some(|s.clients|)
      && t.status == Connected && t.ackTimer.None?
      && t.clients[|s.clients|] == Client(settings, false, false, if online then [topic] else [], [])
      && t.topic == (if online then Some(topic) else None)
      && (t.pingTimers <==> online && settings.useWebSocket)
  {
    ConnectStarts(s, h, es, settings);
  }

  /** A topic is its prefix, one slash and `#`, whether or not the prefix ends in a slash already. */
  lemma TopicOfPrefix(prefix: string)
    ensures WildcardTopic(prefix + "/") == prefix + "/#"
    ensures (prefix == "" || prefix[|prefix| - 1] != '/') ==> WildcardTopic(prefix) == prefix + "/#"
  {
    var slashed := prefix + "/";
    assert slashed[|slashed| - 1..] == "/" && "/#" == "/" + "#";
    assert slashed + "#" == prefix + "/#";
    if prefix != "" && prefix[|prefix| - 1] != '/' {
      assert prefix[|prefix| - 1..] == [prefix[|prefix| - 1]];
    }
  }

  /**
   * A new prefix takes effect: with a connected client the topic of the trimmed prefix is remembered,
   * and unless it was already, it is subscribed at once or after the old one has been given up.
   */
  lemma PrefixTakesEffect(s: State, h: History, es: seq<Event>, prefix: string)
    requires Reached(s, h, es) && s.client.Some?
    requires '+' !in prefix && '#' !in prefix && Trim(prefix) != ""
    ensures
      var t, topic := Step(s, UpdatePrefix(prefix, true)), WildcardTopic(Trim(prefix));
      && t.topic == Some(topic) && s.client.value < |s.clients| == |t.clients| && t.settings.Some?
      && WildcardTopic(t.settings.value.topicPrefix) == topic
      && var was, c := s.clients[s.client.value], t.clients[s.client.value];
        if s.topic == Some(topic) then c == was
        else if s.topic.Some? then c == was.(unsubscribes := was.unsubscribes + [topic])
        else c == was.(subscribes := was.subscribes + [topic])
  {
    ReachedInv(s, h, es);
  }

  /** Without a connected client the prefix is kept for the next one, and nothing is sent. */
  lemma PrefixRemembered(s: State, prefix: string)
    requires s.settings.Some? && '+' !in prefix && '#' !in prefix && Trim(prefix) != ""
    ensures
      var t := Step(s, UpdatePrefix(prefix, false));
      && t.settings.Some? && WildcardTopic(t.settings.value.topicPrefix) == WildcardTopic(Trim(prefix))
      && t.(settings := s.settings) == s
      && t.settings.value.(topicPrefix := s.settings.value.topicPrefix) == s.settings.value
  {
  }

  /** A prefix that is blank, has a wildcard or comes without a session changes nothing. */
  lemma PrefixIgnored(s: State, prefix: string, online: bool)
    requires s.settings.None? || '+' in prefix || '#' in prefix || Trim(prefix) == ""
    ensures Step(s, UpdatePrefix(prefix, online)) == s
  {
  }

  /** What a subscribe callback reports, of whichever client: success renews the budget, a refusal ends retrying. */
  lemma SubscribeReports(s: State, id: nat, topic: string, outcome: Outcome)
    requires Enabled(s, SubscribeDone(id, topic, outcome))
    ensures
      var t := Step(s, SubscribeDone(id, topic, outcome));
      && t.retryCount == (if outcome == Subscribed then 0 else s.retryCount)
      && t.status == (if outcome == Refused then Error else s.status)
      && t == s.(clients := t.clients, retryCount := t.retryCount, status := t.status)
  {
  }

  /** A callback that is owed is delivered once. */
  lemma CallbackDelivered(s: State, id: nat, topic: string, outcome: Outcome)
    requires Enabled(s, SubscribeDone(id, topic, outcome))
    ensures
      var t := Step(s, SubscribeDone(id, topic, outcome));
      && |t.clients| == |s.clients|
      && multiset(s.clients[id].subscribes) == multiset(t.clients[id].subscribes) + multiset{topic}
  {
    RemovesOne(s.clients[id].subscribes, topic);
  }

  /** What can befall the current client between its CONNACK, or its start, and its `close`. */
  predicate Trouble(e: Event, id: nat) {
    || (e.ClientError? && e.id == id) || (e.ClientOffline? && e.id == id) || e.AckFires?
  }

  lemma TroubleStep(s: State, id: nat, e: Event)
    requires Live(s, id) && s.client == Some(id) && Trouble(e, id) && Enabled(s, e)
    ensures
      var t := Step(s, e);
      && Live(t, id) && t.client == Some(id) && t.settings == s.settings && t.retryCount == s.retryCount
      && (s.status == Error ==> t.status == Error)
      && (s.status in {Connecting, Connected} ==>
            if e == ClientError(id, Fatal) then t.status == Error else t.status in {Connecting, Connected})
  {
  }

  lemma {:induction false} TroubleRun(s: State, id: nat, fs: seq<Event>)
    requires Live(s, id) && s.client == Some(id) && Legal(s, fs) && forall e <- fs :: Trouble(e, id)
    requires s.status in {Connecting, Connected, Error}
    ensures
      var t := Run(s, fs);
      && Live(t, id) && t.client == Some(id) && t.settings == s.settings && t.retryCount == s.retryCount
      && t.status in {Connecting, Connected, Error}
      && (t.status == Error <==> s.status == Error || ClientError(id, Fatal) in fs)
    decreases |fs|
  {
    if fs != [] {
      assert fs[0] in fs && fs == [fs[0]] + fs[1..];
      TroubleStep(s, id, fs[0]);
      TroubleRun(Step(s, fs[0]), id, fs[1..]);
    }
  }

  /**
   * Whatever befalls a session before its client closes, network errors, time-outs or going offline, the
   * close arms the reconnect timer; it does not exactly if one of the errors was fatal or the retries
   * are used up, and then the session rests in `error`.
   */
  lemma DropRetriesIff(s: State, h: History, es: seq<Event>, id: nat, fs: seq<Event>)
    requires Reached(s, h, es) && s.client == Some(id) && Live(s, id) && s.status in {Connecting, Connected}
    requires Legal(s, fs) && forall e <- fs :: Trouble(e, id)
    ensures Live(Run(s, fs), id) && s.settings.Some?
    ensures
      var t := Step(Run(s, fs), ClientClose(id));
      var retries := ClientError(id, Fatal) !in fs && s.retryCount < s.settings.value.MaxRetries();
      && t.reconnectTimer == retries
      && t.status == (if retries then Disconnected else Error)
      && t.retryCount == s.retryCount + (if retries then 1 else 0)
      && t.settings == s.settings && !Live(t, id)
  {
    ReachedInv(s, h, es);
    TroubleRun(s, id, fs);
  }

  /** The same after a single error: exactly a fatal one ends retrying, and a CONNACK timeout makes the retry fast. */
  lemma ErrorThenClose(s: State, h: History, es: seq<Event>, id: nat, kind: ErrorKind)
    requires Reached(s, h, es) && s.client == Some(id) && Live(s, id) && s.status in {Connecting, Connected}
    ensures
      var t := Step(s, ClientError(id, kind));
      var u := Step(t, ClientClose(id));
      && s.settings.Some?
      && t.preferFast == (kind == ConnackTimeout || s.preferFast)
      && (u.reconnectTimer <==> kind != Fatal && s.retryCount < s.settings.value.MaxRetries())
      && (u.status == Error <==> !u.reconnectTimer)
      && (u.reconnectTimer ==> u.status == Disconnected && !u.preferFast)
  {
    ReachedInv(s, h, es);
  }

  /** A session that goes offline shows as connecting; one that is over stays over. */
  lemma OfflineShows(s: State, h: History, es: seq<Event>, id: nat)
    requires Reached(s, h, es) && s.client == Some(id) && Live(s, id)
    ensures Step(s, ClientOffline(id)) == s.(status := if s.status == Connected then Connecting else s.status)
  {
    ReachedInv(s, h, es);
  }

  /** A missing CONNACK: the client is force-ended and the next retry is fast; it stays current until it closes. */
  lemma AckTimeoutEnds(s: State, h: History, es: seq<Event>, id: nat)
    requires Reached(s, h, es) && s.ackTimer == Some(id) && s.status == Connecting
    ensures
      var t := Step(s, AckFires);
      && t.client == Some(id) && Live(t, id) && t.clients[id].ended && t.preferFast
      && t.status == Connecting && t.ackTimer.None? && |t.clients| == |s.clients|
  {
    ReachedInv(s, h, es);
  }

  // ---------------------------------------------------------------- the class

  class MqttManager {
    var client: Option<nat>
    var status: Status
    var retryCount: nat
    var reconnectTimer: bool
    var currentSettings: Option<Settings>
    var preferFastMqttReconnect: bool
    var connectAckTimer: Option<nat>
    var subscribedWildcardTopic: Option<string>
    var pingTimers: bool
    /** Every client handed out by mqtt.js so far, in creation order. */
    var clients: seq<Client>

    ghost function View(): State
      reads this
    {
      State(client, status, retryCount, reconnectTimer, currentSettings, preferFastMqttReconnect,
            connectAckTimer, subscribedWildcardTopic, pingTimers, clients)
    }

    ghost predicate Valid()
      reads this
    {
      client.Some? ==> client.value < |clients|
    }

    constructor ()
      ensures View() == INITIAL && Valid()
    {
      client, status, retryCount, reconnectTimer := None, Disconnected, 0, false;
      currentSettings, preferFastMqttReconnect, connectAckTimer := None, false, None;
      subscribedWildcardTopic, pingTimers, clients := None, false, [];
    }

    method ForceEndClient()
      requires Valid()
      modifies this`client, this`clients
      ensures Valid() && View() == DropClient(old(View()))
    {
      if client.Some? {
        clients := clients[client.value := clients[client.value].(ended := true)];
        client := None;
      }
    }

    method DoConnectWith(settings: Settings)
      requires Valid()
      modifies this`connectAckTimer, this`client, this`clients, this`status
      ensures Valid() && View() == DoConnect(old(View()), settings)
    {
      connectAckTimer := None;
      status := Connecting;
      ForceEndClient();
      clients := clients + [Client(settings, false, false, [], [])];
      client := Some(|clients| - 1);
      connectAckTimer := client;
    }

    method DisconnectNow()
      requires Valid()
      modifies this
      ensures Valid() && View() == OnDisconnect(old(View()))
    {
      preferFastMqttReconnect := false;
      connectAckTimer := None;
      reconnectTimer := false;
      pingTimers := false;
      subscribedWildcardTopic := None;
      currentSettings := None;
      retryCount := 0;
      ForceEndClient();
      status := Disconnected;
    }

    /** `rejected` is the exception thrown for a prefix with wildcard characters. */
    method ConnectTo(settings: Settings) returns (rejected: bool)
      requires Valid()
      modifies this
      ensures Valid() && View() == OnConnect(old(View()), settings)
      ensures rejected <==> HasWildcard(settings.topicPrefix)
    {
      rejected := HasWildcard(settings.topicPrefix);
      if rejected { return; }
      DisconnectNow();
      currentSettings := Some(settings);
      retryCount := 0;
      DoConnectWith(settings);
    }

    method HandlePowerSuspend()
      requires Valid()
      modifies this
      ensures Valid() && View() == OnSuspend(old(View()))
    {
      reconnectTimer := false;
      pingTimers := false;
    }

    method HandlePowerResume()
      requires Valid()
      modifies this
      ensures Valid() && View() == OnResume(old(View()))
    {
      if currentSettings.None? { return; }
      preferFastMqttReconnect := true;
      retryCount := 0;
      connectAckTimer := None;
      pingTimers := false;
      reconnectTimer := false;
      if status == Error { status := Disconnected; }
      ForceEndClient();
      if status == Connected || status == Connecting { status := Disconnected; }
      DoConnectWith(currentSettings.value);
    }

    method SubscribeNow(topic: string, online: bool)
      requires Valid()
      modifies this`clients
      ensures Valid() && View() == DoSubscribe(old(View()), topic, online)
    {
      if client.None? || !online { return; }
      var c := clients[client.value];
      clients := clients[client.value := c.(subscribes := c.subscribes + [topic])];
    }

    method SubscribeWildcardTopic(topic: string, online: bool)
      requires Valid()
      modifies this`clients, this`subscribedWildcardTopic
      ensures Valid() && View() == SubscribeWildcard(old(View()), topic, online)
    {
      if client.None? || !online { return; }
      if subscribedWildcardTopic == Some(topic) { return; }
      var previous := subscribedWildcardTopic;
      subscribedWildcardTopic := Some(topic);
      if previous.Some? {
        var c := clients[client.value];
        clients := clients[client.value := c.(unsubscribes := c.unsubscribes + [topic])];
        return;
      }
      SubscribeNow(topic, online);
    }

    method UpdateTopicPrefix(prefix: string, online: bool) returns (rejected: bool)
      requires Valid()
      modifies this
      ensures Valid() && View() == OnUpdatePrefix(old(View()), prefix, online)
      ensures rejected <==> old(currentSettings).Some? && HasWildcard(prefix)
    {
      rejected := currentSettings.Some? && HasWildcard(prefix);
      if currentSettings.None? || rejected { return; }
      var trimmed := Trim(prefix);
      if trimmed == "" { return; }
      var next := WildcardTopic(trimmed);
      if WildcardTopic(currentSettings.value.topicPrefix) == next && subscribedWildcardTopic == Some(next) { return; }
      currentSettings := Some(currentSettings.value.(topicPrefix := trimmed));
      SubscribeWildcardTopic(next, online);
    }

    method HandleError(id: nat, kind: ErrorKind)
      requires Valid() && Enabled(View(), ClientError(id, kind))
      modifies this
      ensures Valid() && View() == OnClientError(old(View()), id, kind)
    {
      if client != Some(id) { return; }
      if kind == ConnackTimeout { preferFastMqttReconnect := true; }
      if kind == Fatal { status := Error; }
    }

    method HandleConnect(id: nat, online: bool)
      requires Valid() && Enabled(View(), ClientConnect(id, online))
      modifies this
      ensures Valid() && View() == OnClientConnect(old(View()), id, online)
    {
      if client != Some(id) { return; }
      connectAckTimer := None;
      status := Connected;
      if !online { return; }
      var settings := clients[id].settings;
      SubscribeWildcardTopic(WildcardTopic(settings.topicPrefix), online);
      if settings.useWebSocket { pingTimers := true; }
    }

    method HandleClose(id: nat)
      requires Valid() && Enabled(View(), ClientClose(id))
      modifies this
      ensures Valid() && View() == OnClientClose(old(View()), id)
    {
      clients := clients[id := clients[id].(closed := true)];
      if client != Some(id) { return; }
      connectAckTimer := None;
      pingTimers := false;
      reconnectTimer := false;
      if status == Disconnected || status == Error || currentSettings.None? { return; }
      var maxRetries := currentSettings.value.MaxRetries();
      if retryCount >= maxRetries {
        status := Error;
        return;
      }
      retryCount := retryCount + 1;
      preferFastMqttReconnect := false;
      status := Disconnected;
      reconnectTimer := true;
    }

    method HandleOffline(id: nat)
      requires Valid() && Enabled(View(), ClientOffline(id))
      modifies this
      ensures Valid() && View() == OnClientOffline(old(View()), id)
    {
      if client != Some(id) { return; }
      if status == Disconnected || status == Error { return; }
      status := Connecting;
    }

    method HandleSubscribeDone(id: nat, topic: string, outcome: Outcome)
      requires Valid() && Enabled(View(), SubscribeDone(id, topic, outcome))
      modifies this
      ensures Valid() && View() == OnSubscribeDone(old(View()), id, topic, outcome)
    {
      clients := clients[id := clients[id].(subscribes := RemoveOne(clients[id].subscribes, topic))];
      match outcome
      case Refused => status := Error;
      case Cascade =>
      case Subscribed => retryCount := 0;
    }

    method HandleUnsubscribeDone(id: nat, topic: string, online: bool)
      requires Valid() && Enabled(View(), UnsubscribeDone(id, topic, online))
      modifies this
      ensures Valid() && View() == OnUnsubscribeDone(old(View()), id, topic, online)
    {
      clients := clients[id := clients[id].(unsubscribes := RemoveOne(clients[id].unsubscribes, topic))];
      SubscribeNow(topic, online);
    }

    method ReconnectTimerFires()
      requires Valid() && Enabled(View(), ReconnectFires)
      modifies this
      ensures Valid() && View() == OnReconnectFires(old(View()))
    {
      reconnectTimer := false;
      if currentSettings.Some? { DoConnectWith(currentSettings.value); }
    }

    method ConnectAckTimerFires()
      requires Valid() && Enabled(View(), AckFires)
      modifies this
      ensures Valid() && View() == OnAckFires(old(View()))
    {
      var owner := connectAckTimer;
      connectAckTimer := None;
      if client != owner { return; }
      if status != Connecting { return; }
      preferFastMqttReconnect := true;
      clients := clients[client.value := clients[client.value].(ended := true)];
    }
  }
}
