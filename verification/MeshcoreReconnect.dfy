/**
 * Connection state machine of the MeshCore MQTT adapter.  Brokers with an expiring token reconnect
 * in two stages: the reconnect timer asks for a new token, then either `updateToken` or a safety
 * timeout starts the client.
 *
 * Environment: a client delivers at most one `close` and nothing after it, and a cleared timer
 * never fires (`Enabled`).
 */
module MeshcoreReconnect {
  import opened Common
  import opened Text

  const DEFAULT_RECONNECT_ATTEMPTS: nat := 5
  const MAX_RECONNECT_ATTEMPTS: nat := 12
  const STABLE_THRESHOLD_MS := 30_000
  const TOKEN_GRACE_PERIOD_MS := 5 * 60 * 1000

  datatype Status = Disconnected | Connecting | Connected | Error

  /**
   * `tokenExpiresAt` is 0 when the broker needs no token; `publishOnly` stands for a user name of the
   * `v1_` kind, for which the adapter does not subscribe.
   */
  datatype Settings = Settings(topicPrefix: string, maxRetries: Option<int>, useWebSocket: bool,
                               keepalive: Option<int>, tokenExpiresAt: int, publishOnly: bool)
  {
    function MaxRetries(): (n: nat)
      ensures 1 <= n <= MAX_RECONNECT_ATTEMPTS
    {
      Max(1, Min(if maxRetries.Some? then maxRetries.value else DEFAULT_RECONNECT_ATTEMPTS, MAX_RECONNECT_ATTEMPTS))
    }

    predicate NeedsToken() { tokenExpiresAt != 0 }

    /** A proactive refresh is scheduled while the token has more than the grace period to live. */
    predicate RefreshesToken(now: int) { NeedsToken() && tokenExpiresAt - now > TOKEN_GRACE_PERIOD_MS }

    function Topic(): string { NormalizePrefix(topicPrefix) + "/#" }

    function WatchdogMs(): int { 1500 * (if keepalive.Some? then keepalive.value else 30) }
  }

  function NormalizePrefix(prefix: string): string {
    var p := Trim(if prefix == "" then "msh" else prefix);
    if EndsWith(p, "/") then p[..|p| - 1] else p
  }

  /**
   * One mqtt.js client: the settings its handlers captured, the time of its CONNACK, and the topics it
   * was told to subscribe.
   */
  datatype Client = Client(settings: Settings, ended: bool, closed: bool, acked: Option<int>, subscribed: seq<string>)

  datatype Route = RequestToken | Reconnect

  /** `delayed` holds the topics of the subscribes that wait for their pause after CONNACK. */
  datatype State = State(
    client: Option<nat>, status: Status, settings: Option<Settings>, ackTimer: Option<nat>, retryCount: nat,
    reconnectTimer: Option<Route>, lastConnected: Option<int>, pending: bool, pendingTimer: bool, powerWake: bool,
    watchdog: Option<int>, lastPacketAt: int, wssPing: bool, clients: seq<Client>, tokenTimer: bool, delayed: seq<string>)

  /** `DelayFires` is the end of the pause between CONNACK and subscribe, with the topic it was begun for. */
  datatype Event =
    | Connect(settings: Settings)
    | Disconnect
    | Suspend
    | Resume(now: int)
    | UpdateToken(expiresAt: int, now: int)
    | ClientError(id: nat)
    | ClientConnect(id: nat, now: int)
    | ClientPacket(id: nat, now: int)
    | ClientClose(id: nat, now: int)
    | ClientOffline(id: nat)
    | AckFires
    | ReconnectFires
    | PendingFires
    | WatchdogFires(now: int)
    | TokenTimerFires
    | DelayFires(topic: string)

  const INITIAL := State(None, Disconnected, None, None, 0, None, None, false, false, false, None, 0, false, [], false, [])

  predicate HasWildcard(prefix: string) { '+' in prefix || '#' in prefix }

  predicate Live(s: State, id: nat) { id < |s.clients| && !s.clients[id].closed }

  predicate HasLiveClient(s: State) { s.client.Some? && Live(s, s.client.value) }

  predicate Enabled(s: State, e: Event) {
    match e
    case ClientError(id) => Live(s, id)
    case ClientConnect(id, _) => Live(s, id)
    case ClientPacket(id, _) => Live(s, id)
    case ClientClose(id, _) => Live(s, id)
    case ClientOffline(id) => Live(s, id)
    case AckFires => s.ackTimer.Some?
    case ReconnectFires => s.reconnectTimer.Some?
    case PendingFires => s.pendingTimer
    case WatchdogFires(_) => s.watchdog.Some?
    case TokenTimerFires => s.tokenTimer
    case DelayFires(topic) => topic in s.delayed
    case _ => true
  }

  // ---------------------------------------------------------------- meaning of the entry points

  function DropClient(s: State): State {
    if s.client.Some? && s.client.value < |s.clients|
    then s.(client := None, clients := s.clients[s.client.value := s.clients[s.client.value].(ended := true)])
    else s.(client := None)
  }

  function DoConnect(s: State, settings: Settings): State {
    var d := DropClient(s.(ackTimer := None));
    d.(status := Connecting, client := Some(|d.clients|), ackTimer := Some(|d.clients|),
       clients := d.clients + [Client(settings, false, false, None, [])])
  }

  function OnDisconnect(s: State): State {
    DropClient(s.(ackTimer := None, wssPing := false, reconnectTimer := None, pending := false,
                  pendingTimer := false, retryCount := 0, tokenTimer := false)).(settings := None, status := Disconnected)
  }

  function OnConnect(s: State, settings: Settings): State {
    if HasWildcard(settings.topicPrefix) then OnDisconnect(s).(status := Error)
    else DoConnect(OnDisconnect(s).(settings := Some(settings)), settings)
  }

  function OnSuspend(s: State): State { s.(watchdog := None, reconnectTimer := None, pendingTimer := false) }

  function OnResume(s: State, now: int): State {
    var b := s.(lastPacketAt := now, watchdog := None);
    if s.settings.None? then b
    else
      WakeReconnect(DropClient(b.(retryCount := 0, powerWake := true, reconnectTimer := None, pendingTimer := false,
                                  pending := false, status := Disconnected)))
  }

  function WakeReconnect(s: State): State
    requires s.settings.Some?
  {
    if s.settings.value.NeedsToken() then s.(pending := true, pendingTimer := true) else DoConnect(s, s.settings.value)
  }

  function OnUpdateToken(s: State, expiresAt: int, now: int): State {
    if s.settings.None? then s.(tokenTimer := false)
    else
      var renewedSettings := s.settings.value.(tokenExpiresAt := expiresAt);
      var t := s.(settings := Some(renewedSettings), tokenTimer := s.status == Connected && renewedSettings.RefreshesToken(now));
      if s.pending then DoConnect(t.(pending := false, pendingTimer := false), renewedSettings) else t
  }

  function OnClientError(s: State, id: nat): State {
    if s.client != Some(id) then s
    else s.(ackTimer := None, status := if s.status == Connecting then Disconnected else s.status)
  }

  function OnClientConnect(s: State, id: nat, now: int): State
    requires id < |s.clients|
  {
    var s := s.(clients := s.clients[id := s.clients[id].(acked := Some(now))]);
    if s.client != Some(id) then s else StartSession(s, now, s.clients[id].settings)
  }

  function StartSession(s: State, now: int, captured: Settings): State {
    ArmSession(MarkConnected(s, now), now, captured)
  }

  function MarkConnected(s: State, now: int): State {
    s.(ackTimer := None, lastConnected := Some(now), lastPacketAt := now, status := Connected,
       watchdog := Some(if s.settings.Some? then s.settings.value.WatchdogMs() else 45_000))
  }

  /** The delayed subscribe, the web-socket ping and the token refresh of a new session. */
  function ArmSession(s: State, now: int, captured: Settings): State {
    s.(wssPing := s.wssPing || captured.useWebSocket,
       delayed := if captured.publishOnly then s.delayed else s.delayed + [captured.Topic()],
       tokenTimer := s.status == Connected && s.settings.Some? && s.settings.value.RefreshesToken(now))
  }

  function OnClientPacket(s: State, id: nat, now: int): State {
    if s.client != Some(id) then s else s.(lastPacketAt := now)
  }

  /** Zero is falsy in the source, so a CONNACK at time 0 counts as none. */
  function SessionDuration(s: State, now: int): int {
    if s.lastConnected.Some? && s.lastConnected.value != 0 then now - s.lastConnected.value else 0
  }

  predicate IsStable(s: State, now: int) { SessionDuration(s, now) >= STABLE_THRESHOLD_MS }

  function RetriesBefore(s: State, now: int): nat { if IsStable(s, now) then 0 else s.retryCount }

  predicate SkipsReconnect(s: State) { s.status == Error || s.settings.None? }

  predicate SchedulesRetry(s: State, id: nat, now: int) {
    s.client == Some(id) && !SkipsReconnect(s) && RetriesBefore(s, now) < s.settings.value.MaxRetries()
  }

  function OnClientClose(s: State, id: nat, now: int): State
    requires id < |s.clients|
  {
    var s := s.(clients := s.clients[id := s.clients[id].(closed := true)]);
    if s.client != Some(id) then s
    else
      var c := CloseSession(s);
      if SkipsReconnect(s) then c else ScheduleRetry(c, now)
  }

  function CloseSession(s: State): State {
    s.(wssPing := false, watchdog := None, ackTimer := None, reconnectTimer := None,
       status := if s.status == Connected || s.status == Connecting then Disconnected else s.status)
  }

  function ScheduleRetry(s: State, now: int): State
    requires s.settings.Some?
  {
    var retries := RetriesBefore(s, now);
    if retries >= s.settings.value.MaxRetries() then s.(retryCount := retries, status := Error)
    else if s.settings.value.NeedsToken() then
      s.(retryCount := retries + 1, powerWake := false, reconnectTimer := Some(RequestToken))
    else s.(retryCount := retries + 1, reconnectTimer := Some(Reconnect))
  }

  function OnClientOffline(s: State, id: nat): State {
    if s.client == Some(id) && (s.status == Connected || s.status == Connecting) then s.(status := Disconnected) else s
  }

  /** The CONNACK watchdog abandons the client itself, so the `close` it still owes is ignored. */
  predicate GivesUp(s: State) { s.ackTimer.Some? && s.client == s.ackTimer && s.status == Connecting }

  function OnAckFires(s: State): State {
    if GivesUp(s) then DropClient(s.(ackTimer := None)).(status := Disconnected) else s.(ackTimer := None)
  }

  function OnReconnectFires(s: State): State {
    var t := s.(reconnectTimer := None);
    if s.settings.None? then t
    else if s.reconnectTimer == Some(RequestToken) then t.(pending := true, pendingTimer := true)
    else DoConnect(t, s.settings.value)
  }

  function OnPendingFires(s: State): State {
    var t := s.(pendingTimer := false);
    if s.pending && s.settings.Some? then DoConnect(t.(pending := false), s.settings.value) else t
  }

  function OnWatchdogFires(s: State, now: int): State
    requires s.watchdog.Some?
  {
    if s.status == Connected && s.client.Some? && s.client.value < |s.clients| && s.lastPacketAt != 0
       && now - s.lastPacketAt > s.watchdog.value
    then s.(clients := s.clients[s.client.value := s.clients[s.client.value].(ended := true)])
    else s
  }

  /** The delayed subscribe goes to whatever client is current and connected by then. */
  function OnDelayFires(s: State, topic: string): State {
    var t := s.(delayed := RemoveOne(s.delayed, topic));
    if s.status == Connected && s.client.Some? && s.client.value < |s.clients| then
      var c := s.clients[s.client.value];
      t.(clients := s.clients[s.client.value := c.(subscribed := c.subscribed + [topic])])
    else t
  }

  /** The proactive refresh only asks for a token. */
  predicate RequestsRefresh(s: State) { s.status == Connected && s.settings.Some? }

  function Step(s: State, e: Event): State
    requires Enabled(s, e)
  {
    match e
    case Connect(settings) => OnConnect(s, settings)
    case Disconnect => OnDisconnect(s)
    case Suspend => OnSuspend(s)
    case Resume(now) => OnResume(s, now)
    case UpdateToken(expiresAt, now) => OnUpdateToken(s, expiresAt, now)
    case ClientError(id) => OnClientError(s, id)
    case ClientConnect(id, now) => OnClientConnect(s, id, now)
    case ClientPacket(id, now) => OnClientPacket(s, id, now)
    case ClientClose(id, now) => OnClientClose(s, id, now)
    case ClientOffline(id) => OnClientOffline(s, id)
    case AckFires => OnAckFires(s)
    case ReconnectFires => OnReconnectFires(s)
    case PendingFires => OnPendingFires(s)
    case WatchdogFires(now) => OnWatchdogFires(s, now)
    case TokenTimerFires => s.(tokenTimer := false)
    case DelayFires(topic) => OnDelayFires(s, topic)
  }

  // ---------------------------------------------------------------- runs and their history

  /**
   * What happened since the last connect, disconnect or power resume: `scheduled` closes armed a
   * route, `waits` is 1 when the resume itself opened a token wait, `created` clients were started
   * by a route, `dropped` routes were cleared by a suspend.  `renewed` says that a close renewed the
   * retry budget, `gaveUp` that the CONNACK watchdog abandoned the client; `sinceRenewal` counts the
   * closes that armed a route since the last renewal, by a close or otherwise.
   */
  datatype History = History(suspended: bool, gaveUp: bool, renewed: bool,
                             scheduled: nat, waits: nat, created: nat, dropped: nat, sinceRenewal: nat)

  const NO_HISTORY := History(false, false, false, 0, 0, 0, 0, 0)

  function Record(h: History, s: State, e: Event): History {
    match e
    case Connect(_) => NO_HISTORY
    case Disconnect => NO_HISTORY
    case Suspend => h.(suspended := true, dropped := h.dropped + (if s.reconnectTimer.Some? then 1 else 0))
    case Resume(_) =>
      if s.settings.None? then h.(suspended := false)
      else NO_HISTORY.(waits := if s.settings.value.NeedsToken() then 1 else 0)
    case UpdateToken(_, _) => if s.settings.Some? && s.pending then h.(created := h.created + 1) else h
    case ClientClose(id, now) =>
      if s.client != Some(id) || SkipsReconnect(s) then h
      else h.(renewed := h.renewed || IsStable(s, now),
              scheduled := h.scheduled + (if SchedulesRetry(s, id, now) then 1 else 0),
              sinceRenewal := (if IsStable(s, now) then 0 else h.sinceRenewal) + (if SchedulesRetry(s, id, now) then 1 else 0))
    case AckFires => if GivesUp(s) then h.(gaveUp := true) else h
    case ReconnectFires =>
      if s.settings.Some? && s.reconnectTimer != Some(RequestToken) then h.(created := h.created + 1) else h
    case PendingFires => if s.pending && s.settings.Some? then h.(created := h.created + 1) else h
    case _ => h
  }

  ghost predicate Legal(s: State, es: seq<Event>)
    decreases |es|
  {
    es == [] || (Enabled(s, es[0]) && Legal(Step(s, es[0]), es[1..]))
  }

  ghost function Run(s: State, es: seq<Event>): State
    requires Legal(s, es)
    decreases |es|
  {
    if es == [] then s else Run(Step(s, es[0]), es[1..])
  }

  ghost function RunHistory(h: History, s: State, es: seq<Event>): History
    requires Legal(s, es)
    decreases |es|
  {
    if es == [] then h else RunHistory(Record(h, s, es[0]), Step(s, es[0]), es[1..])
  }

  /** The ways a next client can still come about without an API call. */
  function Routes(s: State): nat { (if s.reconnectTimer.Some? then 1 else 0) + (if s.pending then 1 else 0) }

  ghost predicate Inv(s: State, h: History) {
    && (s.client.Some? ==> s.client.value < |s.clients|)
    && (forall i :: 0 <= i < |s.clients| && s.client != Some(i) ==> s.clients[i].ended)
    && (s.settings.None? ==> s.client.None? && Routes(s) == 0)
    && (s.status in {Connecting, Connected} ==> HasLiveClient(s))
    && (HasLiveClient(s) ==> Routes(s) == 0)
    && (s.client.Some? && s.clients[s.client.value].acked.Some? ==> s.lastConnected == s.clients[s.client.value].acked)
    && Routes(s) <= 1
    && (s.pendingTimer ==> s.pending)
    && (s.pending && !h.suspended ==> s.pendingTimer)
    && (s.status == Error ==> !HasLiveClient(s) && Routes(s) == 0)
    && (s.settings.Some? && s.status != Error && !h.suspended ==>
          (h.gaveUp <==> Routes(s) == 0 && !HasLiveClient(s)))
    && (s.settings.Some? && h.gaveUp ==> s.client.None? && Routes(s) == 0 && s.status == Disconnected)
    && h.scheduled + h.waits == h.created + h.dropped + Routes(s)
    && h.waits <= 1
    && (s.settings.Some? ==> s.retryCount <= s.settings.value.MaxRetries())
    && (!h.renewed ==> h.scheduled == h.sinceRenewal)
    && h.sinceRenewal == s.retryCount
    && (s.tokenTimer ==> s.settings.Some?)
  }

  lemma DropClientEnds(s: State)
    requires s.client.Some? ==> s.client.value < |s.clients|
    requires forall i :: 0 <= i < |s.clients| && s.client != Some(i) ==> s.clients[i].ended
    ensures
      var d := DropClient(s);
      && d.client.None? && |d.clients| == |s.clients|
      && (forall i :: 0 <= i < |s.clients| ==> d.clients[i].ended)
      && d.(client := s.client, clients := s.clients) == s
  {
  }

  /** Starting a client abandons the previous one force-ended and leaves a live current client. */
  lemma DoConnectEnds(s: State, settings: Settings)
    requires s.client.Some? ==> s.client.value < |s.clients|
    requires forall i :: 0 <= i < |s.clients| && s.client != Some(i) ==> s.clients[i].ended
    ensures
      var d := DoConnect(s, settings);
      && d.client == d.ackTimer == Some(|s.clients|) && |d.clients| == |s.clients| + 1 && d.status == Connecting
      && d.clients[|s.clients|] == Client(settings, false, false, None, [])
      && (forall i :: 0 <= i < |s.clients| ==> d.clients[i].ended)
      && d.(client := s.client, ackTimer := s.ackTimer, status := s.status, clients := s.clients) == s
  {
  }

  lemma DisconnectEnds(s: State)
    requires s.client.Some? ==> s.client.value < |s.clients|
    requires forall i :: 0 <= i < |s.clients| && s.client != Some(i) ==> s.clients[i].ended
    ensures
      var d := OnDisconnect(s);
      && d.client.None? && d.settings.None? && d.status == Disconnected && |d.clients| == |s.clients|
      && (forall i :: 0 <= i < |s.clients| ==> d.clients[i].ended)
      && Routes(d) == 0 && !d.pendingTimer && d.retryCount == 0 && !d.tokenTimer
  {
    DropClientEnds(s.(ackTimer := None, wssPing := false, reconnectTimer := None, pending := false,
                      pendingTimer := false, retryCount := 0, tokenTimer := false));
  }

  lemma InvConnect(s: State, h: History, settings: Settings)
    requires Inv(s, h)
    ensures Inv(OnConnect(s, settings), NO_HISTORY)
  {
    DisconnectEnds(s);
    if !HasWildcard(settings.topicPrefix) {
      DoConnectEnds(OnDisconnect(s).(settings := Some(settings)), settings);
    }
  }

  lemma InvResume(s: State, h: History, now: int)
    requires Inv(s, h)
    ensures Inv(OnResume(s, now), Record(h, s, Resume(now)))
  {
    if s.settings.Some? {
      var t := s.(lastPacketAt := now, watchdog := None, retryCount := 0, powerWake := true, reconnectTimer := None,
                  pendingTimer := false, pending := false, status := Disconnected);
      DropClientEnds(t);
      InvWakeReconnect(DropClient(t));
    }
  }

  lemma InvWakeReconnect(s: State)
    requires s.settings.Some? && s.client.None? && s.status == Disconnected && s.retryCount == 0 && Routes(s) == 0 && !s.pendingTimer
    requires forall i :: 0 <= i < |s.clients| ==> s.clients[i].ended
    ensures Inv(WakeReconnect(s), NO_HISTORY.(waits := if s.settings.value.NeedsToken() then 1 else 0))
  {
    DoConnectEnds(s, s.settings.value);
  }

  lemma InvUpdateToken(s: State, h: History, expiresAt: int, now: int)
    requires Inv(s, h)
    ensures Inv(OnUpdateToken(s, expiresAt, now), Record(h, s, UpdateToken(expiresAt, now)))
  {
    if s.settings.Some? && s.pending { TokenConnects(s, h, expiresAt, now); }
  }

  /** A token that arrives in a wait starts a client with it. */
  lemma TokenConnects(s: State, h: History, expiresAt: int, now: int)
    requires Inv(s, h) && s.settings.Some? && s.pending
    ensures
      var settings := s.settings.value.(tokenExpiresAt := expiresAt);
      var d := OnUpdateToken(s, expiresAt, now);
      && d.client == d.ackTimer == Some(|s.clients|) && |d.clients| == |s.clients| + 1 && d.status == Connecting
      && d.clients[|s.clients|] == Client(settings, false, false, None, [])
      && (forall i :: 0 <= i < |s.clients| ==> d.clients[i].ended)
      && d.(client := s.client, ackTimer := s.ackTimer, status := s.status, clients := s.clients)
           == s.(settings := Some(settings), pending := false, pendingTimer := false, tokenTimer := d.tokenTimer)
  {
    var settings := s.settings.value.(tokenExpiresAt := expiresAt);
    var armed := s.status == Connected && settings.RefreshesToken(now);
    DoConnectEnds(s.(settings := Some(settings), tokenTimer := armed, pending := false, pendingTimer := false), settings);
  }

  lemma InvReconnectFires(s: State, h: History)
    requires Inv(s, h) && s.reconnectTimer.Some?
    ensures Inv(OnReconnectFires(s), Record(h, s, ReconnectFires))
  {
    if s.reconnectTimer == Some(RequestToken) { InvRequestToken(s, h); } else { InvReconnectNow(s, h); }
  }

  lemma InvRequestToken(s: State, h: History)
    requires Inv(s, h) && s.reconnectTimer == Some(RequestToken)
    ensures Inv(OnReconnectFires(s), Record(h, s, ReconnectFires))
  {
  }

  lemma InvReconnectNow(s: State, h: History)
    requires Inv(s, h) && s.reconnectTimer.Some? && s.reconnectTimer != Some(RequestToken)
    ensures Inv(OnReconnectFires(s), Record(h, s, ReconnectFires))
  {
    DoConnectEnds(s.(reconnectTimer := None), s.settings.value);
  }

  lemma InvPendingFires(s: State, h: History)
    requires Inv(s, h) && s.pendingTimer
    ensures Inv(OnPendingFires(s), Record(h, s, PendingFires))
  {
    DoConnectEnds(s.(pendingTimer := false, pending := false), s.settings.value);
  }

  lemma InvAckFires(s: State, h: History)
    requires Inv(s, h) && s.ackTimer.Some?
    ensures Inv(OnAckFires(s), Record(h, s, AckFires))
  {
    if GivesUp(s) { InvGivesUp(s, h); }
  }

  lemma InvGivesUp(s: State, h: History)
    requires Inv(s, h) && GivesUp(s)
    ensures Inv(OnAckFires(s), h.(gaveUp := true))
  {
    assert HasLiveClient(s) && Routes(s) == 0;
    DropClientEnds(s.(ackTimer := None));
  }

  lemma InvCloseStale(s: State, h: History, id: nat, now: int)
    requires Inv(s, h) && Live(s, id) && s.client != Some(id)
    ensures Inv(OnClientClose(s, id, now), h)
  {
    assert HasLiveClient(s) == HasLiveClient(OnClientClose(s, id, now));
  }

  /** A live current client means that no route is open and the status is not `error`. */
  lemma CurrentIsLive(s: State, h: History, id: nat)
    requires Inv(s, h) && Live(s, id) && s.client == Some(id)
    ensures Routes(s) == 0 && !SkipsReconnect(s) && !s.pendingTimer && !h.gaveUp
  {
  }

  lemma InvCloseScheduled(s: State, h: History, id: nat, now: int)
    requires Inv(s, h) && Live(s, id) && SchedulesRetry(s, id, now)
    ensures Inv(OnClientClose(s, id, now), Record(h, s, ClientClose(id, now)))
  {
    CurrentIsLive(s, h, id);
    var t := OnClientClose(s, id, now);
    assert t.status == Disconnected && Routes(t) == 1 && !HasLiveClient(t);
  }

  lemma InvCloseExhausted(s: State, h: History, id: nat, now: int)
    requires Inv(s, h) && Live(s, id) && s.client == Some(id) && !SchedulesRetry(s, id, now)
    ensures Inv(OnClientClose(s, id, now), Record(h, s, ClientClose(id, now)))
  {
    CurrentIsLive(s, h, id);
    var t := OnClientClose(s, id, now);
    assert t.status == Error && Routes(t) == 0 && !HasLiveClient(t);
  }

  lemma InvClose(s: State, h: History, id: nat, now: int)
    requires Inv(s, h) && Live(s, id)
    ensures Inv(OnClientClose(s, id, now), Record(h, s, ClientClose(id, now)))
  {
    if s.client != Some(id) {
      InvCloseStale(s, h, id, now);
    } else if SchedulesRetry(s, id, now) {
      InvCloseScheduled(s, h, id, now);
    } else {
      InvCloseExhausted(s, h, id, now);
    }
  }

  lemma InvStep(s: State, h: History, e: Event)
    requires Inv(s, h) && Enabled(s, e)
    ensures Inv(Step(s, e), Record(h, s, e))
  {
    match e
    case AckFires => InvAckFires(s, h);
    case ReconnectFires => InvReconnectFires(s, h);
    case PendingFires => InvPendingFires(s, h);
    case ClientClose(id, now) => InvClose(s, h, id, now);
    case ClientConnect(id, now) => InvClientConnect(s, h, id, now);
    case Connect(settings) => InvConnect(s, h, settings);
    case Disconnect => DisconnectEnds(s);
    case Resume(now) => InvResume(s, h, now);
    case UpdateToken(expiresAt, now) => InvUpdateToken(s, h, expiresAt, now);
    case DelayFires(topic) => InvDelayFires(s, h, topic);
    case Suspend => InvSuspend(s, h);
    case _ => InvLocal(s, h, e);
  }

  lemma InvSuspend(s: State, h: History)
    requires Inv(s, h)
    ensures Inv(OnSuspend(s), Record(h, s, Suspend))
  {
  }

  lemma InvDelayFires(s: State, h: History, topic: string)
    requires Inv(s, h)
    ensures Inv(OnDelayFires(s, topic), h)
  {
    DelayFrame(s, topic);
    assert HasLiveClient(OnDelayFires(s, topic)) == HasLiveClient(s);
  }

  /** A delayed subscribe touches the life of no client. */
  lemma DelayFrame(s: State, topic: string)
    ensures
      var d := OnDelayFires(s, topic);
      && |d.clients| == |s.clients|
      && (forall i :: 0 <= i < |s.clients| ==>
            && d.clients[i].ended == s.clients[i].ended && d.clients[i].closed == s.clients[i].closed
            && d.clients[i].acked == s.clients[i].acked)
  {
  }

  lemma InvClientConnect(s: State, h: History, id: nat, now: int)
    requires Inv(s, h) && Live(s, id)
    ensures Inv(OnClientConnect(s, id, now), h)
  {
  }

  lemma InvLocal(s: State, h: History, e: Event)
    requires Inv(s, h) && Enabled(s, e)
    requires e.ClientError? || e.ClientPacket? || e.ClientOffline? || e.WatchdogFires? || e.TokenTimerFires?
    ensures Inv(Step(s, e), Record(h, s, e))
  {
  }

  lemma {:induction false} InvRun(s: State, h: History, es: seq<Event>)
    requires Inv(s, h) && Legal(s, es)
    ensures Inv(Run(s, es), RunHistory(h, s, es))
    decreases |es|
  {
    if es != [] {
      InvStep(s, h, es[0]);
      InvRun(Step(s, es[0]), Record(h, s, es[0]), es[1..]);
    }
  }

  // ---------------------------------------------------------------- main results

  ghost predicate Reached(s: State, h: History, es: seq<Event>) {
    Legal(INITIAL, es) && s == Run(INITIAL, es) && h == RunHistory(NO_HISTORY, INITIAL, es)
  }

  lemma ReachedInv(s: State, h: History, es: seq<Event>)
    requires Reached(s, h, es)
    ensures Inv(s, h)
  {
    InvRun(INITIAL, NO_HISTORY, es);
  }

  /**
   * Token-gated reconnect over every run: at most one route is open and none beside a live client,
   * a live pending timer implies the pending flag, and routes are conserved, so no more clients are
   * started by routes than closes (and at most one resume wait) opened.
   */
  lemma TokenGate(s: State, h: History, es: seq<Event>)
    requires Reached(s, h, es)
    ensures Routes(s) <= 1 && (HasLiveClient(s) ==> Routes(s) == 0)
    ensures s.pendingTimer ==> s.pending
    ensures s.pending && !h.suspended ==> s.pendingTimer
    ensures h.created + h.dropped + Routes(s) == h.scheduled + h.waits
    ensures h.created <= h.scheduled + h.waits
  {
    ReachedInv(s, h, es);
  }

  /** The step from `s` to `t` started one client with these settings, it waits for its CONNACK, and no route is left. */
  predicate Starts(s: State, t: State, settings: Settings) {
    && |t.clients| == |s.clients| + 1
    && t.clients[|s.clients|] == Client(settings, false, false, None, [])
    && t.client == t.ackTimer == Some(|s.clients|)
    && t.status == Connecting && t.settings == Some(settings)
    && Routes(t) == 0 && !t.pendingTimer
    && forall i :: 0 <= i < |s.clients| ==> t.clients[i].ended
  }

  /**
   * Whichever of the token and the safety timeout comes first starts the client, with the new token or
   * with the old one; the other is then inert.
   */
  lemma TokenOrTimeoutOnce(s: State, h: History, es: seq<Event>, expiresAt: int, now: int)
    requires Reached(s, h, es) && s.pendingTimer
    ensures s.settings.Some?
    ensures
      var byToken := Step(s, UpdateToken(expiresAt, now));
      Starts(s, byToken, s.settings.value.(tokenExpiresAt := expiresAt)) && !Enabled(byToken, PendingFires)
    ensures
      var byTimeout := Step(s, PendingFires);
      && Starts(s, byTimeout, s.settings.value)
      && |Step(byTimeout, UpdateToken(expiresAt, now)).clients| == |byTimeout.clients|
  {
    ReachedInv(s, h, es);
    DoConnectEnds(s.(pendingTimer := false, pending := false), s.settings.value);
    TokenConnects(s, h, expiresAt, now);
  }

  function Potential(s: State): nat { |s.clients| + Routes(s) }

  lemma PotentialStep(s: State, h: History, e: Event)
    requires Inv(s, h) && Enabled(s, e) && !e.Connect? && !e.Resume?
    ensures Potential(Step(s, e)) <= Potential(s) + (if e.ClientClose? && SchedulesRetry(s, e.id, e.now) then 1 else 0)
  {
    match e
    case Disconnect => DisconnectEnds(s);
    case UpdateToken(expiresAt, now) => PotentialToken(s, h, expiresAt, now);
    case AckFires => PotentialAck(s, h);
    case ReconnectFires => PotentialRoute(s, h);
    case PendingFires => PotentialPending(s, h);
    case ClientClose(id, now) => PotentialClose(s, id, now);
    case ClientConnect(id, now) => PotentialConnect(s, id, now);
    case DelayFires(topic) => PotentialDelay(s, topic);
    case _ => PotentialLocal(s, e);
  }

  lemma PotentialAck(s: State, h: History)
    requires Inv(s, h)
    ensures Potential(OnAckFires(s)) == Potential(s)
  {
    DropClientEnds(s.(ackTimer := None));
  }

  lemma PotentialClose(s: State, id: nat, now: int)
    requires id < |s.clients|
    ensures Potential(OnClientClose(s, id, now)) <= Potential(s) + (if SchedulesRetry(s, id, now) then 1 else 0)
  {
  }

  lemma PotentialConnect(s: State, id: nat, now: int)
    requires id < |s.clients|
    ensures Potential(OnClientConnect(s, id, now)) == Potential(s)
  {
  }

  lemma PotentialDelay(s: State, topic: string)
    ensures Potential(OnDelayFires(s, topic)) == Potential(s)
  {
  }

  lemma PotentialToken(s: State, h: History, expiresAt: int, now: int)
    requires Inv(s, h)
    ensures Potential(OnUpdateToken(s, expiresAt, now)) == Potential(s)
  {
    if s.settings.Some? && s.pending { TokenConnects(s, h, expiresAt, now); }
  }

  lemma PotentialRoute(s: State, h: History)
    requires Inv(s, h) && s.reconnectTimer.Some?
    ensures Potential(OnReconnectFires(s)) == Potential(s)
  {
    DoConnectEnds(s.(reconnectTimer := None), s.settings.value);
  }

  lemma PotentialPending(s: State, h: History)
    requires Inv(s, h) && s.pendingTimer
    ensures Potential(OnPendingFires(s)) == Potential(s)
  {
    DoConnectEnds(s.(pendingTimer := false, pending := false), s.settings.value);
  }

  lemma PotentialLocal(s: State, e: Event)
    requires Enabled(s, e)
    requires e.Suspend? || e.ClientError? || e.ClientPacket? || e.ClientOffline? || e.WatchdogFires? || e.TokenTimerFires?
    ensures Potential(Step(s, e)) <= Potential(s)
  {
  }

  /** The closes in `es` that open a route. */
  ghost function EffectiveCloses(s: State, es: seq<Event>): nat
    requires Legal(s, es)
    decreases |es|
  {
    if es == [] then 0
    else
      (if es[0].ClientClose? && SchedulesRetry(s, es[0].id, es[0].now) then 1 else 0)
      + EffectiveCloses(Step(s, es[0]), es[1..])
  }

  /** Without connect or resume calls each close leads to at most one new client, whatever the order of events. */
  lemma {:induction false} OneSuccessorPerClose(s: State, h: History, es: seq<Event>)
    requires Inv(s, h) && Legal(s, es)
    requires forall e <- es :: !e.Connect? && !e.Resume?
    ensures Potential(Run(s, es)) <= Potential(s) + EffectiveCloses(s, es)
    decreases |es|
  {
    if es != [] {
      InvStep(s, h, es[0]);
      PotentialStep(s, h, es[0]);
      OneSuccessorPerClose(Step(s, es[0]), Record(h, s, es[0]), es[1..]);
    }
  }

  /**
   * Unlike the Meshtastic manager this adapter can be left with nothing to come: awake, with settings
   * and not in `error`, it has neither a route nor a live client exactly when its CONNACK watchdog fired.
   */
  lemma WedgedIffWatchdogGaveUp(s: State, h: History, es: seq<Event>)
    requires Reached(s, h, es)
    requires s.settings.Some? && s.status != Error && !h.suspended
    ensures Routes(s) == 0 && !HasLiveClient(s) <==> h.gaveUp
    ensures h.gaveUp ==> s.client.None? && s.status == Disconnected
  {
    ReachedInv(s, h, es);
  }

  lemma GivingUpReachable() returns (s: State, h: History, es: seq<Event>)
    ensures Reached(s, h, es) && s.settings.Some? && s.status != Error && h.gaveUp && !h.suspended
  {
    var settings := Settings("msh", None, false, None, 0, false);
    es := [Connect(settings), AckFires];
    var s1 := Step(INITIAL, es[0]);
    assert GivesUp(s1);
    assert es[1..][0] == es[1] && es[1..][1..] == [];
    assert Legal(s1, es[1..]);
    s, h := Run(INITIAL, es), RunHistory(NO_HISTORY, INITIAL, es);
    assert s == Run(s1, es[1..]) == Step(s1, es[1]);
    assert es[1..][1..] == [] && RunHistory(Record(NO_HISTORY, s1, es[1]), Step(s1, es[1]), es[1..][1..]) == Record(NO_HISTORY, s1, es[1]);
    assert h == RunHistory(NO_HISTORY, s1, es[1..]) == Record(NO_HISTORY, s1, es[1]);
  }

  predicate ConnectionEvent(e: Event, id: nat) {
    || (e.ClientError? && e.id == id) || (e.ClientConnect? && e.id == id) || (e.ClientPacket? && e.id == id)
    || (e.ClientClose? && e.id == id) || (e.ClientOffline? && e.id == id)
  }

  /** A client that is no longer current was force-ended, and its events change no field. */
  lemma StaleClientInert(s: State, h: History, es: seq<Event>, id: nat, e: Event)
    requires Reached(s, h, es)
    requires id < |s.clients| && s.client != Some(id) && ConnectionEvent(e, id) && Enabled(s, e)
    ensures s.clients[id].ended
    ensures Step(s, e) == s.(clients := s.clients[id := Step(s, e).clients[id]])
  {
    ReachedInv(s, h, es);
    assert s == s.(clients := s.clients[id := s.clients[id]]);
  }

  lemma DisconnectClears(s: State, h: History)
    requires Inv(s, h)
    ensures
      var t := OnDisconnect(s);
      Inv(t, NO_HISTORY) && t.settings.None? && t.client.None? && Routes(t) == 0 && t.status == Disconnected
  {
    InvStep(s, h, Disconnect);
    DisconnectEnds(s);
  }

  /** After `disconnect()` nothing but `connect()` creates a client, opens a route or restores settings. */
  lemma {:induction false} DisconnectIsFinal(s: State, h: History, es: seq<Event>)
    requires Inv(s, h) && s.settings.None? && Legal(s, es)
    requires forall e <- es :: !e.Connect?
    ensures
      var t := Run(s, es);
      t.settings.None? && t.client.None? && Routes(t) == 0 && |t.clients| == |s.clients|
    decreases |es|
  {
    if es != [] {
      InvStep(s, h, es[0]);
      var t := Step(s, es[0]);
      assert es[0] in es;
      if es[0].Disconnect? { DisconnectEnds(s); }
      assert t.settings.None? && |t.clients| == |s.clients|;
      DisconnectIsFinal(t, Record(h, s, es[0]), es[1..]);
    }
  }

  /** Every session that closes got its CONNACK less than the stability threshold ago. */
  ghost predicate ShortSessions(s: State, es: seq<Event>)
    requires Legal(s, es)
    decreases |es|
  {
    es == [] || (
      && (es[0].ClientClose? && s.client == Some(es[0].id) ==>
            Live(s, es[0].id) && s.clients[es[0].id].acked.Some?
            && es[0].now - s.clients[es[0].id].acked.value < STABLE_THRESHOLD_MS)
      && ShortSessions(Step(s, es[0]), es[1..]))
  }

  lemma {:induction false} ShortSessionsNeverRenew(s: State, h: History, es: seq<Event>)
    requires Inv(s, h) && !h.renewed && Legal(s, es) && ShortSessions(s, es)
    ensures !RunHistory(h, s, es).renewed
    decreases |es|
  {
    if es != [] {
      InvStep(s, h, es[0]);
      ShortSessionsNeverRenew(Step(s, es[0]), Record(h, s, es[0]), es[1..]);
    }
  }

  /**
   * Retry budget: in every run `retryCount` counts the closes that opened a route since the last renewal
   * and stays within the clamped maximum.  While no close renewed it, these are all closes since the last
   * connect or resume, and the clients started for them stay within the maximum too.  Runs in which
   * every session gets CONNACK and drops before the threshold never renew it.
   */
  lemma RetryBudget(s: State, h: History, es: seq<Event>)
    requires Reached(s, h, es) && s.settings.Some?
    ensures h.sinceRenewal == s.retryCount <= s.settings.value.MaxRetries()
    ensures !h.renewed ==> h.scheduled == s.retryCount && h.created <= s.settings.value.MaxRetries() + h.waits
    ensures ShortSessions(INITIAL, es) ==> !h.renewed
  {
    ReachedInv(s, h, es);
    if ShortSessions(INITIAL, es) { ShortSessionsNeverRenew(INITIAL, NO_HISTORY, es); }
  }

  /**
   * A close of the current client at the bound, counting a renewal by that close, and only there, rests
   * in `error`: no route, no live client, settings kept.
   */
  lemma CloseAtBoundRests(s: State, h: History, es: seq<Event>, id: nat, now: int)
    requires Reached(s, h, es) && Live(s, id) && s.client == Some(id)
    requires s.settings.Some? && s.status != Error
    ensures
      var t := Step(s, ClientClose(id, now));
      && (RetriesBefore(s, now) == s.settings.value.MaxRetries() <==> t.status == Error)
      && (t.status == Error <==> Routes(t) == 0)
      && !HasLiveClient(t) && t.settings == s.settings
  {
    ReachedInv(s, h, es);
    CurrentIsLive(s, h, id);
    CloseRests(s, id, now);
  }

  lemma CloseRests(s: State, id: nat, now: int)
    requires id < |s.clients| && s.client == Some(id) && !SkipsReconnect(s) && Routes(s) == 0
    requires s.retryCount <= s.settings.value.MaxRetries()
    ensures
      var t := OnClientClose(s, id, now);
      && (RetriesBefore(s, now) == s.settings.value.MaxRetries() <==> t.status == Error)
      && (t.status == Error <==> Routes(t) == 0)
      && !HasLiveClient(t) && t.settings == s.settings
  {
  }

  /** The pause before a subscribe has no identity check: it does something exactly when a client is connected. */
  lemma DelayInertIff(s: State, h: History, es: seq<Event>, topic: string)
    requires Reached(s, h, es) && Enabled(s, DelayFires(topic))
    ensures
      var t := Step(s, DelayFires(topic));
      && t.(clients := s.clients, delayed := s.delayed) == s
      && (t.clients == s.clients <==> s.status != Connected)
      && (s.status == Connected ==>
            && s.client.Some? && s.client.value < |s.clients| == |t.clients|
            && t.clients[s.client.value].subscribed == s.clients[s.client.value].subscribed + [topic])
  {
    ReachedInv(s, h, es);
    if s.status == Connected {
      var c := s.clients[s.client.value];
      assert |c.subscribed + [topic]| == |c.subscribed| + 1;
    }
  }

  /** A token timer is armed only while there are settings, and its firing asks for a token exactly when connected. */
  lemma TokenTimerGuard(s: State, h: History, es: seq<Event>)
    requires Reached(s, h, es) && Enabled(s, TokenTimerFires)
    ensures RequestsRefresh(s) <==> s.status == Connected
    ensures Step(s, TokenTimerFires).(tokenTimer := true) == s
  {
    ReachedInv(s, h, es);
  }

  /** The session behind a close was stable: it got its CONNACK at least the threshold ago. */
  predicate GenuinelyStable(c: Client, now: int) {
    c.acked.Some? && now - c.acked.value >= STABLE_THRESHOLD_MS
  }

  /**
   * A close renews the budget for a session that was not stable exactly when that session never got a
   * CONNACK and an earlier one did, at least the threshold ago: `lastConnected` outlives its session.
   */
  lemma RenewalMisjudgedIff(s: State, h: History, es: seq<Event>, id: nat, now: int)
    requires Reached(s, h, es) && s.client == Some(id) && Live(s, id)
    requires s.lastConnected != Some(0)
    ensures
      IsStable(s, now) != GenuinelyStable(s.clients[id], now) <==>
        && s.clients[id].acked.None?
        && s.lastConnected.Some? && now - s.lastConnected.value >= STABLE_THRESHOLD_MS
  {
    ReachedInv(s, h, es);
  }

  const ONE_RETRY := Settings("msh", Some(1), false, None, 0, true)
  const CLIENT := Client(ONE_RETRY, false, false, None, [])

  /** A session that got its CONNACK at time 1 and dropped at time 2, with its one retry scheduled. */
  const DROPPED := State(Some(0), Disconnected, Some(ONE_RETRY), None, 1, Some(Reconnect), Some(1), false, false, false,
                         None, 1, false, [CLIENT.(closed := true, acked := Some(1))], false, [])

  /** The retry of `DROPPED` under way: the second client has not got its CONNACK. */
  const RETRYING := DROPPED.(client := Some(1), status := Connecting, ackTimer := Some(1), reconnectTimer := None,
                             clients := [CLIENT.(ended := true, closed := true, acked := Some(1)), CLIENT])

  const FIRST_SESSION := [Connect(ONE_RETRY), ClientConnect(0, 1), ClientClose(0, 2)]
  const FAILED_RETRY := [ReconnectFires, ClientClose(1, 30_001)]

  lemma {:induction false} FirstSession()
    ensures Legal(INITIAL, FIRST_SESSION) && Run(INITIAL, FIRST_SESSION) == DROPPED
    ensures RunHistory(NO_HISTORY, INITIAL, FIRST_SESSION) == NO_HISTORY.(scheduled := 1, sinceRenewal := 1)
  {
    var r := FIRST_SESSION;
    var s1 := Step(INITIAL, r[0]);
    assert s1.clients == [CLIENT];
    var s2 := Step(s1, r[1]);
    assert s2.clients == [CLIENT.(acked := Some(1))];
    assert Step(s2, r[2]).clients == DROPPED.clients;
    assert r[1..][1..] == [r[2]] && r[2..][1..] == [];
    RunUnfold(s2, NO_HISTORY, [r[2]]);
    RunUnfold(s1, NO_HISTORY, r[1..]);
    RunUnfold(INITIAL, NO_HISTORY, r);
  }

  lemma {:induction false} FailedRetry()
    ensures Legal(DROPPED, FAILED_RETRY)
    ensures var t := Run(DROPPED, FAILED_RETRY); t.settings == Some(ONE_RETRY) && |t.clients| == 2 && t.clients[1].acked.None?
    ensures RunHistory(NO_HISTORY.(scheduled := 1, sinceRenewal := 1), DROPPED, FAILED_RETRY).scheduled == 2
  {
    var r, h := FAILED_RETRY, NO_HISTORY.(scheduled := 1, sinceRenewal := 1);
    assert Step(DROPPED, r[0]) == RETRYING;
    assert r[1..] == [r[1]];
    RunUnfold(RETRYING, Record(h, DROPPED, r[0]), [r[1]]);
    RunUnfold(DROPPED, h, r);
  }

  lemma {:induction false} RunAppend(s: State, h: History, es: seq<Event>, fs: seq<Event>)
    requires Legal(s, es) && Legal(Run(s, es), fs)
    ensures Legal(s, es + fs) && Run(s, es + fs) == Run(Run(s, es), fs)
    ensures RunHistory(h, s, es + fs) == RunHistory(RunHistory(h, s, es), Run(s, es), fs)
    decreases |es|
  {
    if es == [] {
      assert es + fs == fs;
    } else {
      assert (es + fs)[1..] == es[1..] + fs;
      RunAppend(Step(s, es[0]), Record(h, s, es[0]), es[1..], fs);
    }
  }

  /** With one retry allowed, one early CONNACK lets a second failed attempt be retried. */
  lemma {:induction false} MisjudgedRenewalWitness() returns (s: State, h: History, es: seq<Event>)
    ensures Reached(s, h, es) && s.settings.Some? && h.scheduled == s.settings.value.MaxRetries() + 1
    ensures |s.clients| == 2 && s.clients[1].acked.None?
  {
    es := FIRST_SESSION + FAILED_RETRY;
    FirstSession();
    FailedRetry();
    RunAppend(INITIAL, NO_HISTORY, FIRST_SESSION, FAILED_RETRY);
    s, h := Run(INITIAL, es), RunHistory(NO_HISTORY, INITIAL, es);
  }

  lemma RunUnfold(s: State, h: History, es: seq<Event>)
    requires es != [] && Enabled(s, es[0]) && Legal(Step(s, es[0]), es[1..])
    ensures Legal(s, es)
    ensures Run(s, es) == Run(Step(s, es[0]), es[1..])
    ensures RunHistory(h, s, es) == RunHistory(Record(h, s, es[0]), Step(s, es[0]), es[1..])
  {
  }

  // ---------------------------------------------------------------- what each event leads to

  /** `connect` starts a fresh session with the settings it is given; a prefix with a wildcard is an error. */
  lemma ConnectStarts(s: State, h: History, es: seq<Event>, settings: Settings)
    requires Reached(s, h, es)
    ensures
      var t := Step(s, Connect(settings));
      && t.retryCount == 0 && !t.tokenTimer && !t.wssPing
      && (if '+' in settings.topicPrefix || '#' in settings.topicPrefix
          then t.status == Error && t.settings.None? && t.client.None? && Routes(t) == 0 && |t.clients| == |s.clients|
          else Starts(s, t, settings))
  {
    ReachedInv(s, h, es);
    DisconnectEnds(s);
    DoConnectEnds(OnDisconnect(s).(settings := Some(settings)), settings);
  }

  /** What CONNACK sets: the session times, the silence the watchdog tolerates, and the timers it arms. */
  lemma ConnackArms(s: State, h: History, es: seq<Event>, id: nat, now: int)
    requires Reached(s, h, es) && s.client == Some(id) && Live(s, id)
    ensures s.settings.Some?
    ensures
      var t, current, captured := Step(s, ClientConnect(id, now)), s.settings.value, s.clients[id].settings;
      && t.status == Connected && t.client == s.client && t.ackTimer.None? && t.retryCount == s.retryCount
      && t.lastConnected == Some(now) && t.lastPacketAt == now
      && t.watchdog == Some(1500 * (if current.keepalive.Some? then current.keepalive.value else 30))
      && t.delayed == (if captured.publishOnly then s.delayed else s.delayed + [captured.Topic()])
      && (t.wssPing <==> s.wssPing || captured.useWebSocket)
      && (t.tokenTimer <==> current.tokenExpiresAt != 0 && current.tokenExpiresAt - now > 300_000)
  {
    ReachedInv(s, h, es);
  }

  /** The subscribed topic is the trimmed prefix without its slash, and `msh` for none, followed by `/#`. */
  lemma TopicOfPrefix(settings: Settings, left: string, body: string, right: string)
    requires (forall c <- left :: IsSpace(c)) && (forall c <- right :: IsSpace(c)) && Solid(body)
    ensures settings.(topicPrefix := "").Topic() == "msh/#"
    ensures body[|body| - 1] != '/' ==> settings.(topicPrefix := left + body + right).Topic() == body + "/#"
    ensures settings.(topicPrefix := left + (body + "/") + right).Topic() == body + "/#"
  {
    TrimPadded("", "msh", "");
    assert "" + "msh" + "" == "msh" && "msh"[2..][0] == 'h' && "msh" + "/#" == "msh/#";
    TrimPadded(left, body, right);
    assert body[|body| - 1..] == [body[|body| - 1]];
    var slashed := body + "/";
    TrimPadded(left, slashed, right);
    assert slashed[|slashed| - 1..] == "/" && slashed[..|slashed| - 1] == body;
  }

  /** The session was stable: 30 seconds or more since its CONNACK, where time 0 counts as none. */
  predicate LastedLong(s: State, now: int) {
    s.lastConnected.Some? && s.lastConnected.value != 0 && now - s.lastConnected.value >= 30_000
  }

  /**
   * The close of the current client schedules a retry exactly if the session was stable or retries are
   * left; otherwise it rests in `error`.  The retry goes by way of a token exactly if the settings need one.
   */
  lemma CloseRetriesIff(s: State, h: History, es: seq<Event>, id: nat, now: int)
    requires Reached(s, h, es) && s.client == Some(id) && Live(s, id)
    ensures s.settings.Some?
    ensures
      var t := Step(s, ClientClose(id, now));
      var retries := LastedLong(s, now) || s.retryCount < s.settings.value.MaxRetries();
      && t.reconnectTimer.Some? == retries && !t.pending
      && t.status == (if retries then Disconnected else Error)
      && (retries ==> t.retryCount == 1 + (if LastedLong(s, now) then 0 else s.retryCount))
      && t.settings == s.settings && |t.clients| == |s.clients| && !HasLiveClient(t)
      && t.powerWake == (s.powerWake && !(retries && s.settings.value.tokenExpiresAt != 0))
  {
    ReachedInv(s, h, es);
    CurrentIsLive(s, h, id);
  }

  /**
   * Right after such a close the timer of the retry asks for a token and waits for it, with a timeout,
   * without starting a client, exactly if the settings need one; else it starts the one client.
   */
  lemma RetryByTokenIff(s: State, h: History, es: seq<Event>, id: nat, now: int)
    requires Reached(s, h, es) && s.client == Some(id) && Live(s, id)
    requires Step(s, ClientClose(id, now)).reconnectTimer.Some?
    ensures s.settings.Some?
    ensures
      var t := Step(s, ClientClose(id, now));
      var u := Step(t, ReconnectFires);
      if s.settings.value.tokenExpiresAt != 0
      then u == t.(reconnectTimer := None, pending := true, pendingTimer := true) && |u.clients| == |s.clients|
      else Starts(t, u, s.settings.value) && !u.pending && |u.clients| == |s.clients| + 1
  {
    ReachedInv(s, h, es);
    CurrentIsLive(s, h, id);
    var t := Step(s, ClientClose(id, now));
    InvStep(s, h, ClientClose(id, now));
    ClosedRoute(s, id, now);
    if s.settings.value.tokenExpiresAt == 0 { DoConnectEnds(t.(reconnectTimer := None), s.settings.value); }
  }

  lemma ClosedRoute(s: State, id: nat, now: int)
    requires id < |s.clients| && s.client == Some(id) && OnClientClose(s, id, now).reconnectTimer.Some?
    ensures
      var t := OnClientClose(s, id, now);
      && s.settings.Some? && t.settings == s.settings && |t.clients| == |s.clients|
      && t.pending == s.pending && t.pendingTimer == s.pendingTimer
      && t.reconnectTimer == Some(if s.settings.value.tokenExpiresAt != 0 then RequestToken else Reconnect)
  {
  }

  /** What can befall the current client before its `close`; none of it opens a route or ends the retries. */
  predicate Trouble(e: Event, id: nat) {
    || (e.ClientError? && e.id == id) || (e.ClientOffline? && e.id == id) || (e.ClientPacket? && e.id == id)
    || e.WatchdogFires? || e.TokenTimerFires?
  }

  lemma TroubleStep(s: State, id: nat, e: Event)
    requires Live(s, id) && s.client == Some(id) && Trouble(e, id) && Enabled(s, e)
    ensures
      var t := Step(s, e);
      && Live(t, id) && t.client == Some(id) && t.settings == s.settings && |t.clients| == |s.clients|
      && t.retryCount == s.retryCount && t.lastConnected == s.lastConnected
  {
  }

  lemma {:induction false} TroubleRun(s: State, h: History, es: seq<Event>, id: nat, fs: seq<Event>)
    requires Live(s, id) && s.client == Some(id) && Reached(s, h, es)
    requires Legal(s, fs) && forall e <- fs :: Trouble(e, id)
    ensures
      var t := Run(s, fs);
      && Live(t, id) && t.client == Some(id) && t.settings == s.settings && |t.clients| == |s.clients|
      && t.retryCount == s.retryCount && t.lastConnected == s.lastConnected
    ensures Reached(Run(s, fs), RunHistory(h, s, fs), es + fs)
    decreases |fs|
  {
    RunAppend(INITIAL, NO_HISTORY, es, fs);
    if fs != [] {
      assert fs[0] in fs && fs == [fs[0]] + fs[1..];
      TroubleStep(s, id, fs[0]);
      ReachedStep(s, h, es, fs[0]);
      TroubleRun(Step(s, fs[0]), Record(h, s, fs[0]), es + [fs[0]], id, fs[1..]);
    }
  }

  lemma ReachedStep(s: State, h: History, es: seq<Event>, e: Event)
    requires Reached(s, h, es) && Enabled(s, e)
    ensures Reached(Step(s, e), Record(h, s, e), es + [e])
  {
    assert [e][1..] == [];
    RunUnfold(s, h, [e]);
    RunAppend(INITIAL, NO_HISTORY, es, [e]);
  }

  /**
   * Errors, going offline, silence and token refreshes of the current client never keep its close from
   * being retried: the budget at the start of them decides.
   */
  lemma DropRetriesIff(s: State, h: History, es: seq<Event>, id: nat, fs: seq<Event>, now: int)
    requires Reached(s, h, es) && s.client == Some(id) && Live(s, id)
    requires Legal(s, fs) && forall e <- fs :: Trouble(e, id)
    ensures Live(Run(s, fs), id) && s.settings.Some?
    ensures
      var t := Step(Run(s, fs), ClientClose(id, now));
      var retries := LastedLong(s, now) || s.retryCount < s.settings.value.MaxRetries();
      && t.reconnectTimer.Some? == retries
      && t.status == (if retries then Disconnected else Error)
      && t.settings == s.settings && |t.clients| == |s.clients|
  {
    TroubleRun(s, h, es, id, fs);
    CloseRetriesIff(Run(s, fs), RunHistory(h, s, fs), es + fs, id, now);
  }

  /** An error before CONNACK shows at once, and from then on the CONNACK watchdog cannot abandon the client. */
  lemma ErrorDisarms(s: State, h: History, es: seq<Event>, id: nat)
    requires Reached(s, h, es) && s.client == Some(id) && Live(s, id)
    ensures
      var t := Step(s, ClientError(id));
      && !Enabled(t, AckFires) && t.client == s.client && t.clients == s.clients
      && t.status == (if s.status == Connecting then Disconnected else s.status)
  {
  }

  /** A live session that goes offline shows as disconnected and keeps its client. */
  lemma OfflineShows(s: State, h: History, es: seq<Event>, id: nat)
    requires Reached(s, h, es) && s.client == Some(id) && Live(s, id)
    ensures Step(s, ClientOffline(id)) == s.(status := Disconnected)
  {
    ReachedInv(s, h, es);
  }

  /** The watchdog force-ends the connected client exactly if nothing came for longer than it tolerates. */
  lemma WatchdogEndsIff(s: State, h: History, es: seq<Event>, now: int)
    requires Reached(s, h, es) && s.watchdog.Some? && s.status == Connected
    ensures s.client.Some? && s.client.value < |s.clients|
    ensures
      var t := Step(s, WatchdogFires(now));
      var silent := s.lastPacketAt != 0 && now - s.lastPacketAt > s.watchdog.value;
      && |t.clients| == |s.clients| && t.client == s.client && t == s.(clients := t.clients)
      && (t.clients[s.client.value].ended <==> s.clients[s.client.value].ended || silent)
      && Live(t, s.client.value)
      && (forall i :: 0 <= i < |s.clients| && i != s.client.value ==> t.clients[i] == s.clients[i])
  {
    ReachedInv(s, h, es);
  }

  /** A packet of the current client puts the watchdog off. */
  lemma PacketPutsOff(s: State, h: History, es: seq<Event>, id: nat, at: int, now: int)
    requires Reached(s, h, es) && s.client == Some(id) && Live(s, id)
    requires s.watchdog.Some? && now - at <= s.watchdog.value
    ensures
      var t := Step(s, ClientPacket(id, at));
      t == s.(lastPacketAt := at) && Step(t, WatchdogFires(now)) == t
  {
  }

  /** A pause before a subscribe ends once. */
  lemma DelayEnds(s: State, topic: string)
    requires Enabled(s, DelayFires(topic))
    ensures multiset(s.delayed) == multiset(Step(s, DelayFires(topic)).delayed) + multiset{topic}
  {
    RemovesOne(s.delayed, topic);
  }

  /** The retries allowed: as configured between 1 and 12, and 5 if nothing is. */
  lemma RetryLimit(settings: Settings)
    ensures settings.maxRetries.None? ==> settings.MaxRetries() == 5
    ensures settings.maxRetries.Some? ==>
      var v, n := settings.maxRetries.value, settings.MaxRetries();
      if v < 1 then n == 1 else if v > 12 then n == 12 else n == v
  {
  }

  /** A suspend clears the reconnect timer, the timeout of a wait and the watchdog, and nothing else. */
  lemma SuspendPauses(s: State)
    ensures
      var t := Step(s, Suspend);
      && !Enabled(t, ReconnectFires) && !Enabled(t, PendingFires) && (forall now :: !Enabled(t, WatchdogFires(now)))
      && t.(reconnectTimer := s.reconnectTimer, pendingTimer := s.pendingTimer, watchdog := s.watchdog) == s
  {
  }

  /** No client was started from `s` to `t`, and none is left running. */
  predicate Waits(s: State, t: State) {
    && |t.clients| == |s.clients| && t.settings == s.settings && t.pending && t.pendingTimer
    && t.client.None? && t.status == Disconnected
    && forall i :: 0 <= i < |t.clients| ==> t.clients[i].ended
  }

  lemma WakeLeads(s: State)
    requires s.settings.Some? && s.client.None? && s.status == Disconnected && Routes(s) == 0 && !s.pendingTimer
    requires forall i :: 0 <= i < |s.clients| ==> s.clients[i].ended
    ensures
      var t := WakeReconnect(s);
      && t.retryCount == s.retryCount && t.powerWake == s.powerWake
      && t.lastPacketAt == s.lastPacketAt && t.watchdog == s.watchdog
      && (if s.settings.value.tokenExpiresAt != 0 then Waits(s, t) else Starts(s, t, s.settings.value))
  {
    DoConnectEnds(s, s.settings.value);
  }

  lemma StartsFrom(s: State, d: State, t: State, settings: Settings)
    requires |s.clients| == |d.clients| && s.settings == d.settings
    ensures Starts(d, t, settings) ==> Starts(s, t, settings)
    ensures Waits(d, t) ==> Waits(s, t)
  {
  }

  /** A resume starts over with a full budget: with a wait for a token exactly if one is needed, else with a client. */
  lemma ResumeRestarts(s: State, h: History, es: seq<Event>, now: int)
    requires Reached(s, h, es)
    ensures
      var t := Step(s, Resume(now));
      && t.lastPacketAt == now && t.watchdog.None?
      && if s.settings.None? then t == s.(lastPacketAt := now, watchdog := None)
         else
           && t.retryCount == 0 && t.powerWake
           && (if s.settings.value.tokenExpiresAt != 0 then Waits(s, t) else Starts(s, t, s.settings.value))
  {
    ReachedInv(s, h, es);
    if s.settings.Some? {
      var b := s.(lastPacketAt := now, watchdog := None, retryCount := 0, powerWake := true, reconnectTimer := None,
                  pendingTimer := false, pending := false, status := Disconnected);
      var d := DropClient(b);
      DropClientEnds(b);
      WakeLeads(d);
      StartsFrom(s, d, WakeReconnect(d), s.settings.value);
    }
  }

  /** A token outside a wait is kept for the clients to come and starts none. */
  lemma TokenKept(s: State, h: History, es: seq<Event>, expiresAt: int, now: int)
    requires Reached(s, h, es) && !s.pending && s.settings.Some?
    ensures
      var t := Step(s, UpdateToken(expiresAt, now));
      && t.settings == Some(s.settings.value.(tokenExpiresAt := expiresAt))
      && (t.tokenTimer <==> s.status == Connected && expiresAt != 0 && expiresAt - now > 300_000)
      && t.(settings := s.settings, tokenTimer := s.tokenTimer) == s
  {
  }

  // ---------------------------------------------------------------- the class

  class MeshcoreMqttAdapter {
    var client: Option<nat>
    var status: Status
    var lastSettings: Option<Settings>
    var connectAckTimer: Option<nat>
    var retryCount: nat
    var reconnectTimer: Option<Route>
    var lastConnected: Option<int>
    var pendingReconnect: bool
    var pendingReconnectTimer: bool
    var powerWakeReconnect: bool
    var connectionWatchdog: Option<int>
    var lastPacketReceivedAt: int
    var wssPing: bool
    /** Every client handed out by mqtt.js so far, in creation order. */
    var clients: seq<Client>
    var tokenRefreshTimer: bool
    /** The subscribes whose pause after CONNACK is not over, by topic. */
    var delayedSubscribes: seq<string>

    ghost function View(): State
      reads this
    {
      State(client, status, lastSettings, connectAckTimer, retryCount, reconnectTimer, lastConnected, pendingReconnect,
            pendingReconnectTimer, powerWakeReconnect, connectionWatchdog, lastPacketReceivedAt, wssPing, clients,
            tokenRefreshTimer, delayedSubscribes)
    }

    ghost predicate Valid()
      reads this
    {
      client.Some? ==> client.value < |clients|
    }

    constructor ()
      ensures View() == INITIAL && Valid()
    {
      client, status, lastSettings, connectAckTimer, retryCount := None, Disconnected, None, None, 0;
      reconnectTimer, lastConnected, pendingReconnect, pendingReconnectTimer := None, None, false, false;
      powerWakeReconnect, connectionWatchdog, lastPacketReceivedAt, wssPing, clients := false, None, 0, false, [];
      tokenRefreshTimer, delayedSubscribes := false, [];
    }

    method ForceEndClient()
      requires Valid()
      modifies this`client, this`clients
      ensures Valid() && View() == DropClient(old(View()))
    {
      if client.Some? {
        clients := clients[client.value := clients[client.value].(ended := true)];
        client := None;
      }
    }

    method DoConnectWith(settings: Settings)
      requires Valid()
      modifies this`connectAckTimer, this`client, this`clients, this`status
      ensures Valid() && View() == DoConnect(old(View()), settings)
    {
      connectAckTimer := None;
      ForceEndClient();
      status := Connecting;
      clients := clients + [Client(settings, false, false, None, [])];
      client := Some(|clients| - 1);
      connectAckTimer := client;
    }

    method DisconnectNow()
      requires Valid()
      modifies this
      ensures Valid() && View() == OnDisconnect(old(View()))
    {
      ClearTimers();
      ForceEndClient();
      lastSettings := None;
      status := Disconnected;
    }

    /** The fields `disconnect` resets before it ends the client. */
    method ClearTimers()
      modifies this`tokenRefreshTimer, this`connectAckTimer, this`wssPing, this`reconnectTimer, this`pendingReconnect,
               this`pendingReconnectTimer, this`retryCount
      ensures View() == old(View()).(ackTimer := None, wssPing := false, reconnectTimer := None, pending := false,
                                     pendingTimer := false, retryCount := 0, tokenTimer := false)
    {
      tokenRefreshTimer := false;
      connectAckTimer := None;
      wssPing := false;
      reconnectTimer := None;
      pendingReconnect := false;
      pendingReconnectTimer := false;
      retryCount := 0;
    }

    method ConnectTo(settings: Settings)
      requires Valid()
      modifies this
      ensures Valid() && View() == OnConnect(old(View()), settings)
    {
      DisconnectNow();
      if HasWildcard(settings.topicPrefix) {
        status := Error;
        return;
      }
      lastSettings := Some(settings);
      retryCount := 0;
      DoConnectWith(settings);
    }

    method UpdateTokenTo(expiresAt: int, now: int)
      requires Valid()
      modifies this
      ensures Valid() && View() == OnUpdateToken(old(View()), expiresAt, now)
    {
      StoreToken(expiresAt, now);
      if pendingReconnect && lastSettings.Some? {
        pendingReconnect := false;
        pendingReconnectTimer := false;
        DoConnectWith(lastSettings.value);
      }
    }

    /** The new expiry and the refresh timer that goes with it. */
    method StoreToken(expiresAt: int, now: int)
      modifies this`lastSettings, this`tokenRefreshTimer
      ensures lastSettings == if old(lastSettings).None? then None else Some(old(lastSettings).value.(tokenExpiresAt := expiresAt))
      ensures tokenRefreshTimer <==> lastSettings.Some? && status == Connected && lastSettings.value.RefreshesToken(now)
    {
      if lastSettings.Some? { lastSettings := Some(lastSettings.value.(tokenExpiresAt := expiresAt)); }
      tokenRefreshTimer := false;
      if status == Connected { ScheduleTokenRefresh(now); }
    }

    /** Arms the timer unless the token is missing or already within its grace period. */
    method ScheduleTokenRefresh(now: int)
      modifies this`tokenRefreshTimer
      ensures tokenRefreshTimer <==> lastSettings.Some? && status == Connected && lastSettings.value.RefreshesToken(now)
    {
      tokenRefreshTimer := false;
      if lastSettings.None? || lastSettings.value.tokenExpiresAt == 0 || status != Connected { return; }
      var timeUntilExpiry := lastSettings.value.tokenExpiresAt - now;
      var refreshAt := Max(0, timeUntilExpiry - TOKEN_GRACE_PERIOD_MS);
      var scheduleMs := Min(refreshAt, 54 * 60 * 1000);
      if scheduleMs <= 0 { return; }
      tokenRefreshTimer := true;
    }

    /** `requested` says that a token is asked for. */
    method TokenRefreshTimerFires() returns (requested: bool)
      requires Enabled(View(), TokenTimerFires)
      modifies this`tokenRefreshTimer
      ensures View() == Step(old(View()), TokenTimerFires) && requested == RequestsRefresh(old(View()))
    {
      tokenRefreshTimer := false;
      return status == Connected && lastSettings.Some?;
    }

    method DelayedSubscribeFires(topic: string)
      requires Valid() && Enabled(View(), DelayFires(topic))
      modifies this
      ensures Valid() && View() == OnDelayFires(old(View()), topic)
    {
      delayedSubscribes := RemoveOne(delayedSubscribes, topic);
      if status != Connected || client.None? { return; }
      var c := clients[client.value];
      clients := clients[client.value := c.(subscribed := c.subscribed + [topic])];
    }

    method HandlePowerSuspend()
      modifies this
      ensures View() == OnSuspend(old(View()))
    {
      connectionWatchdog := None;
      reconnectTimer := None;
      pendingReconnectTimer := false;
    }

    method HandlePowerResume(now: int) returns (requested: bool)
      requires Valid()
      modifies this
      ensures Valid() && View() == OnResume(old(View()), now)
      ensures requested <==> old(lastSettings).Some? && old(lastSettings).value.tokenExpiresAt != 0
    {
      lastPacketReceivedAt := now;
      connectionWatchdog := None;
      if lastSettings.None? { return false; }
      RenewBudget();
      AbandonClient();
      requested := ReconnectAfterWake();
    }

    /** What a wake-up resets before it drops the client. */
    method RenewBudget()
      modifies this`retryCount, this`powerWakeReconnect, this`reconnectTimer, this`pendingReconnectTimer, this`pendingReconnect
      ensures View() == old(View()).(retryCount := 0, powerWake := true, reconnectTimer := None, pendingTimer := false, pending := false)
    {
      retryCount := 0;
      powerWakeReconnect := true;
      reconnectTimer := None;
      pendingReconnectTimer := false;
      pendingReconnect := false;
    }

    method AbandonClient()
      requires Valid()
      modifies this
      ensures Valid() && View() == DropClient(old(View()).(status := Disconnected))
    {
      ForceEndClient();
      if status == Error { status := Disconnected; }
      if status == Connected || status == Connecting { status := Disconnected; }
    }

    method ReconnectAfterWake() returns (requested: bool)
      requires Valid() && lastSettings.Some?
      modifies this
      ensures Valid() && View() == WakeReconnect(old(View()))
      ensures requested <==> old(lastSettings).value.tokenExpiresAt != 0
    {
      requested := lastSettings.value.NeedsToken();
      if requested {
        pendingReconnect := true;
        pendingReconnectTimer := true;
      } else {
        DoConnectWith(lastSettings.value);
      }
    }

    method HandleError(id: nat)
      requires Valid() && Enabled(View(), ClientError(id))
      modifies this
      ensures Valid() && View() == OnClientError(old(View()), id)
    {
      if client != Some(id) { return; }
      connectAckTimer := None;
      if status == Connecting { status := Disconnected; }
    }

    method HandleConnect(id: nat, now: int)
      requires Valid() && Enabled(View(), ClientConnect(id, now))
      modifies this
      ensures Valid() && View() == OnClientConnect(old(View()), id, now)
    {
      clients := clients[id := clients[id].(acked := Some(now))];
      if client != Some(id) { return; }
      BeginSession(now, clients[id].settings);
    }

    method BeginSession(now: int, settings: Settings)
      modifies this
      ensures View() == StartSession(old(View()), now, settings)
    {
      BecomeConnected(now);
      ArmTimers(now, settings);
    }

    method BecomeConnected(now: int)
      modifies this`connectAckTimer, this`lastConnected, this`lastPacketReceivedAt, this`status, this`connectionWatchdog
      ensures View() == MarkConnected(old(View()), now)
    {
      connectAckTimer := None;
      lastConnected := Some(now);
      lastPacketReceivedAt := now;
      status := Connected;
      connectionWatchdog := Some(if lastSettings.Some? then lastSettings.value.WatchdogMs() else 45_000);
    }

    method ArmTimers(now: int, settings: Settings)
      modifies this`delayedSubscribes, this`wssPing, this`tokenRefreshTimer
      ensures View() == ArmSession(old(View()), now, settings)
    {
      DelaySubscribe(settings.publishOnly, settings.Topic());
      if settings.useWebSocket { wssPing := true; }
      ScheduleTokenRefresh(now);
    }

    /** Nothing for publish-only brokers. */
    method DelaySubscribe(publishOnly: bool, topic: string)
      modifies this`delayedSubscribes
      ensures delayedSubscribes == if publishOnly then old(delayedSubscribes) else old(delayedSubscribes) + [topic]
    {
      if !publishOnly { delayedSubscribes := delayedSubscribes + [topic]; }
    }

    method HandlePacket(id: nat, now: int)
      requires Valid() && Enabled(View(), ClientPacket(id, now))
      modifies this
      ensures Valid() && View() == OnClientPacket(old(View()), id, now)
    {
      if client != Some(id) { return; }
      lastPacketReceivedAt := now;
    }

    method HandleClose(id: nat, now: int)
      requires Valid() && Enabled(View(), ClientClose(id, now))
      modifies this
      ensures Valid() && View() == OnClientClose(old(View()), id, now)
    {
      clients := clients[id := clients[id].(closed := true)];
      if client != Some(id) { return; }
      var skipReconnect := status == Error || lastSettings.None?;
      EndSession();
      if skipReconnect { return; }
      ScheduleReconnect(now);
    }

    method EndSession()
      modifies this
      ensures View() == CloseSession(old(View()))
    {
      wssPing := false;
      connectionWatchdog := None;
      connectAckTimer := None;
      reconnectTimer := None;
      if status == Connected || status == Connecting { status := Disconnected; }
    }

    method ScheduleReconnect(now: int)
      requires lastSettings.Some?
      modifies this
      ensures View() == ScheduleRetry(old(View()), now)
    {
      var sessionDuration := if lastConnected.Some? && lastConnected.value != 0 then now - lastConnected.value else 0;
      if sessionDuration >= STABLE_THRESHOLD_MS { retryCount := 0; }
      var maxRetries := lastSettings.value.MaxRetries();
      if retryCount >= maxRetries {
        status := Error;
        return;
      }
      retryCount := retryCount + 1;
      if lastSettings.value.NeedsToken() {
        powerWakeReconnect := false;
        reconnectTimer := Some(RequestToken);
      } else {
        reconnectTimer := Some(Reconnect);
      }
    }

    method HandleOffline(id: nat)
      requires Valid() && Enabled(View(), ClientOffline(id))
      modifies this
      ensures Valid() && View() == OnClientOffline(old(View()), id)
    {
      if client != Some(id) { return; }
      if status == Connected || status == Connecting { status := Disconnected; }
    }

    method ConnectAckTimerFires()
      requires Valid() && Enabled(View(), AckFires)
      modifies this
      ensures Valid() && View() == OnAckFires(old(View()))
    {
      var owner := connectAckTimer;
      connectAckTimer := None;
      if client != owner { return; }
      if status != Connecting { return; }
      ForceEndClient();
      status := Disconnected;
    }

    /** `requested` says that a token is asked for, which opens the wait. */
    method ReconnectTimerFires() returns (requested: bool)
      requires Valid() && Enabled(View(), ReconnectFires)
      modifies this
      ensures Valid() && View() == OnReconnectFires(old(View()))
      ensures requested <==> old(lastSettings).Some? && old(reconnectTimer) == Some(RequestToken)
      ensures requested ==> pendingReconnect && pendingReconnectTimer && clients == old(clients)
    {
      var route := reconnectTimer.value;
      reconnectTimer := None;
      if lastSettings.None? { return false; }
      if route == RequestToken {
        pendingReconnect := true;
        pendingReconnectTimer := true;
        return true;
      }
      DoConnectWith(lastSettings.value);
      return false;
    }

    method PendingReconnectTimerFires()
      requires Valid() && Enabled(View(), PendingFires)
      modifies this
      ensures Valid() && View() == OnPendingFires(old(View()))
    {
      pendingReconnectTimer := false;
      if pendingReconnect && lastSettings.Some? {
        pendingReconnect := false;
        DoConnectWith(lastSettings.value);
      }
    }

    method ConnectionWatchdogFires(now: int)
      requires Valid() && Enabled(View(), WatchdogFires(now))
      modifies this
      ensures Valid() && View() == OnWatchdogFires(old(View()), now)
    {
      if status != Connected || client.None? || lastPacketReceivedAt == 0 { return; }
      if now - lastPacketReceivedAt > connectionWatchdog.value {
        clients := clients[client.value := clients[client.value].(ended := true)];
      }
    }
  }
}
