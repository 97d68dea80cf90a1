/** The device-selection session of Web Bluetooth on Linux. */
module DeviceChooser {
  import opened Common
  import OrderedMap

  // ---------------------------------------------------------------- state

  /** The closure of an armed stale timer. */
  datatype Timer = Timer(generation: nat, callback: int)

  /** One call of a retained callback. */
  datatype Fired = Fired(generation: nat, callback: int, deviceId: string)

  /**
   * The four fields of the class, then the history of the run: the callbacks called, the callback and
   * the device ids of every generation (the first is generation 1), the generations dropped by `clear`.
   */
  datatype State = State(
    pending: Option<int>, devices: OrderedMap.OMap<string>, generation: nat, timer: Option<Timer>,
    log: seq<Fired>, starts: map<nat, int>, found: map<nat, set<string>>, dropped: set<nat>)

  const INITIAL := State(None, [], 0, None, [], map[], map[], {})

  type Discovery = seq<(string, Option<string>)>

  /**
   * The calls. `during` is what the callback does when it is called: it may use the session again,
   * to any depth; `stale` is what `onStale` does afterwards.
   */
  datatype Call =
    | Discover(list: Discovery, callback: int)
    | ArmTimeout
    | TimerFires(during: seq<Call>, stale: seq<Call>)
    | Resolve(deviceId: string, during: seq<Call>)
    | Cancel(during: seq<Call>)
    | CancelGeneration(generation: int, during: seq<Call>)
    | ApplyCancel(wanted: Option<int>, during: seq<Call>)
    | CancelCallback(callback: int, during: seq<Call>)
    | Clear

  // ---------------------------------------------------------------- one call up to its callback

  /** A listed device with its name, or a default one. */
  function Named(d: (string, Option<string>)): (string, string) {
    (d.0, if d.1.None? || d.1.value == "" then "Unknown Device" else d.1.value)
  }

  /** The entries a discovery contributes: no empty ids, a default name. */
  function Listed(list: Discovery): OrderedMap.OMap<string> {
    if list == [] then []
    else
      var n := |list| - 1;
      var d := list[n];
      Listed(list[..n]) + (if d.0 == "" then [] else [Named(d)])
  }

  function Ids(list: Discovery): set<string> { OrderedMap.Keys(Listed(list)) }

  predicate Knows(s: State, id: string) { OrderedMap.Get(s.devices, id).Some? }

  function FoundIn(s: State, g: nat): set<string> { if g in s.found then s.found[g] else {} }

  function Begun(s: State, callback: int): State {
    var g := s.generation + 1;
    s.(pending := Some(callback), devices := [], generation := g, timer := None,
       starts := s.starts[g := callback], found := s.found[g := {}])
  }

  function Merged(s: State, list: Discovery): State {
    s.(devices := OrderedMap.PutAll(s.devices, Listed(list)),
       found := s.found[s.generation := FoundIn(s, s.generation) + Ids(list)])
  }

  function OnDiscover(s: State, list: Discovery, callback: int): State {
    Merged(if s.pending.None? then Begun(s, callback) else s, list)
  }

  /** The id a call hands to the pending callback, if it reaches it. */
  function Passes(s: State, call: Call): Option<string> {
    if s.pending.None? then None
    else
      match call
      case TimerFires(_, _) => if s.timer == Some(Timer(s.generation, s.pending.value)) then Some("") else None
      case Resolve(id, _) => if id == "" || Knows(s, id) then Some(id) else None
      case Cancel(_) => Some("")
      case CancelGeneration(g, _) => if g == s.generation then Some("") else None
      case ApplyCancel(wanted, _) => if wanted.None? || wanted.value == s.generation then Some("") else None
      case CancelCallback(callback, _) => if s.pending.value == callback then Some("") else None
      case _ => None
  }

  function Closed(s: State): State { s.(pending := None, devices := [], timer := None) }

  function Fire(s: State, id: string): State
    requires s.pending.Some?
  {
    Closed(s).(log := s.log + [Fired(s.generation, s.pending.value, id)])
  }

  /** A call up to and including the invocation of the callback. */
  function Step(s: State, call: Call): State {
    match call
    case Discover(list, callback) => OnDiscover(s, list, callback)
    case ArmTimeout => s.(timer := if s.pending.None? then None else Some(Timer(s.generation, s.pending.value)))
    case Clear => if s.pending.None? then Closed(s) else Closed(s).(dropped := s.dropped + {s.generation})
    case TimerFires(_, _) => if Passes(s, call).Some? then Fire(s, Passes(s, call).value) else s.(timer := None)
    case _ => if Passes(s, call).Some? then Fire(s, Passes(s, call).value) else s
  }

  // ---------------------------------------------------------------- runs

  function Nested(call: Call): (r: seq<Call>)
    ensures Depth(r) < CallDepth(call)
  {
    match call
    case TimerFires(during, stale) => DepthConcat(during, stale); during + stale
    case Resolve(_, during) => during
    case Cancel(during) => during
    case CancelGeneration(_, during) => during
    case ApplyCancel(_, during) => during
    case CancelCallback(_, during) => during
    case _ => []
  }

  /** The number of calls in a tree of calls. */
  function Depth(calls: seq<Call>): nat { if calls == [] then 0 else CallDepth(calls[0]) + Depth(calls[1..]) }

  function CallDepth(call: Call): (n: nat)
    ensures n >= 1
  {
    match call
    case TimerFires(during, stale) => 1 + Depth(during) + Depth(stale)
    case Resolve(_, during) => 1 + Depth(during)
    case Cancel(during) => 1 + Depth(during)
    case CancelGeneration(_, during) => 1 + Depth(during)
    case ApplyCancel(_, during) => 1 + Depth(during)
    case CancelCallback(_, during) => 1 + Depth(during)
    case _ => 1
  }

  lemma {:induction false} DepthConcat(a: seq<Call>, b: seq<Call>)
    ensures Depth(a + b) == Depth(a) + Depth(b)
  {
    if a == [] {
      assert a + b == b;
    } else {
      assert (a + b)[1..] == a[1..] + b;
      DepthConcat(a[1..], b);
    }
  }

  /** Calls one after the other, each with what its callback does. */
  function Exec(s: State, calls: seq<Call>): State
    decreases Depth(calls), 1
  {
    if calls == [] then s else Exec(ExecCall(s, calls[0]), calls[1..])
  }

  function ExecCall(s: State, call: Call): State
    decreases CallDepth(call), 0
  {
    if Passes(s, call).Some? then Exec(Step(s, call), Nested(call)) else Step(s, call)
  }

  /** The same without nesting. */
  function Run(s: State, calls: seq<Call>): State
    decreases |calls|
  {
    if calls == [] then s else Run(Step(s, calls[0]), calls[1..])
  }

  /** The calls in the order in which they reach the session. */
  function Trace(s: State, calls: seq<Call>): seq<Call>
    decreases Depth(calls), 1
  {
    if calls == [] then [] else [calls[0]] + Inner(s, calls[0]) + Trace(ExecCall(s, calls[0]), calls[1..])
  }

  /** The calls made while a call's callback runs. */
  function Inner(s: State, call: Call): seq<Call>
    decreases CallDepth(call), 0
  {
    if Passes(s, call).Some? then Trace(Step(s, call), Nested(call)) else []
  }

  lemma {:induction false} RunConcat(s: State, a: seq<Call>, b: seq<Call>)
    ensures Run(s, a + b) == Run(Run(s, a), b)
    decreases |a|
  {
    if a == [] {
      assert a + b == b;
    } else {
      assert (a + b)[0] == a[0] && (a + b)[1..] == a[1..] + b;
      RunConcat(Step(s, a[0]), a[1..], b);
    }
  }

  /** A re-entrant run is a plain run of the calls in the order they arrive. */
  lemma {:induction false} NestingIsOrder(s: State, calls: seq<Call>)
    ensures Exec(s, calls) == Run(s, Trace(s, calls))
    decreases Depth(calls), 1
  {
    if calls != [] {
      var first := [calls[0]] + Inner(s, calls[0]);
      var after := ExecCall(s, calls[0]);
      CallIsOrder(s, calls[0]);
      NestingIsOrder(after, calls[1..]);
      RunConcat(s, first, Trace(after, calls[1..]));
    }
  }

  lemma {:induction false} CallIsOrder(s: State, call: Call)
    ensures Run(s, [call] + Inner(s, call)) == ExecCall(s, call)
    decreases CallDepth(call), 0
  {
    assert ([call] + Inner(s, call))[1..] == Inner(s, call);
    if Passes(s, call).Some? { NestingIsOrder(Step(s, call), Nested(call)); }
  }

  // ---------------------------------------------------------------- what every run keeps

  /** How often the callback of a generation was called. */
  function Calls(log: seq<Fired>, g: nat): nat {
    if log == [] then 0
    else
      var n := |log| - 1;
      Calls(log[..n], g) + (if log[n].generation == g then 1 else 0)
  }

  predicate IsOpen(s: State, g: nat) { s.pending.Some? && g == s.generation }

  ghost predicate Histories(s: State) {
    && (forall g :: g in s.starts <==> 1 <= g <= s.generation)
    && (forall g :: g in s.found <==> 1 <= g <= s.generation)
    && (forall g <- s.dropped :: 1 <= g <= s.generation)
  }

  ghost predicate Session(s: State) {
    && (s.pending.Some? ==>
          && s.generation in s.starts && s.starts[s.generation] == s.pending.value
          && forall id :: Knows(s, id) <==> id in FoundIn(s, s.generation))
    && (s.pending.None? ==> s.devices == [] && s.timer.None?)
    && (s.timer.Some? ==> s.pending.Some? && s.timer.value == Timer(s.generation, s.pending.value))
  }

  /** A call of a callback went to the generation's first callback, with '' or an id it had found. */
  predicate Legitimate(s: State, e: Fired) {
    && e.generation in s.starts && e.callback == s.starts[e.generation]
    && (e.deviceId == "" || e.deviceId in FoundIn(s, e.generation))
  }

  /** A generation is open, was dropped, or its callback was called: exactly one of these, and once. */
  predicate Accounted(s: State, g: nat) {
    Calls(s.log, g) + (if g in s.dropped then 1 else 0) + (if IsOpen(s, g) then 1 else 0) == 1
  }

  ghost predicate Inv(s: State) {
    && Histories(s)
    && Session(s)
    && (forall e <- s.log :: Legitimate(s, e))
    && (forall g :: 1 <= g <= s.generation ==> Accounted(s, g))
  }

  lemma {:induction false} NoCallsYet(s: State, log: seq<Fired>, g: nat)
    requires Histories(s) && (forall e <- log :: Legitimate(s, e)) && g > s.generation
    ensures Calls(log, g) == 0
  {
    if log != [] {
      var n := |log| - 1;
      assert log[n] in log;
      NoCallsYet(s, log[..n], g);
    }
  }

  lemma BegunInv(s: State, callback: int)
    requires Inv(s) && s.pending.None?
    ensures Inv(Begun(s, callback))
  {
    var t := Begun(s, callback);
    NoCallsYet(s, s.log, t.generation);
    forall e | e in s.log ensures Legitimate(t, e) { assert Legitimate(s, e); }
    forall g | 1 <= g <= t.generation ensures Accounted(t, g) {
      if g < t.generation { assert Accounted(s, g); }
    }
  }

  lemma MergedInv(s: State, list: Discovery)
    requires Inv(s) && s.pending.Some?
    ensures Inv(Merged(s, list))
  {
    var t := Merged(s, list);
    forall id: string ensures Knows(t, id) <==> id in FoundIn(t, t.generation) {
      OrderedMap.KeysPutAll(s.devices, Listed(list), id);
      assert Knows(s, id) <==> id in FoundIn(s, s.generation);
    }
    forall e | e in s.log ensures Legitimate(t, e) { assert Legitimate(s, e); }
    forall g | 1 <= g <= t.generation ensures Accounted(t, g) { assert Accounted(s, g); }
  }

  lemma FireInv(s: State, id: string)
    requires Inv(s) && s.pending.Some? && (id == "" || Knows(s, id))
    ensures Inv(Fire(s, id))
  {
    var t := Fire(s, id);
    forall e | e in t.log ensures Legitimate(t, e) { assert e in s.log ==> Legitimate(s, e); }
    forall g | 1 <= g <= t.generation ensures Accounted(t, g) {
      assert Accounted(s, g);
      assert t.log[..|s.log|] == s.log;
    }
  }

  lemma ClearInv(s: State)
    requires Inv(s)
    ensures Inv(Step(s, Clear))
  {
    var t := Step(s, Clear);
    forall e | e in s.log ensures Legitimate(t, e) { assert Legitimate(s, e); }
    forall g | 1 <= g <= t.generation ensures Accounted(t, g) { assert Accounted(s, g); }
  }

  lemma StepInv(s: State, call: Call)
    requires Inv(s)
    ensures Inv(Step(s, call))
  {
    match call
    case Discover(list, callback) =>
      if s.pending.None? { BegunInv(s, callback); }
      MergedInv(if s.pending.None? then Begun(s, callback) else s, list);
    case Clear => ClearInv(s);
    case ArmTimeout => TimerInv(s, Step(s, call));
    case _ =>
      if Passes(s, call).Some? {
        FireInv(s, Passes(s, call).value);
      } else {
        TimerInv(s, Step(s, call));
      }
  }

  /** The invariant does not mind the timer being cleared or armed for the open session. */
  lemma TimerInv(s: State, t: State)
    requires Inv(s) && t == s.(timer := t.timer)
    requires t.timer == s.timer || t.timer == None || (s.pending.Some? && t.timer == Some(Timer(s.generation, s.pending.value)))
    ensures Inv(t)
  {
    forall id: string ensures Knows(t, id) == Knows(s, id) {
    }
    forall e | e in s.log ensures Legitimate(t, e) { assert Legitimate(s, e); }
    forall g | 1 <= g <= t.generation ensures Accounted(t, g) { assert Accounted(s, g); }
  }

  lemma {:induction false} RunInvFrom(s: State, calls: seq<Call>)
    requires Inv(s)
    ensures Inv(Run(s, calls))
    decreases |calls|
  {
    if calls != [] {
      StepInv(s, calls[0]);
      RunInvFrom(Step(s, calls[0]), calls[1..]);
    }
  }

  lemma RunInv(calls: seq<Call>)
    ensures Inv(Run(INITIAL, calls))
  {
    RunInvFrom(INITIAL, calls);
  }

  // ---------------------------------------------------------------- main results

  /**
   * In every run, whatever the callbacks do: each generation is open, was dropped by `clear`, or its
   * first callback was called exactly once, with '' or an id found in that generation.
   */
  lemma CalledExactlyOnce(calls: seq<Call>)
    ensures var s := Exec(INITIAL, calls);
      && (forall g: nat :: 1 <= g <= s.generation ==> Accounted(s, g))
      && (forall e <- s.log :: Legitimate(s, e))
  {
    NestingIsOrder(INITIAL, calls);
    RunInv(Trace(INITIAL, calls));
  }

  /** The generation a call asks to end. */
  function Aims(s: State, call: Call): Option<int> {
    match call
    case TimerFires(_, _) => if s.timer.Some? then Some(s.timer.value.generation as int) else None
    case CancelGeneration(g, _) => Some(g)
    case ApplyCancel(wanted, _) => wanted
    case _ => None
  }

  /**
   * No cancel or timer of one generation ends another: such a call ends exactly the generation it aims
   * at, if that is the open one, and otherwise leaves everything as it was.
   */
  lemma AimedCancel(calls: seq<Call>, call: Call)
    ensures var s := Run(INITIAL, calls);
      Aims(s, call).Some? ==>
        if s.pending.Some? && Aims(s, call).value == s.generation
        then Step(s, call) == Fire(s, "")
        else Step(s, call) == s
  {
    RunInv(calls);
  }

  /** An armed timer always belongs to the open session, so the guard inside it never fails. */
  lemma TimerIsLive(calls: seq<Call>)
    ensures var s := Run(INITIAL, calls);
      s.timer.Some? ==> s.pending.Some? && s.timer.value == Timer(s.generation, s.pending.value)
  {
    RunInv(calls);
  }

  /**
   * Cancelling by callback looks at the callback alone: called for generation `g`, it ends a different
   * generation exactly when that one is open and was begun with the same callback.
   */
  lemma CallbackCancelStraysIff(calls: seq<Call>, g: nat, during: seq<Call>)
    requires 1 <= g <= Run(INITIAL, calls).generation
    ensures var s := Run(INITIAL, calls);
      g in s.starts && s.generation in s.starts &&
      (Step(s, CancelCallback(s.starts[g], during)) == s || Step(s, CancelCallback(s.starts[g], during)) == Fire(s, "")) &&
      (Step(s, CancelCallback(s.starts[g], during)) != s && g != s.generation <==>
        s.pending.Some? && g != s.generation && s.starts[s.generation] == s.starts[g])
  {
    RunInv(calls);
  }

  /** Without `clear` every generation but the open one has had its callback called exactly once. */
  lemma {:induction false} NothingDropped(s: State, calls: seq<Call>)
    requires s.dropped == {} && Clear !in calls
    ensures Run(s, calls).dropped == {}
    decreases |calls|
  {
    if calls != [] {
      assert calls[0] in calls;
      NothingDropped(Step(s, calls[0]), calls[1..]);
    }
  }

  lemma AllCalledWithoutClear(calls: seq<Call>, g: nat)
    requires Clear !in calls && 1 <= g <= Run(INITIAL, calls).generation
    ensures var s := Run(INITIAL, calls);
      Calls(s.log, g) == if IsOpen(s, g) then 0 else 1
  {
    RunInv(calls);
    NothingDropped(INITIAL, calls);
    assert Accounted(Run(INITIAL, calls), g);
  }

  // ---------------------------------------------------------------- what each call leads to

  /** The open session ended and its callback was called once, with this id. */
  predicate HandsOver(s: State, t: State, id: string)
    requires s.pending.Some?
  {
    && t.log == s.log + [Fired(s.generation, s.pending.value, id)]
    && t.pending.None? && t.devices == [] && t.timer.None?
    && t.(log := s.log, pending := s.pending, devices := s.devices, timer := s.timer) == s
  }

  /**
   * A pick of a device that was found in the open session hands exactly that device to the retained
   * callback, '' hands over '', and any other id changes nothing: the session stays open.
   */
  lemma PickHandsOver(calls: seq<Call>, id: string, during: seq<Call>)
    ensures var s := Run(INITIAL, calls);
      var t := Step(s, Resolve(id, during));
      if s.pending.Some? && (id == "" || id in FoundIn(s, s.generation)) then HandsOver(s, t, id) else t == s
  {
    RunInv(calls);
    var s := Run(INITIAL, calls);
    assert s.pending.Some? ==> (Knows(s, id) <==> id in FoundIn(s, s.generation));
  }

  /** Every way to cancel hands '' to the callback of the open session; without one nothing happens. */
  lemma CancelHandsOver(s: State, during: seq<Call>)
    ensures s.pending.None? ==>
      && Step(s, Cancel(during)) == s && Step(s, ApplyCancel(None, during)) == s
      && forall c :: Step(s, CancelCallback(c, during)) == s
    ensures s.pending.Some? ==>
      && HandsOver(s, Step(s, Cancel(during)), "")
      && HandsOver(s, Step(s, ApplyCancel(None, during)), "")
      && HandsOver(s, Step(s, ApplyCancel(Some(s.generation), during)), "")
      && HandsOver(s, Step(s, CancelGeneration(s.generation, during)), "")
      && HandsOver(s, Step(s, CancelCallback(s.pending.value, during)), "")
      && forall c :: c != s.pending.value ==> Step(s, CancelCallback(c, during)) == s
  {
  }

  /** An armed timer cancels the session it was armed for; without a session there is none to arm. */
  lemma ArmedTimerCancels(s: State, during: seq<Call>, stale: seq<Call>)
    ensures var t := Step(s, ArmTimeout);
      && t.(timer := s.timer) == s
      && (if s.pending.Some? then t.timer.Some? && HandsOver(t, Step(t, TimerFires(during, stale)), "") else t.timer.None?)
  {
  }

  /** `clear` ends the session without a call. */
  lemma ClearCallsNothing(s: State)
    ensures var t := Step(s, Clear);
      && t.log == s.log && t.pending.None? && t.devices == [] && t.timer.None?
      && t.generation == s.generation && t.starts == s.starts && t.found == s.found
      && t.dropped == s.dropped + if s.pending.Some? then {s.generation} else {}
  {
  }

  /** A discovery opens the next generation with its callback, or keeps the one that is open with its own. */
  lemma DiscoveryOpens(calls: seq<Call>, list: Discovery, callback: int)
    ensures var s := Run(INITIAL, calls);
      var t := Step(s, Discover(list, callback));
      && t.log == s.log && t.dropped == s.dropped
      && (if s.pending.Some?
          then t.generation == s.generation && t.pending == s.pending && t.timer == s.timer
          else t.generation == s.generation + 1 && t.pending == Some(callback) && t.timer.None?)
      && FoundIn(t, t.generation) == (if s.pending.Some? then FoundIn(s, s.generation) else {}) + Ids(list)
  {
    RunInv(calls);
  }

  predicate Lists(list: Discovery, id: string) { exists k :: 0 <= k < |list| && list[k].0 == id }

  lemma ListsAppend(list: Discovery, d: (string, Option<string>), id: string)
    ensures Lists(list + [d], id) <==> Lists(list, id) || d.0 == id
  {
    var all := list + [d];
    assert all[|list|] == d;
    if Lists(list, id) {
      var k :| 0 <= k < |list| && list[k].0 == id;
      assert all[k].0 == id;
    }
  }

  /** The ids found are the ones listed, but for ''. */
  lemma {:induction false} IdsListed(list: Discovery, id: string)
    ensures id in Ids(list) <==> id != "" && Lists(list, id)
  {
    if list != [] {
      var n := |list| - 1;
      var d := list[n];
      IdsListed(list[..n], id);
      ListedStep(list, n);
      assert list[..n + 1] == list == list[..n] + [d];
      var added := if d.0 == "" then [] else [Named(d)];
      assert d.0 != "" ==> added[0].0 == d.0;
      OrderedMap.KeysAppend(Listed(list[..n]), added);
      ListsAppend(list[..n], d, id);
    }
  }

  /** The list keeps the name of the last listing of a device, and a stand-in for a missing name. */
  lemma {:induction false} LastListingNames(devices: OrderedMap.OMap<string>, list: Discovery, k: nat)
    requires k < |list| && list[k].0 != "" && forall j :: k < j < |list| ==> list[j].0 != list[k].0
    ensures OrderedMap.Get(OrderedMap.PutAll(devices, Listed(list)), list[k].0)
      == Some(if list[k].1.None? || list[k].1.value == "" then "Unknown Device" else list[k].1.value)
    decreases |list|
  {
    var n := |list| - 1;
    assert list[..n + 1] == list;
    ListedPut(devices, list, n, list[k].0);
    if k < n { LastListingNames(devices, list[..n], k); }
  }

  /** A device that is not listed keeps its name. */
  lemma {:induction false} UnlistedKeeps(devices: OrderedMap.OMap<string>, list: Discovery, id: string)
    requires forall j :: 0 <= j < |list| ==> list[j].0 != id
    ensures OrderedMap.Get(OrderedMap.PutAll(devices, Listed(list)), id) == OrderedMap.Get(devices, id)
    decreases |list|
  {
    if list != [] {
      var n := |list| - 1;
      assert list[..n + 1] == list;
      ListedPut(devices, list, n, id);
      UnlistedKeeps(devices, list[..n], id);
    }
  }

  lemma ListedPut(devices: OrderedMap.OMap<string>, list: Discovery, n: nat, id: string)
    requires n < |list|
    ensures OrderedMap.Get(OrderedMap.PutAll(devices, Listed(list[..n + 1])), id) ==
      if list[n].0 != "" && list[n].0 == id
      then Some(if list[n].1.None? || list[n].1.value == "" then "Unknown Device" else list[n].1.value)
      else OrderedMap.Get(OrderedMap.PutAll(devices, Listed(list[..n])), id)
  {
    ListedStep(list, n);
    var d := list[n];
    if d.0 == "" {
      assert Listed(list[..n]) + [] == Listed(list[..n]);
    } else {
      var name := if d.1.None? || d.1.value == "" then "Unknown Device" else d.1.value;
      PutAllStep(devices, Listed(list[..n]), d.0, name);
      OrderedMap.GetPut(OrderedMap.PutAll(devices, Listed(list[..n])), d.0, name, id);
    }
  }

  // ---------------------------------------------------------------- the class

  datatype CancelResult =
    | Cancelled(byGeneration: bool, generation: int)
    | Ignored(wanted: int, active: Option<nat>)
    | NothingToForce

  /** What `applyCancel` reports. */
  function Report(s: State, wanted: Option<int>): CancelResult {
    match wanted
    case Some(g) =>
      if s.pending.Some? && g == s.generation then Cancelled(true, g)
      else Ignored(g, if s.pending.Some? then Some(s.generation) else None)
    case None => if s.pending.Some? then Cancelled(false, s.generation) else NothingToForce
  }

  /** A report says cancelled exactly when the call reached the callback, and names the generation it ended. */
  lemma ReportIsTrue(s: State, wanted: Option<int>, during: seq<Call>)
    ensures Report(s, wanted).Cancelled? <==> Passes(s, ApplyCancel(wanted, during)).Some?
    ensures Report(s, wanted).Cancelled? ==>
      Step(s, ApplyCancel(wanted, during)).log[|s.log|..] == [Fired(s.generation, s.pending.value, "")] &&
      Report(s, wanted).generation == s.generation
    ensures !Report(s, wanted).Cancelled? ==> Step(s, ApplyCancel(wanted, during)) == s
  {
  }

  class DeviceSelection {
    var pendingCallback: Option<int>
    var devices: OrderedMap.OMap<string>
    var generation: nat
    var selectionTimer: Option<Timer>
    ghost var log: seq<Fired>
    ghost var starts: map<nat, int>
    ghost var found: map<nat, set<string>>
    ghost var dropped: set<nat>

    ghost function View(): State
      reads this
    {
      State(pendingCallback, devices, generation, selectionTimer, log, starts, found, dropped)
    }

    constructor ()
      ensures View() == INITIAL
    {
      pendingCallback, devices, generation, selectionTimer := None, [], 0, None;
      log, starts, found, dropped := [], map[], map[], {};
    }

    /** A discovery event: the first opens the session and its callback stays. */
    method BeginOrMergeDiscovery(list: Discovery, callback: int) returns (isNew: bool, all: OrderedMap.OMap<string>, gen: nat)
      modifies this
      ensures View() == Step(old(View()), Discover(list, callback))
      ensures isNew == old(pendingCallback).None? && all == devices && gen == generation
    {
      isNew := pendingCallback.None?;
      if isNew { OpenSession(callback); }
      AddFound(list);
      all, gen := devices, generation;
    }

    method OpenSession(callback: int)
      modifies this
      ensures View() == Begun(old(View()), callback)
    {
      selectionTimer := None;
      generation := generation + 1;
      pendingCallback := Some(callback);
      devices := [];
      starts, found := starts[generation := callback], found[generation := {}];
    }

    method AddFound(list: Discovery)
      modifies this`devices, this`found
      ensures View() == Merged(old(View()), list)
    {
      MergeDevices(list);
      found := found[generation := FoundIn(View(), generation) + Ids(list)];
    }

    method MergeDevices(list: Discovery)
      modifies this`devices
      ensures devices == OrderedMap.PutAll(old(devices), Listed(list))
    {
      for n := 0 to |list|
        invariant devices == OrderedMap.PutAll(old(devices), Listed(list[..n]))
      {
        ListedStep(list, n);
        var deviceId := list[n].0;
        if deviceId == "" {
          assert Listed(list[..n]) + [] == Listed(list[..n]);
          continue;
        }
        var deviceName := if list[n].1.None? || list[n].1.value == "" then "Unknown Device" else list[n].1.value;
        PutAllStep(old(devices), Listed(list[..n]), deviceId, deviceName);
        devices := OrderedMap.Put(devices, deviceId, deviceName);
      }
      assert list[..|list|] == list;
    }

    method ArmStaleTimeout()
      modifies this
      ensures View() == Step(old(View()), ArmTimeout)
    {
      selectionTimer := None;
      if pendingCallback.None? { return; }
      selectionTimer := Some(Timer(generation, pendingCallback.value));
    }

    /** The timeout fires with the closure it was armed with; `cancelled` leads to `onStale`. */
    method StaleTimerFires() returns (cancelled: bool)
      requires selectionTimer.Some?
      modifies this
      ensures View() == Step(old(View()), TimerFires([], []))
      ensures cancelled == Passes(old(View()), TimerFires([], [])).Some?
    {
      var timer := selectionTimer.value;
      selectionTimer := None;
      if generation != timer.generation || pendingCallback != Some(timer.callback) { return false; }
      cancelled := CancelSelection();
    }

    /** The callback is called last, when the session is already closed: what it does comes after. */
    method ResolveSelection(deviceId: string) returns (resolved: bool)
      modifies this
      ensures View() == Step(old(View()), Resolve(deviceId, []))
      ensures resolved == Passes(old(View()), Resolve(deviceId, [])).Some?
      ensures log == old(log) + if resolved then [Fired(old(generation), old(pendingCallback).value, deviceId)] else []
    {
      if pendingCallback.None? { return false; }
      if deviceId != "" && OrderedMap.Get(devices, deviceId).None? { return false; }
      InvokeCallback(deviceId);
      return true;
    }

    method CancelSelection() returns (cancelled: bool)
      modifies this
      ensures View() == Step(old(View()), Cancel([]))
      ensures cancelled == old(pendingCallback).Some?
    {
      if pendingCallback.None? { return false; }
      InvokeCallback("");
      return true;
    }

    /** `const cb = this.pendingCallback; this.clear(); cb(deviceId)`. */
    method InvokeCallback(deviceId: string)
      requires pendingCallback.Some?
      modifies this
      ensures View() == Fire(old(View()), deviceId)
    {
      ghost var call := Fired(generation, pendingCallback.value, deviceId);
      ClearFields();
      log := log + [call];
    }

    method CancelIfGeneration(wanted: int) returns (cancelled: bool)
      modifies this
      ensures View() == Step(old(View()), CancelGeneration(wanted, []))
      ensures cancelled == Passes(old(View()), CancelGeneration(wanted, [])).Some?
    {
      if pendingCallback.None? { return false; }
      if generation != wanted { return false; }
      cancelled := CancelSelection();
    }

    /** `wanted` is `None` for anything but a finite number. */
    method ApplyCancelRequest(wanted: Option<int>) returns (result: CancelResult)
      modifies this
      ensures View() == Step(old(View()), ApplyCancel(wanted, []))
      ensures result == Report(old(View()), wanted)
    {
      var activeGeneration := generation;
      if wanted.Some? {
        var byGeneration := CancelIfGeneration(wanted.value);
        if byGeneration { return Cancelled(true, wanted.value); }
        return Ignored(wanted.value, if pendingCallback.Some? then Some(activeGeneration) else None);
      }
      var forced := CancelSelection();
      if forced { return Cancelled(false, activeGeneration); }
      return NothingToForce;
    }

    method CancelIfCallback(callback: int) returns (cancelled: bool)
      modifies this
      ensures View() == Step(old(View()), CancelCallback(callback, []))
      ensures cancelled == Passes(old(View()), CancelCallback(callback, [])).Some?
    {
      if pendingCallback != Some(callback) { return false; }
      cancelled := CancelSelection();
    }

    method ClearSelection()
      modifies this
      ensures View() == Step(old(View()), Clear)
    {
      if pendingCallback.Some? { dropped := dropped + {generation}; }
      ClearFields();
    }

    method ClearFields()
      modifies this`selectionTimer, this`pendingCallback, this`devices
      ensures View() == Closed(old(View()))
    {
      selectionTimer := None;
      pendingCallback := None;
      devices := [];
    }
  }

  lemma ListedStep(list: Discovery, n: nat)
    requires n < |list|
    ensures var d := list[n];
      Listed(list[..n + 1]) == Listed(list[..n]) + (if d.0 == "" then [] else [Named(d)])
  {
    assert list[..n + 1][..n] == list[..n];
  }

  lemma PutAllStep(m: OrderedMap.OMap<string>, more: OrderedMap.OMap<string>, k: string, v: string)
    ensures OrderedMap.PutAll(m, more + [(k, v)]) == OrderedMap.Put(OrderedMap.PutAll(m, more), k, v)
  {
    assert (more + [(k, v)])[..|more|] == more;
  }
}
