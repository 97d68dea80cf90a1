/**
 * The Bluetooth scan mutex: a re-entrant lock by owner whose first acquire may await the pause of the
 * Noble scan.  Every call of `acquireScan` is a task with an explicit program counter, and every
 * await is a scheduling point, so a run is any interleaving of task steps and release calls.
 */
module ScanMutex {
  import opened Common

  datatype Owner = Noble | Reticulum | WebBt

  /**
   * `Waiting(p)` awaits the in-flight acquire of task `p`; `Pausing` awaits the Noble pause inside the
   * critical section; `Acquired` got the scan and has yet to resume its caller, the Noble yield;
   * `Disconnecting` awaits the end of the GATT sessions; the rest are over or hold the scan.
   */
  datatype Phase = Waiting(on: nat) | Pausing | Acquired | Disconnecting | Holding | Failed | Released

  /** `yielding` marks the calls made by `suspendNobleForReticulumBleConnect`. */
  datatype Task = Task(owner: Owner, yielding: bool, phase: Phase)

  /** `inFlight` names the task that created the promise; `pauses` and `resumes` count calls on the manager. */
  datatype State = State(
    scanOwner: Option<Owner>, depth: nat, inFlight: Option<nat>, manager: bool, paused: bool, gattPlatform: bool,
    tasks: seq<Task>, pauses: nat, resumes: nat)

  datatype Event =
    | Acquire(owner: Owner)
    | Yield
    | Wake(t: nat)
    | PauseDone(t: nat, ok: bool)
    | StartDisconnect(t: nat)
    | DisconnectDone(t: nat, ok: bool)
    | ReleaseBy(t: nat)
    | Release(owner: Owner)
    | SetManager

  function Initial(manager: bool, gattPlatform: bool): State {
    State(None, 0, None, manager, false, gattPlatform, [], 0, 0)
  }

  predicate At(s: State, t: nat, phase: Phase) { t < |s.tasks| && s.tasks[t].phase == phase }

  /** The promise of task `p` is resolved once that task left its critical section. */
  predicate Resolved(s: State, p: nat) { !At(s, p, Pausing) }

  predicate Enabled(s: State, e: Event) {
    match e
    case Wake(t) => t < |s.tasks| && s.tasks[t].phase.Waiting? && Resolved(s, s.tasks[t].phase.on)
    case PauseDone(t, _) => At(s, t, Pausing)
    case StartDisconnect(t) => At(s, t, Acquired)
    case DisconnectDone(t, _) => At(s, t, Disconnecting)
    case ReleaseBy(t) => At(s, t, Holding)
    case _ => true
  }

  // ---------------------------------------------------------------- meaning of the steps

  function Goto(s: State, t: nat, phase: Phase): State
    requires t < |s.tasks|
  {
    s.(tasks := s.tasks[t := s.tasks[t].(phase := phase)])
  }

  function Granted(s: State, t: nat): State
    requires t < |s.tasks|
  {
    Goto(s, t, if s.tasks[t].yielding then Acquired else Holding)
  }

  /** `acquireScan` from its first line to its first await or its end. */
  function Enter(s: State, t: nat): State
    requires t < |s.tasks|
  {
    var owner := s.tasks[t].owner;
    if s.inFlight.Some? then Goto(s, t, Waiting(s.inFlight.value))
    else if s.scanOwner == Some(owner) then Granted(s.(depth := s.depth + 1), t)
    else if s.scanOwner.Some? then Goto(s, t, Failed)
    else if owner == Reticulum && s.manager then Goto(s.(inFlight := Some(t)), t, Pausing)
    else Granted(s.(scanOwner := Some(owner), depth := 1), t)
  }

  function Call(s: State, owner: Owner, yielding: bool): State {
    Enter(s.(tasks := s.tasks + [Task(owner, yielding, Failed)]), |s.tasks|)
  }

  function OnPauseDone(s: State, t: nat, ok: bool): State
    requires t < |s.tasks|
  {
    var r := s.(inFlight := None);
    if ok then Granted(r.(pauses := s.pauses + 1, paused := true, scanOwner := Some(s.tasks[t].owner), depth := 1), t)
    else Goto(r, t, Failed)
  }

  function ReleaseScan(s: State, owner: Owner): State {
    if s.scanOwner != Some(owner) then s
    else if s.depth > 1 then s.(depth := s.depth - 1)
    else
      var r := s.(depth := 0, scanOwner := None);
      if owner == Reticulum && s.paused && s.manager then r.(paused := false, resumes := s.resumes + 1) else r
  }

  function OnStartDisconnect(s: State, t: nat): State
    requires t < |s.tasks|
  {
    Goto(s, t, if s.manager && s.gattPlatform then Disconnecting else Holding)
  }

  function OnDisconnectDone(s: State, t: nat, ok: bool): State
    requires t < |s.tasks|
  {
    if ok then Goto(s, t, Holding) else Goto(ReleaseScan(s, Reticulum), t, Failed)
  }

  function Step(s: State, e: Event): State
    requires Enabled(s, e)
  {
    match e
    case Acquire(owner) => Call(s, owner, false)
    case Yield => Call(s, Reticulum, true)
    case Wake(t) => Enter(s, t)
    case PauseDone(t, ok) => OnPauseDone(s, t, ok)
    case StartDisconnect(t) => OnStartDisconnect(s, t)
    case DisconnectDone(t, ok) => OnDisconnectDone(s, t, ok)
    case ReleaseBy(t) => Goto(ReleaseScan(s, s.tasks[t].owner), t, Released)
    case Release(owner) => ReleaseScan(s, owner)
    case SetManager => s.(manager := true)
  }

  // ---------------------------------------------------------------- runs and their history

  /** Scans granted and releases that took effect, by owner. */
  datatype History = History(acquired: multiset<Owner>, released: multiset<Owner>)

  const NO_HISTORY := History(multiset{}, multiset{})

  /** The task a step may grant the scan to, and whether it does. */
  predicate Grants(s: State, owner: Owner) {
    s.inFlight.None? && (s.scanOwner == Some(owner) || (s.scanOwner.None? && !(owner == Reticulum && s.manager)))
  }

  function Acquires(s: State, e: Event): multiset<Owner>
    requires Enabled(s, e)
  {
    match e
    case Acquire(owner) => if Grants(s, owner) then multiset{owner} else multiset{}
    case Yield => if Grants(s, Reticulum) then multiset{Reticulum} else multiset{}
    case Wake(t) => if Grants(s, s.tasks[t].owner) then multiset{s.tasks[t].owner} else multiset{}
    case PauseDone(t, ok) => if ok then multiset{s.tasks[t].owner} else multiset{}
    case _ => multiset{}
  }

  function Releases(s: State, e: Event): multiset<Owner>
    requires Enabled(s, e)
  {
    var owner: Option<Owner> :=
      match e
      case DisconnectDone(_, ok) => if ok then None else Some(Reticulum)
      case ReleaseBy(t) => Some(s.tasks[t].owner)
      case Release(owner) => Some(owner)
      case _ => None;
    if owner.Some? && s.scanOwner == owner then multiset{owner.value} else multiset{}
  }

  function Record(h: History, s: State, e: Event): History
    requires Enabled(s, e)
  {
    History(h.acquired + Acquires(s, e), h.released + Releases(s, e))
  }

  ghost predicate Legal(s: State, es: seq<Event>)
    decreases |es|
  {
    es == [] || (Enabled(s, es[0]) && Legal(Step(s, es[0]), es[1..]))
  }

  ghost function Run(s: State, es: seq<Event>): State
    requires Legal(s, es)
    decreases |es|
  {
    if es == [] then s else Run(Step(s, es[0]), es[1..])
  }

  ghost function RunHistory(h: History, s: State, es: seq<Event>): History
    requires Legal(s, es)
    decreases |es|
  {
    if es == [] then h else RunHistory(Record(h, s, es[0]), Step(s, es[0]), es[1..])
  }

  /** Who is where: at most one task is in the critical section, and then nobody owns the scan. */
  ghost predicate Shape(s: State) {
    && (s.inFlight.Some? ==> s.scanOwner.None? && At(s, s.inFlight.value, Pausing))
    && (forall t :: 0 <= t < |s.tasks| && s.tasks[t].phase == Pausing ==>
          s.inFlight == Some(t) && s.tasks[t].owner == Reticulum && s.manager)
    && (forall t :: 0 <= t < |s.tasks| && (s.tasks[t].yielding || s.tasks[t].phase in {Acquired, Disconnecting}) ==>
          s.tasks[t].owner == Reticulum)
    && (s.depth == 0 <==> s.scanOwner.None?)
    && (s.paused ==> s.manager && s.scanOwner == Some(Reticulum))
    && s.pauses == s.resumes + (if s.paused then 1 else 0)
  }

  ghost predicate Counted(s: State, h: History) {
    forall o: Owner :: h.acquired[o] == h.released[o] + (if s.scanOwner == Some(o) then s.depth else 0)
  }

  lemma GotoShape(s: State, t: nat, phase: Phase)
    requires Shape(s) && t < |s.tasks| && s.tasks[t].phase != Pausing && phase != Pausing
    requires phase in {Acquired, Disconnecting} ==> s.tasks[t].owner == Reticulum
    ensures Shape(Goto(s, t, phase))
  {
  }

  lemma GrantedShape(s: State, t: nat, depth: nat)
    requires Shape(s) && t < |s.tasks| && s.tasks[t].phase != Pausing && s.inFlight.None? && depth > 0
    requires s.scanOwner.None? || s.scanOwner == Some(s.tasks[t].owner)
    ensures Shape(Granted(s.(scanOwner := Some(s.tasks[t].owner), depth := depth), t))
  {
  }

  lemma StartPauseShape(s: State, t: nat)
    requires Shape(s) && t < |s.tasks| && s.inFlight.None? && s.scanOwner.None?
    requires s.tasks[t].owner == Reticulum && s.manager
    ensures Shape(Goto(s.(inFlight := Some(t)), t, Pausing))
  {
  }

  lemma EnterShape(s: State, t: nat)
    requires Shape(s) && t < |s.tasks| && s.tasks[t].phase != Pausing
    ensures Shape(Enter(s, t))
  {
    var owner := s.tasks[t].owner;
    if s.inFlight.Some? {
      GotoShape(s, t, Waiting(s.inFlight.value));
    } else if s.scanOwner == Some(owner) {
      GrantedShape(s, t, s.depth + 1);
      assert s.(scanOwner := Some(owner), depth := s.depth + 1) == s.(depth := s.depth + 1);
    } else if s.scanOwner.Some? {
      GotoShape(s, t, Failed);
    } else if owner == Reticulum && s.manager {
      StartPauseShape(s, t);
    } else {
      GrantedShape(s, t, 1);
    }
  }

  lemma ReleaseShape(s: State, owner: Owner)
    requires Shape(s)
    ensures Shape(ReleaseScan(s, owner)) && ReleaseScan(s, owner).tasks == s.tasks
  {
  }

  lemma PauseDoneShape(s: State, t: nat, ok: bool)
    requires Shape(s) && At(s, t, Pausing)
    ensures Shape(OnPauseDone(s, t, ok))
  {
  }

  lemma StepShape(s: State, e: Event)
    requires Shape(s) && Enabled(s, e)
    ensures Shape(Step(s, e))
  {
    match e
    case Acquire(owner) => EnterShape(s.(tasks := s.tasks + [Task(owner, false, Failed)]), |s.tasks|);
    case Yield => EnterShape(s.(tasks := s.tasks + [Task(Reticulum, true, Failed)]), |s.tasks|);
    case Wake(t) => EnterShape(s, t);
    case PauseDone(t, ok) => PauseDoneShape(s, t, ok);
    case StartDisconnect(t) => GotoShape(s, t, if s.manager && s.gattPlatform then Disconnecting else Holding);
    case DisconnectDone(t, ok) =>
      ReleaseShape(s, Reticulum);
      if ok { GotoShape(s, t, Holding); } else { GotoShape(ReleaseScan(s, Reticulum), t, Failed); }
    case ReleaseBy(t) =>
      ReleaseShape(s, s.tasks[t].owner);
      GotoShape(ReleaseScan(s, s.tasks[t].owner), t, Released);
    case Release(owner) => ReleaseShape(s, owner);
    case SetManager =>
  }

  lemma EnterCounted(s: State, h: History, t: nat)
    requires Shape(s) && Counted(s, h) && t < |s.tasks| && s.tasks[t].phase != Pausing
    ensures Counted(Enter(s, t), h.(acquired := h.acquired +
              (if Grants(s, s.tasks[t].owner) then multiset{s.tasks[t].owner} else multiset{})))
  {
  }

  lemma ReleaseCounted(s: State, h: History, owner: Owner)
    requires Shape(s) && Counted(s, h)
    ensures Counted(ReleaseScan(s, owner), h.(released := h.released +
              (if s.scanOwner == Some(owner) then multiset{owner} else multiset{})))
  {
  }

  lemma PauseDoneCounted(s: State, h: History, t: nat, ok: bool)
    requires Shape(s) && Counted(s, h) && At(s, t, Pausing)
    ensures Counted(OnPauseDone(s, t, ok), h.(acquired := h.acquired + (if ok then multiset{s.tasks[t].owner} else multiset{})))
  {
  }

  lemma AcquireCounted(s: State, h: History, e: Event)
    requires Shape(s) && Counted(s, h) && Enabled(s, e)
    requires e.Acquire? || e.Yield? || e.Wake? || e.PauseDone?
    ensures Counted(Step(s, e), h.(acquired := h.acquired + Acquires(s, e)))
  {
    match e
    case Acquire(owner) => EnterCounted(s.(tasks := s.tasks + [Task(owner, false, Failed)]), h, |s.tasks|);
    case Yield => EnterCounted(s.(tasks := s.tasks + [Task(Reticulum, true, Failed)]), h, |s.tasks|);
    case Wake(t) => EnterCounted(s, h, t);
    case PauseDone(t, ok) => PauseDoneCounted(s, h, t, ok);
  }

  lemma DisconnectDoneCounted(s: State, h: History, t: nat, ok: bool)
    requires Shape(s) && Counted(s, h) && At(s, t, Disconnecting)
    ensures Counted(OnDisconnectDone(s, t, ok), h.(released := h.released + Releases(s, DisconnectDone(t, ok))))
  {
    if !ok { ReleaseCounted(s, h, Reticulum); }
  }

  lemma ReleaseStepCounted(s: State, h: History, e: Event)
    requires Shape(s) && Counted(s, h) && Enabled(s, e)
    requires e.DisconnectDone? || e.ReleaseBy? || e.Release? || e.StartDisconnect? || e.SetManager?
    ensures Counted(Step(s, e), h.(released := h.released + Releases(s, e)))
  {
    match e
    case DisconnectDone(t, ok) => DisconnectDoneCounted(s, h, t, ok);
    case ReleaseBy(t) => ReleaseCounted(s, h, s.tasks[t].owner);
    case Release(owner) => ReleaseCounted(s, h, owner);
    case _ =>
  }

  lemma StepCounted(s: State, h: History, e: Event)
    requires Shape(s) && Counted(s, h) && Enabled(s, e)
    ensures Counted(Step(s, e), Record(h, s, e))
  {
    if e.Acquire? || e.Yield? || e.Wake? || e.PauseDone? {
      AcquireCounted(s, h, e);
      assert Record(h, s, e) == h.(acquired := h.acquired + Acquires(s, e));
    } else {
      ReleaseStepCounted(s, h, e);
      assert Record(h, s, e) == h.(released := h.released + Releases(s, e));
    }
  }

  lemma {:induction false} ShapeRun(s: State, h: History, es: seq<Event>)
    requires Shape(s) && Counted(s, h) && Legal(s, es)
    ensures Shape(Run(s, es)) && Counted(Run(s, es), RunHistory(h, s, es))
    decreases |es|
  {
    if es != [] {
      StepShape(s, es[0]);
      StepCounted(s, h, es[0]);
      ShapeRun(Step(s, es[0]), Record(h, s, es[0]), es[1..]);
    }
  }

  // ---------------------------------------------------------------- main results

  ghost predicate Reached(s: State, h: History, manager: bool, gattPlatform: bool, es: seq<Event>) {
    var i := Initial(manager, gattPlatform);
    Legal(i, es) && s == Run(i, es) && h == RunHistory(NO_HISTORY, i, es)
  }

  lemma ReachedShape(s: State, h: History, manager: bool, gattPlatform: bool, es: seq<Event>)
    requires Reached(s, h, manager, gattPlatform, es)
    ensures Shape(s) && Counted(s, h)
  {
    ShapeRun(Initial(manager, gattPlatform), NO_HISTORY, es);
  }

  /**
   * Under every interleaving: an acquire in flight means nobody owns the scan; the depth is what the
   * owner acquired and did not release, every other owner being even; a waiter is either free to
   * continue or waits for the acquire that is in flight now; pauses exceed resumes by one exactly
   * while the pause flag is up, which happens only under Reticulum.
   */
  lemma MutexInvariant(s: State, h: History, manager: bool, gattPlatform: bool, es: seq<Event>)
    requires Reached(s, h, manager, gattPlatform, es)
    ensures s.inFlight.Some? ==> s.scanOwner.None? && s.depth == 0
    ensures s.scanOwner.Some? ==> s.depth > 0 && h.acquired[s.scanOwner.value] == h.released[s.scanOwner.value] + s.depth
    ensures forall o: Owner :: s.scanOwner != Some(o) ==> h.acquired[o] == h.released[o]
    ensures forall t :: 0 <= t < |s.tasks| && s.tasks[t].phase.Waiting? && !Resolved(s, s.tasks[t].phase.on) ==>
              s.inFlight == Some(s.tasks[t].phase.on)
    ensures s.pauses - s.resumes == (if s.paused then 1 else 0) && (s.paused ==> s.scanOwner == Some(Reticulum))
  {
    ReachedShape(s, h, manager, gattPlatform, es);
  }

  lemma {:induction false} PausedWhileOwned(s: State, es: seq<Event>)
    requires Shape(s) && s.manager && (s.scanOwner == Some(Reticulum) ==> s.paused) && Legal(s, es)
    ensures var t := Run(s, es); t.manager && (t.scanOwner == Some(Reticulum) ==> t.paused)
    decreases |es|
  {
    if es != [] {
      StepShape(s, es[0]);
      PausedWhileOwned(Step(s, es[0]), es[1..]);
    }
  }

  /** With the manager set from the start, Noble is paused exactly while Reticulum owns the scan. */
  lemma PausedIffReticulum(s: State, h: History, gattPlatform: bool, es: seq<Event>)
    requires Reached(s, h, true, gattPlatform, es)
    ensures s.pauses - s.resumes == if s.scanOwner == Some(Reticulum) then 1 else 0
  {
    ReachedShape(s, h, true, gattPlatform, es);
    PausedWhileOwned(Initial(true, gattPlatform), es);
  }

  /** A failed pause leaves the lock as free as before the acquire, and wakes its waiters. */
  lemma FailedPauseFrees(s: State, h: History, manager: bool, gattPlatform: bool, es: seq<Event>, t: nat)
    requires Reached(s, h, manager, gattPlatform, es) && At(s, t, Pausing)
    ensures
      var r := Step(s, PauseDone(t, false));
      && r.inFlight.None? && r.scanOwner.None? && r.depth == 0 && !r.paused && r.tasks[t].phase == Failed
      && forall w :: 0 <= w < |r.tasks| && r.tasks[w].phase.Waiting? ==> Enabled(r, Wake(w))
  {
    ReachedShape(s, h, manager, gattPlatform, es);
  }

  /** What becomes of task `t`, from `s` to `u`, when it comes to ask for the scan. */
  ghost predicate Answered(s: State, u: State, t: nat) {
    && t < |u.tasks|
    && var owner := u.tasks[t].owner;
      if exists p: nat :: At(s, p, Pausing)
      then (exists p: nat :: At(s, p, Pausing) && At(u, t, Waiting(p))) && SameLock(s, u)
      else if s.scanOwner.Some? && s.scanOwner != Some(owner) then At(u, t, Failed) && SameLock(s, u)
      else if s.scanOwner.None? && owner == Reticulum && s.manager then At(u, t, Pausing) && u.scanOwner.None?
      else Holds(u.tasks[t]) && u.scanOwner == Some(owner) && u.depth == s.depth + 1 && u.inFlight.None?
  }

  predicate SameLock(s: State, u: State) { u.scanOwner == s.scanOwner && u.depth == s.depth && u.inFlight == s.inFlight }

  /**
   * Every call, and every call woken up again, waits exactly if another is in its critical section, fails
   * exactly if nobody is and another owner has the scan, and otherwise gets it or pauses Noble first.
   */
  lemma AcquireAnswered(s: State, h: History, manager: bool, gattPlatform: bool, es: seq<Event>, owner: Owner)
    requires Reached(s, h, manager, gattPlatform, es)
    ensures Answered(s, Step(s, Acquire(owner)), |s.tasks|) && Step(s, Acquire(owner)).tasks[|s.tasks|].owner == owner
    ensures Answered(s, Step(s, Yield), |s.tasks|) && Step(s, Yield).tasks[|s.tasks|].owner == Reticulum
    ensures forall w :: Enabled(s, Wake(w)) ==> Answered(s, Step(s, Wake(w)), w)
  {
    ReachedShape(s, h, manager, gattPlatform, es);
    EnterAnswered(s, s.(tasks := s.tasks + [Task(owner, false, Failed)]), |s.tasks|);
    EnterAnswered(s, s.(tasks := s.tasks + [Task(Reticulum, true, Failed)]), |s.tasks|);
    forall w | Enabled(s, Wake(w)) ensures Answered(s, Step(s, Wake(w)), w) {
      EnterAnswered(s, s, w);
    }
  }

  /** `r` is `s`, or `s` with the task that is about to enter. */
  lemma EnterAnswered(s: State, r: State, t: nat)
    requires Shape(s) && t < |r.tasks| && s.tasks <= r.tasks && r == s.(tasks := r.tasks)
    requires r.tasks[t].phase != Pausing
    ensures Answered(s, Enter(r, t), t)
  {
    if s.inFlight.Some? {
      var p := s.inFlight.value;
      assert At(s, p, Pausing) && At(Enter(r, t), t, Waiting(p));
    }
  }

  /**
   * A call that waited for a pause is not lost: woken next, it shares the scan if the pause succeeded and
   * it has the same owner, fails if it has another, and takes the place of the failed one if it did not.
   */
  lemma WaiterAfterPause(s: State, h: History, manager: bool, gattPlatform: bool, es: seq<Event>, p: nat, w: nat, ok: bool)
    requires Reached(s, h, manager, gattPlatform, es) && At(s, p, Pausing) && At(s, w, Waiting(p))
    ensures Enabled(Step(s, PauseDone(p, ok)), Wake(w))
    ensures
      var u := Step(Step(s, PauseDone(p, ok)), Wake(w));
      if !ok then
        if s.tasks[w].owner == Reticulum then At(u, w, Pausing)
        else Holds(u.tasks[w]) && u.scanOwner == Some(s.tasks[w].owner) && u.depth == 1
      else if s.tasks[w].owner == Reticulum then Holds(u.tasks[w]) && Holds(u.tasks[p]) && u.depth == 2
      else At(u, w, Failed) && Holds(u.tasks[p]) && u.scanOwner == Some(Reticulum) && u.depth == 1
  {
    ReachedShape(s, h, manager, gattPlatform, es);
  }

  /** A granted yield ends the GATT sessions exactly with a manager on a platform that needs it, and holds the scan meanwhile. */
  lemma YieldEndsSessionsIff(s: State, t: nat)
    requires At(s, t, Acquired)
    ensures
      var u := Step(s, StartDisconnect(t));
      && (At(u, t, Disconnecting) <==> s.manager && s.gattPlatform) && Holds(u.tasks[t])
      && (At(u, t, Disconnecting) ==> At(Step(u, DisconnectDone(t, true)), t, Holding))
      && u == s.(tasks := u.tasks)
  {
  }

  predicate Holds(t: Task) { t.phase in {Acquired, Disconnecting, Holding} }

  function Holders(ts: seq<Task>): nat {
    if ts == [] then 0 else Holders(ts[..|ts| - 1]) + (if Holds(ts[|ts| - 1]) then 1 else 0)
  }

  lemma {:induction false} HoldersUpdate(ts: seq<Task>, i: nat, t: Task)
    requires i < |ts|
    ensures Holders(ts[i := t]) == Holders(ts) - (if Holds(ts[i]) then 1 else 0) + (if Holds(t) then 1 else 0)
  {
    var n := |ts| - 1;
    if i < n {
      HoldersUpdate(ts[..n], i, t);
      assert ts[i := t][..n] == ts[..n][i := t];
    } else {
      assert ts[i := t][..n] == ts[..n];
    }
  }

  lemma {:induction false} NoHolders(ts: seq<Task>)
    ensures Holders(ts) == 0 <==> forall t <- ts :: !Holds(t)
  {
    if ts != [] {
      NoHolders(ts[..|ts| - 1]);
      assert ts == ts[..|ts| - 1] + [ts[|ts| - 1]];
    }
  }

  /** The depth counts the tasks that hold the scan, and they all belong to its owner. */
  ghost predicate Exclusive(s: State) {
    && s.depth == Holders(s.tasks)
    && forall t :: 0 <= t < |s.tasks| && Holds(s.tasks[t]) ==> s.scanOwner == Some(s.tasks[t].owner)
  }

  lemma GotoExclusive(s: State, t: nat, phase: Phase)
    requires t < |s.tasks|
    ensures Holders(Goto(s, t, phase).tasks)
         == Holders(s.tasks) - (if Holds(s.tasks[t]) then 1 else 0) + (if Holds(s.tasks[t].(phase := phase)) then 1 else 0)
  {
    HoldersUpdate(s.tasks, t, s.tasks[t].(phase := phase));
  }

  lemma EnterExclusive(s: State, t: nat)
    requires Shape(s) && Exclusive(s) && t < |s.tasks| && !Holds(s.tasks[t])
    ensures Exclusive(Enter(s, t))
  {
    forall phase { GotoExclusive(s, t, phase); }
    NoHolders(s.tasks);
  }

  lemma DropExclusive(s: State, t: nat, phase: Phase)
    requires Shape(s) && Exclusive(s) && t < |s.tasks| && Holds(s.tasks[t]) && phase in {Failed, Released}
    ensures Exclusive(Goto(ReleaseScan(s, s.tasks[t].owner), t, phase))
  {
    var r := Goto(ReleaseScan(s, s.tasks[t].owner), t, phase);
    GotoExclusive(s, t, phase);
    NoHolders(r.tasks);
  }

  lemma PauseDoneExclusive(s: State, t: nat, ok: bool)
    requires Shape(s) && Exclusive(s) && At(s, t, Pausing)
    ensures Exclusive(OnPauseDone(s, t, ok))
  {
    forall phase { GotoExclusive(s, t, phase); }
    NoHolders(s.tasks);
  }

  lemma CallExclusive(s: State, owner: Owner, yielding: bool)
    requires Shape(s) && Exclusive(s) && (yielding ==> owner == Reticulum)
    ensures Exclusive(Call(s, owner, yielding))
  {
    assert (s.tasks + [Task(owner, yielding, Failed)])[..|s.tasks|] == s.tasks;
    EnterExclusive(s.(tasks := s.tasks + [Task(owner, yielding, Failed)]), |s.tasks|);
  }

  lemma StepExclusive(s: State, e: Event)
    requires Shape(s) && Exclusive(s) && Enabled(s, e) && !e.Release?
    ensures Exclusive(Step(s, e))
  {
    match e
    case Acquire(owner) => CallExclusive(s, owner, false);
    case Yield => CallExclusive(s, Reticulum, true);
    case Wake(t) => EnterExclusive(s, t);
    case PauseDone(t, ok) => PauseDoneExclusive(s, t, ok);
    case StartDisconnect(t) => GotoExclusive(s, t, if s.manager && s.gattPlatform then Disconnecting else Holding);
    case DisconnectDone(t, ok) => if ok { GotoExclusive(s, t, Holding); } else { DropExclusive(s, t, Failed); }
    case ReleaseBy(t) => DropExclusive(s, t, Released);
    case SetManager =>
  }

  lemma {:induction false} ExclusiveRun(s: State, es: seq<Event>)
    requires Shape(s) && Exclusive(s) && Legal(s, es)
    requires forall e <- es :: !e.Release?
    ensures Exclusive(Run(s, es))
    decreases |es|
  {
    if es != [] {
      StepShape(s, es[0]);
      StepExclusive(s, es[0]);
      ExclusiveRun(Step(s, es[0]), es[1..]);
    }
  }

  /**
   * When every release comes from a holder, the depth counts exactly the tasks holding the scan and
   * no two of different owners ever hold it together; a failed yield gives back its own hold only.
   */
  lemma MutualExclusion(s: State, h: History, manager: bool, gattPlatform: bool, es: seq<Event>)
    requires Reached(s, h, manager, gattPlatform, es)
    requires forall e <- es :: !e.Release?
    ensures s.depth == Holders(s.tasks)
    ensures forall t :: 0 <= t < |s.tasks| && Holds(s.tasks[t]) ==> s.scanOwner == Some(s.tasks[t].owner)
    ensures forall t: nat :: At(s, t, Disconnecting) ==>
              Holders(Step(s, DisconnectDone(t, false)).tasks) == Step(s, DisconnectDone(t, false)).depth == s.depth - 1
  {
    ExclusiveRun(Initial(manager, gattPlatform), es);
    ReachedShape(s, h, manager, gattPlatform, es);
    forall t: nat | At(s, t, Disconnecting)
      ensures Holders(Step(s, DisconnectDone(t, false)).tasks) == Step(s, DisconnectDone(t, false)).depth == s.depth - 1
    {
      StepExclusive(s, DisconnectDone(t, false));
      GotoExclusive(ReleaseScan(s, Reticulum), t, Failed);
    }
  }

  // ---------------------------------------------------------------- the class

  class BleCoexistenceCoordinator {
    var scanOwner: Option<Owner>
    var scanOwnerDepth: nat
    /** The task whose promise is in flight. */
    var scanAcquireInFlight: Option<nat>
    var nobleManager: bool
    var nobleScanPausedForExternal: bool
    const gattPlatform: bool
    /** Every call of `acquireScan` so far, and the calls that reached the Noble manager. */
    var tasks: seq<Task>
    var pauses: nat
    var resumes: nat

    ghost function View(): State
      reads this
    {
      State(scanOwner, scanOwnerDepth, scanAcquireInFlight, nobleManager, nobleScanPausedForExternal, gattPlatform,
            tasks, pauses, resumes)
    }

    constructor (gattPlatform: bool)
      ensures View() == Initial(false, gattPlatform)
    {
      scanOwner, scanOwnerDepth, scanAcquireInFlight, nobleManager := None, 0, None, false;
      nobleScanPausedForExternal, tasks, pauses, resumes := false, [], 0, 0;
      this.gattPlatform := gattPlatform;
    }

    method SetNobleManager()
      modifies this
      ensures View() == Step(old(View()), SetManager) && nobleManager
    {
      nobleManager := true;
    }

    method MoveTo(t: nat, phase: Phase)
      requires t < |tasks|
      modifies this`tasks
      ensures View() == Goto(old(View()), t, phase)
    {
      tasks := tasks[t := tasks[t].(phase := phase)];
    }

    /** `acquireScan` from its first line, or from the wake-up that restarts it. */
    method EnterAcquire(t: nat)
      requires t < |tasks|
      modifies this
      ensures View() == Enter(old(View()), t)
    {
      var owner := tasks[t].owner;
      if scanAcquireInFlight.Some? {
        MoveTo(t, Waiting(scanAcquireInFlight.value));
        return;
      }
      if scanOwner == Some(owner) {
        scanOwnerDepth := scanOwnerDepth + 1;
        MoveTo(t, if tasks[t].yielding then Acquired else Holding);
        return;
      }
      if scanOwner.Some? {
        MoveTo(t, Failed);
        return;
      }
      scanAcquireInFlight := Some(t);
      if owner == Reticulum && nobleManager {
        MoveTo(t, Pausing);
        return;
      }
      scanOwner := Some(owner);
      scanOwnerDepth := 1;
      scanAcquireInFlight := None;
      MoveTo(t, if tasks[t].yielding then Acquired else Holding);
    }

    method AcquireScan(owner: Owner, yielding: bool) returns (t: nat)
      modifies this
      ensures View() == Call(old(View()), owner, yielding) && t == |old(tasks)|
    {
      t := |tasks|;
      tasks := tasks + [Task(owner, yielding, Failed)];
      EnterAcquire(t);
    }

    /** The rest of the critical section, once the Noble pause settled. */
    method PauseSettled(t: nat, ok: bool)
      requires Enabled(View(), PauseDone(t, ok))
      modifies this
      ensures View() == OnPauseDone(old(View()), t, ok)
    {
      if ok {
        pauses := pauses + 1;
        nobleScanPausedForExternal := true;
        scanOwner := Some(tasks[t].owner);
        scanOwnerDepth := 1;
      }
      scanAcquireInFlight := None;
      MoveTo(t, if !ok then Failed else if tasks[t].yielding then Acquired else Holding);
    }

    method ReleaseScanOf(owner: Owner)
      modifies this
      ensures View() == ReleaseScan(old(View()), owner)
    {
      if scanOwner != Some(owner) { return; }
      if scanOwnerDepth > 1 {
        scanOwnerDepth := scanOwnerDepth - 1;
        return;
      }
      scanOwnerDepth := 0;
      scanOwner := None;
      if owner == Reticulum && nobleScanPausedForExternal && nobleManager {
        nobleScanPausedForExternal := false;
        resumes := resumes + 1;
      }
    }

    /** The caller of a granted yield goes on to end the GATT sessions where the platform needs it. */
    method ContinueYield(t: nat)
      requires Enabled(View(), StartDisconnect(t))
      modifies this
      ensures View() == OnStartDisconnect(old(View()), t)
    {
      MoveTo(t, if nobleManager && gattPlatform then Disconnecting else Holding);
    }

    /** A failed or timed-out disconnect gives the scan back before the error surfaces. */
    method DisconnectSettled(t: nat, ok: bool)
      requires Enabled(View(), DisconnectDone(t, ok))
      modifies this
      ensures View() == OnDisconnectDone(old(View()), t, ok)
    {
      if !ok { ReleaseScanOf(Reticulum); }
      MoveTo(t, if ok then Holding else Failed);
    }
  }
}

/** The registry of peripherals in use: a normalized address belongs to at most one stack. */
module PeripheralRegistry {
  import opened Common

  datatype Owner = NobleMeshtastic | NobleMeshcore | WebMeshtastic | WebMeshcore | ReticulumStack

  datatype Event = Register(key: string, owner: Owner) | Unregister(key: string, owner: Owner)

  function Step(connections: map<string, Owner>, e: Event): map<string, Owner> {
    match e
    case Register(key, owner) =>
      if key == "" || (key in connections && connections[key] != owner) then connections else connections[key := owner]
    case Unregister(key, owner) =>
      if key != "" && key in connections && connections[key] == owner then connections - {key} else connections
  }

  function Run(connections: map<string, Owner>, es: seq<Event>): map<string, Owner>
    decreases |es|
  {
    if es == [] then connections else Run(Step(connections, es[0]), es[1..])
  }

  /** Only its owner can give a peripheral up: whatever the others call, it stays registered to it. */
  lemma {:induction false} OwnershipIsKept(connections: map<string, Owner>, es: seq<Event>, key: string, owner: Owner)
    requires key in connections && connections[key] == owner
    requires Unregister(key, owner) !in es
    ensures key in Run(connections, es) && Run(connections, es)[key] == owner
    decreases |es|
  {
    if es != [] { OwnershipIsKept(Step(connections, es[0]), es[1..], key, owner); }
  }

  class Registry {
    var connections: map<string, Owner>

    /** `conflict` is the owner named by the error thrown for a peripheral in use. */
    method RegisterPeripheral(key: string, owner: Owner) returns (conflict: Option<Owner>)
      modifies this
      ensures connections == Step(old(connections), Register(key, owner))
      ensures conflict.Some? <==> key != "" && key in old(connections) && old(connections)[key] != owner
      ensures conflict.Some? ==> conflict.value == old(connections)[key] && connections == old(connections)
      ensures conflict.None? && key != "" ==> key in connections && connections[key] == owner
    {
      if key == "" { return None; }
      if key in connections && connections[key] != owner { return Some(connections[key]); }
      connections := connections[key := owner];
      return None;
    }

    method UnregisterPeripheral(key: string, owner: Owner)
      modifies this
      ensures connections == Step(old(connections), Unregister(key, owner))
      ensures key in old(connections) && old(connections)[key] == owner && key != "" ==> key !in connections
    {
      if key == "" { return; }
      if key in connections && connections[key] == owner { connections := connections - {key}; }
    }
  }
}
