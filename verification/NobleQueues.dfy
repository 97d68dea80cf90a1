/**
 * The promise-chain queue behind `connect` and `writeToRadio`: each call installs a slot and waits,
 * with a timeout, for the slot before it.
 */
module SlotQueue {
  datatype Phase = Waiting | Running | Finished | TimedOut

  /** `released` says that the promise of the slot was settled. */
  datatype Slot = Slot(phase: Phase, released: bool)

  type Queue = seq<Slot>

  datatype Event = Call | Grant(i: nat) | Expire(i: nat) | Finish(i: nat)

  predicate Enabled(q: Queue, e: Event) {
    match e
    case Call => true
    case Grant(i) => i < |q| && q[i].phase == Waiting && (i > 0 ==> q[i - 1].released)
    case Expire(i) => i < |q| && q[i].phase == Waiting
    case Finish(i) => i < |q| && q[i].phase == Running
  }

  function Step(q: Queue, e: Event): Queue
    requires Enabled(q, e)
  {
    match e
    case Call => q + [Slot(Waiting, false)]
    case Grant(i) => q[i := q[i].(phase := Running)]
    case Expire(i) => q[i := Slot(TimedOut, true)]
    case Finish(i) => q[i := Slot(Finished, true)]
  }

  predicate Started(s: Slot) { s.phase == Running || s.phase == Finished }

  /** A slot is settled exactly when its call exited, and a call started only after the one before settled. */
  ghost predicate Inv(q: Queue) {
    && (forall i :: 0 <= i < |q| ==> (q[i].released <==> q[i].phase == Finished || q[i].phase == TimedOut))
    && (forall i :: 0 < i < |q| && Started(q[i]) ==> q[i - 1].released)
  }

  lemma InvStep(q: Queue, e: Event)
    requires Inv(q) && Enabled(q, e)
    ensures Inv(Step(q, e))
  {
  }

  ghost predicate Legal(q: Queue, es: seq<Event>)
    decreases |es|
  {
    es == [] || (Enabled(q, es[0]) && Legal(Step(q, es[0]), es[1..]))
  }

  ghost function Run(q: Queue, es: seq<Event>): Queue
    requires Legal(q, es)
    decreases |es|
  {
    if es == [] then q else Run(Step(q, es[0]), es[1..])
  }

  lemma {:induction false} InvRun(q: Queue, es: seq<Event>)
    requires Inv(q) && Legal(q, es)
    ensures Inv(Run(q, es))
    decreases |es|
  {
    if es != [] {
      InvStep(q, es[0]);
      InvRun(Step(q, es[0]), es[1..]);
    }
  }

  ghost predicate TimedOutWithin(q: Queue, i: nat, j: nat)
    requires j <= |q|
  {
    exists k :: i < k < j && q[k].phase == TimedOut
  }

  /** Some later call runs, ran, or could be let in now: whoever holds the queue before it is not alone. */
  ghost predicate Overtaken(q: Queue, i: nat) {
    exists k :: i < k < |q| && (Started(q[k]) || Enabled(q, Grant(k)))
  }

  /** A later call timed out and one behind it did not. */
  ghost predicate TimeoutAhead(q: Queue, i: nat) {
    exists k, j :: i < k < j < |q| && q[k].phase == TimedOut && q[j].phase != TimedOut
  }

  /** A call that passed an unreleased one did so over a timeout between them. */
  lemma {:induction false} PassedOverTimeout(q: Queue, i: nat, k: nat)
    requires Inv(q) && i < k < |q| && !q[i].released && (Started(q[k]) || Enabled(q, Grant(k)))
    ensures TimedOutWithin(q, i, k) && q[k].phase != TimedOut
    decreases k
  {
    assert q[k - 1].released;
    if q[k - 1].phase == Finished {
      PassedOverTimeout(q, i, k - 1);
      var t :| i < t < k - 1 && q[t].phase == TimedOut;
    } else {
      assert q[k - 1].phase == TimedOut;
    }
  }

  /** Behind a timed-out call, the first one that did not time out has its way free. */
  lemma {:induction false} FreeBehindTimeout(q: Queue, k: nat, j: nat) returns (m: nat)
    requires Inv(q) && k < j < |q| && q[k].phase == TimedOut && q[j].phase != TimedOut
    ensures k < m <= j && (Started(q[m]) || Enabled(q, Grant(m)))
    decreases j
  {
    if q[j - 1].phase == TimedOut {
      m := j;
    } else {
      m := FreeBehindTimeout(q, k, j - 1);
    }
  }

  /**
   * When exclusion fails, in every run: while call `i` has not released its slot, a later call runs,
   * ran or can be let in exactly if, among the calls after `i`, one timed out and one behind that did not.
   */
  lemma OvertakenIffTimeoutAhead(q: Queue, es: seq<Event>, i: nat)
    requires Legal([], es) && q == Run([], es) && i < |q| && !q[i].released
    ensures Overtaken(q, i) <==> TimeoutAhead(q, i)
  {
    InvRun([], es);
    if k :| i < k < |q| && (Started(q[k]) || Enabled(q, Grant(k))) {
      PassedOverTimeout(q, i, k);
      var t :| i < t < k && q[t].phase == TimedOut;
      assert i < t < k < |q| && q[k].phase != TimedOut;
    }
    if k, j :| i < k < j < |q| && q[k].phase == TimedOut && q[j].phase != TimedOut {
      var m := FreeBehindTimeout(q, k, j);
      assert i < m < |q|;
    }
  }

  /** In particular without timeouts holders are exclusive and in call order. */
  lemma OrderBrokenOnlyByTimeout(q: Queue, es: seq<Event>, i: nat, j: nat)
    requires Legal([], es) && q == Run([], es)
    requires i < j < |q| && Started(q[j]) && !q[i].released
    ensures TimedOutWithin(q, i, j)
  {
    InvRun([], es);
    PassedOverTimeout(q, i, j);
  }

  lemma {:induction false} RunAppend(q: Queue, es: seq<Event>, fs: seq<Event>)
    requires Legal(q, es) && Legal(Run(q, es), fs)
    ensures Legal(q, es + fs) && Run(q, es + fs) == Run(Run(q, es), fs)
    decreases |es|
  {
    if es == [] {
      assert es + fs == fs;
    } else {
      assert (es + fs)[1..] == es[1..] + fs;
      RunAppend(Step(q, es[0]), es[1..], fs);
    }
  }

  /** One more event of a run. */
  lemma RunStep(q: Queue, es: seq<Event>, e: Event)
    requires Legal([], es) && q == Run([], es) && Enabled(q, e)
    ensures Legal([], es + [e]) && Run([], es + [e]) == Step(q, e)
  {
    assert [e][1..] == [];
    assert Legal(Step(q, e), [e][1..]) && Run(Step(q, e), [e][1..]) == Step(q, e);
    assert Legal(q, [e]) && Run(q, [e]) == Step(q, e);
    RunAppend([], es, [e]);
  }

  const WAITING := Slot(Waiting, false)
  const RUNNING := Slot(Running, false)
  const EXPIRED := Slot(TimedOut, true)

  lemma ThreeWaiting() returns (es: seq<Event>)
    ensures Legal([], es) && Run([], es) == [WAITING, WAITING, WAITING]
  {
    es := [];
    RunStep([], es, Call);
    es := es + [Call];
    assert [] + [WAITING] == [WAITING];
    RunStep([WAITING], es, Call);
    es := es + [Call];
    assert [WAITING] + [WAITING] == [WAITING, WAITING];
    RunStep([WAITING, WAITING], es, Call);
    es := es + [Call];
    assert [WAITING, WAITING] + [WAITING] == [WAITING, WAITING, WAITING];
  }

  /** The broken exclusion does happen: the third call runs beside the first when the second times out. */
  lemma ExclusionBreaks() returns (q: Queue, es: seq<Event>)
    ensures Legal([], es) && q == Run([], es)
    ensures |q| == 3 && q[0].phase == q[2].phase == Running && q[1].phase == TimedOut
  {
    es := ThreeWaiting();
    RunStep([WAITING, WAITING, WAITING], es, Grant(0));
    es := es + [Grant(0)];
    assert [WAITING, WAITING, WAITING][0 := RUNNING] == [RUNNING, WAITING, WAITING];
    RunStep([RUNNING, WAITING, WAITING], es, Expire(1));
    es := es + [Expire(1)];
    assert [RUNNING, WAITING, WAITING][1 := EXPIRED] == [RUNNING, EXPIRED, WAITING];
    RunStep([RUNNING, EXPIRED, WAITING], es, Grant(2));
    es := es + [Grant(2)];
    q := [RUNNING, EXPIRED, RUNNING];
    assert [RUNNING, EXPIRED, WAITING][2 := RUNNING] == q;
  }

  /** Every exited call settled its slot, so a waiting call is never stuck: someone up to it runs or can be granted. */
  lemma {:induction false} NeverStuck(q: Queue, i: nat)
    requires Inv(q) && i < |q| && q[i].phase == Waiting
    ensures exists k :: 0 <= k <= i && (q[k].phase == Running || Enabled(q, Grant(k)))
    decreases i
  {
    if i == 0 || q[i - 1].released {
      assert Enabled(q, Grant(i));
    } else if q[i - 1].phase == Waiting {
      NeverStuck(q, i - 1);
    } else {
      assert q[i - 1].phase == Running;
    }
  }

  lemma ExitedSettles(q: Queue, es: seq<Event>, i: nat)
    requires Legal([], es) && q == Run([], es) && i < |q|
    ensures q[i].released <==> q[i].phase == Finished || q[i].phase == TimedOut
    ensures q[i].phase == Waiting ==> exists k :: 0 <= k <= i && (q[k].phase == Running || Enabled(q, Grant(k)))
  {
    InvRun([], es);
    if q[i].phase == Waiting { NeverStuck(q, i); }
  }

  /** The slots of one queue; the tail promise of the source is the last slot. */
  class ConnectQueue {
    var slots: Queue

    ghost predicate Valid()
      reads this
    {
      Inv(slots)
    }

    constructor ()
      ensures Valid() && slots == []
    {
      slots := [];
    }

    method Join() returns (ticket: nat)
      requires Valid()
      modifies this
      ensures Valid() && slots == Step(old(slots), Call) && ticket == |old(slots)|
    {
      ticket := |slots|;
      slots := slots + [Slot(Waiting, false)];
    }

    /** The wait for the previous slot settled: granted, or timed out with the own slot released. */
    method WaitSettled(ticket: nat, granted: bool)
      requires Valid() && Enabled(slots, if granted then Grant(ticket) else Expire(ticket))
      modifies this
      ensures Valid() && slots == Step(old(slots), if granted then Grant(ticket) else Expire(ticket))
    {
      InvStep(slots, if granted then Grant(ticket) else Expire(ticket));
      if !granted {
        slots := slots[ticket := Slot(TimedOut, true)];
        return;
      }
      slots := slots[ticket := slots[ticket].(phase := Running)];
    }

    /** The `finally` of the critical section. */
    method Leave(ticket: nat)
      requires Valid() && Enabled(slots, Finish(ticket))
      modifies this
      ensures Valid() && slots == Step(old(slots), Finish(ticket))
    {
      slots := slots[ticket := Slot(Finished, true)];
    }
  }
}

/** How many bytes one Bluetooth write request may carry. */
module BleAttWriteLimit {
  import opened Common

  const ATT_MTU_DEFAULT := 23
  const ATT_MTU_MAX := 517
  const PAYLOAD_CAP := 512

  /** `None` stands for a reported value that is missing or no finite number. */
  function AttMtuOrDefault(mtu: Option<real>): (r: nat)
    ensures ATT_MTU_DEFAULT <= r <= ATT_MTU_MAX
    ensures mtu.Some? && mtu.value >= ATT_MTU_DEFAULT as real ==> r as real <= mtu.value
  {
    if mtu.None? || mtu.value.Floor < ATT_MTU_DEFAULT then ATT_MTU_DEFAULT else Min(mtu.value.Floor, ATT_MTU_MAX)
  }

  /** A payload and the three octets of its header fit into the effective MTU. */
  function MaxWriteRequestPayloadBytes(mtu: Option<real>): (limit: nat)
    ensures 20 <= limit <= PAYLOAD_CAP && limit + 3 <= AttMtuOrDefault(mtu)
  {
    Min(AttMtuOrDefault(mtu) - 3, PAYLOAD_CAP)
  }

  /** The MTU of the peripheral, or else the one the session remembers from the last report. */
  function RawMtu(peripheral: Option<real>, reported: Option<real>): Option<real> {
    if peripheral.Some? then peripheral else Some(AttMtuOrDefault(reported) as real)
  }

  /** The payload by the reported MTU: 20 bytes without one or below the default, three less than it, 512 at most. */
  lemma PayloadByMtu(mtu: Option<real>)
    ensures mtu.None? || mtu.value < 24.0 ==> MaxWriteRequestPayloadBytes(mtu) == 20
    ensures mtu.Some? && 24.0 <= mtu.value < 515.0 ==>
      mtu.value - 4.0 < MaxWriteRequestPayloadBytes(mtu) as real <= mtu.value - 3.0
    ensures mtu.Some? && mtu.value >= 515.0 ==> MaxWriteRequestPayloadBytes(mtu) == 512
  {
  }

  /** Remembering the sanitized value instead of the reported one makes no difference to the limit. */
  lemma SanitizedOnce(reported: Option<real>)
    ensures MaxWriteRequestPayloadBytes(RawMtu(None, reported)) == MaxWriteRequestPayloadBytes(reported)
  {
    var r := AttMtuOrDefault(reported);
    assert (r as real).Floor == r;
  }
}

/** `writeToRadio`: chunked writes inside the queue. */
module WriteQueue {
  import opened BleAttWriteLimit
  import opened Common
  import opened SlotQueue

  type Bytes = seq<int>

  /** `handed` bytes of `data` were handed to `writeAsync`; `whole` says the call ended without error. */
  datatype Write = Write(data: Bytes, limit: nat, handed: nat, whole: bool)

  datatype Chunk = Chunk(call: nat, bytes: Bytes)

  datatype State = State(slots: Queue, writes: seq<Write>, log: seq<Chunk>)

  /**
   * `connected` is whether the characteristic is still there; `mtu` is what the peripheral says at that
   * moment and `reported` what it last reported to the session.
   */
  datatype WriteEvent =
    | Submit(data: Bytes)
    | Begin(i: nat, connected: bool, mtu: Option<real>, reported: Option<real>)
    | GiveUp(i: nat)
    | ChunkDone(i: nat, ok: bool, connected: bool)

  const INITIAL := State([], [], [])

  predicate Shape(s: State) { |s.slots| == |s.writes| }

  predicate Possible(s: State, e: WriteEvent) {
    && Shape(s)
    && match e
       case Submit(_) => true
       case Begin(i, _, _, _) => Enabled(s.slots, Grant(i))
       case GiveUp(i) => Enabled(s.slots, Expire(i))
       case ChunkDone(i, _, _) => Enabled(s.slots, Finish(i))
  }

  function End(w: Write): nat { Min(w.handed + w.limit, |w.data|) }

  /** Hands the next chunk to `writeAsync`. */
  function HandNext(s: State, i: nat): State
    requires i < |s.writes| && s.writes[i].handed <= |s.writes[i].data|
  {
    var w := s.writes[i];
    s.(writes := s.writes[i := w.(handed := End(w))], log := s.log + [Chunk(i, w.data[w.handed..End(w)])])
  }

  function Exit(s: State, i: nat, whole: bool): State
    requires i < |s.writes| && Enabled(s.slots, Finish(i))
  {
    s.(slots := SlotQueue.Step(s.slots, Finish(i)), writes := s.writes[i := s.writes[i].(whole := whole)])
  }

  function OnBegin(s: State, i: nat, connected: bool, limit: nat): State
    requires Shape(s) && Enabled(s.slots, Grant(i))
  {
    var m := Admit(s, i, limit);
    if !connected then Exit(m, i, false) else if |s.writes[i].data| == 0 then Exit(m, i, true) else HandNext(m, i)
  }

  /** The call becomes the holder; its limit is that of the link at that moment. */
  function Admit(s: State, i: nat, limit: nat): State
    requires i < |s.writes| && Enabled(s.slots, Grant(i))
  {
    s.(slots := SlotQueue.Step(s.slots, Grant(i)), writes := s.writes[i := s.writes[i].(limit := limit, handed := 0)])
  }

  function OnChunkDone(s: State, i: nat, ok: bool, connected: bool): State
    requires Possible(s, ChunkDone(i, ok, connected))
  {
    var w := s.writes[i];
    if !ok then Exit(s, i, false)
    else if w.handed >= |w.data| then Exit(s, i, true)
    else if !connected then Exit(s, i, false)
    else HandNext(s, i)
  }

  function WriteStep(s: State, e: WriteEvent): State
    requires Possible(s, e)
  {
    match e
    case Submit(data) => State(SlotQueue.Step(s.slots, Call), s.writes + [Write(data, 0, 0, false)], s.log)
    case Begin(i, connected, mtu, reported) => OnBegin(s, i, connected, MaxWriteRequestPayloadBytes(RawMtu(mtu, reported)))
    case GiveUp(i) => s.(slots := SlotQueue.Step(s.slots, Expire(i)))
    case ChunkDone(i, ok, connected) => OnChunkDone(s, i, ok, connected)
  }

  /** The bytes handed over for call `i`, in order. */
  function HandedFor(log: seq<Chunk>, i: nat): Bytes {
    if log == [] then []
    else HandedFor(log[..|log| - 1], i) + (if log[|log| - 1].call == i then log[|log| - 1].bytes else [])
  }

  function AllBytes(log: seq<Chunk>): Bytes {
    if log == [] then [] else AllBytes(log[..|log| - 1]) + log[|log| - 1].bytes
  }

  /** The prefixes handed over, call after call. */
  function Prefixes(ws: seq<Write>): Bytes
    requires forall w <- ws :: w.handed <= |w.data|
  {
    if ws == [] then [] else Prefixes(ws[..|ws| - 1]) + ws[|ws| - 1].data[..ws[|ws| - 1].handed]
  }

  predicate NoTimeouts(q: Queue) { forall s <- q :: s.phase != TimedOut }

  ghost predicate Consistent(s: State) {
    && Shape(s) && SlotQueue.Inv(s.slots)
    && (forall w <- s.writes :: w.handed <= |w.data|)
    && (forall i :: 0 <= i < |s.writes| ==>
          && (!Started(s.slots[i]) ==> s.writes[i].handed == 0 && !s.writes[i].whole)
          && (s.slots[i].phase == Running ==> 0 < s.writes[i].limit <= PAYLOAD_CAP && !s.writes[i].whole)
          && (s.writes[i].whole ==> s.writes[i].handed == |s.writes[i].data|))
  }

  ghost predicate ChunksFit(s: State) {
    forall c <- s.log :: c.call < |s.writes| && 0 < |c.bytes| <= s.writes[c.call].limit <= PAYLOAD_CAP
  }

  ghost predicate PerCall(s: State) {
    forall i :: 0 <= i < |s.writes| ==>
      s.writes[i].handed <= |s.writes[i].data| && HandedFor(s.log, i) == s.writes[i].data[..s.writes[i].handed]
  }

  lemma AdmitConsistent(s: State, i: nat, limit: nat)
    requires Consistent(s) && i < |s.writes| && Enabled(s.slots, Grant(i)) && 0 < limit <= PAYLOAD_CAP
    ensures Consistent(Admit(s, i, limit))
  {
    SlotQueue.InvStep(s.slots, Grant(i));
    var r := Admit(s, i, limit);
    assert forall w <- r.writes :: w == r.writes[i] || w in s.writes;
  }

  lemma ExitConsistent(s: State, i: nat, whole: bool)
    requires Consistent(s) && i < |s.writes| && Enabled(s.slots, Finish(i))
    requires whole ==> s.writes[i].handed == |s.writes[i].data|
    ensures Consistent(Exit(s, i, whole))
  {
    SlotQueue.InvStep(s.slots, Finish(i));
    var r := Exit(s, i, whole);
    assert forall w <- r.writes :: w == r.writes[i] || w in s.writes;
  }

  lemma HandNextConsistent(s: State, i: nat)
    requires Consistent(s) && i < |s.writes| && s.slots[i].phase == Running
    ensures Consistent(HandNext(s, i))
  {
    var r := HandNext(s, i);
    assert forall w <- r.writes :: w == r.writes[i] || w in s.writes;
  }

  lemma ConsistentStep(s: State, e: WriteEvent)
    requires Consistent(s) && Possible(s, e)
    ensures Consistent(WriteStep(s, e))
  {
    match e
    case Submit(data) => SlotQueue.InvStep(s.slots, Call);
    case Begin(i, connected, mtu, reported) =>
      var limit := MaxWriteRequestPayloadBytes(RawMtu(mtu, reported));
      AdmitConsistent(s, i, limit);
      var m := Admit(s, i, limit);
      if !connected || |s.writes[i].data| == 0 { ExitConsistent(m, i, connected); } else { HandNextConsistent(m, i); }
    case GiveUp(i) => SlotQueue.InvStep(s.slots, Expire(i));
    case ChunkDone(i, ok, connected) =>
      var done := s.writes[i].handed >= |s.writes[i].data|;
      if !ok || done || !connected { ExitConsistent(s, i, ok && done); } else { HandNextConsistent(s, i); }
  }

  lemma ChunksFitStep(s: State, e: WriteEvent)
    requires Consistent(s) && ChunksFit(s) && Possible(s, e)
    requires e.Begin? ==> forall c <- s.log :: c.call != e.i
    ensures ChunksFit(WriteStep(s, e))
  {
    match e
    case Begin(i, connected, mtu, reported) =>
      var m := Admit(s, i, MaxWriteRequestPayloadBytes(RawMtu(mtu, reported)));
      assert ChunksFit(m);
      if connected && |s.writes[i].data| > 0 { HandNextFits(m, i); }
    case ChunkDone(i, ok, connected) =>
      if ok && s.writes[i].handed < |s.writes[i].data| && connected { HandNextFits(s, i); }
    case _ =>
  }

  lemma HandNextFits(s: State, i: nat)
    requires ChunksFit(s) && i < |s.writes| && s.writes[i].handed < |s.writes[i].data|
    requires 0 < s.writes[i].limit <= PAYLOAD_CAP
    ensures ChunksFit(HandNext(s, i))
  {
  }

  lemma {:induction false} NothingHanded(log: seq<Chunk>, i: nat)
    requires forall c <- log :: c.call != i
    ensures HandedFor(log, i) == []
  {
    if log != [] { NothingHanded(log[..|log| - 1], i); }
  }

  lemma {:induction false} SomethingHanded(log: seq<Chunk>, c: Chunk)
    requires c in log && |c.bytes| > 0
    ensures |HandedFor(log, c.call)| > 0
  {
    if log[|log| - 1] != c {
      assert log == log[..|log| - 1] + [log[|log| - 1]];
      SomethingHanded(log[..|log| - 1], c);
    }
  }

  /** A call that has not started has no chunk in the log. */
  lemma UnstartedUnlogged(s: State, i: nat)
    requires Consistent(s) && ChunksFit(s) && PerCall(s) && i < |s.writes| && !Started(s.slots[i])
    ensures forall c <- s.log :: c.call != i
  {
    forall c <- s.log ensures c.call != i {
      SomethingHanded(s.log, c);
    }
  }

  lemma HandNextPerCall(s: State, i: nat)
    requires PerCall(s) && i < |s.writes|
    ensures PerCall(HandNext(s, i))
  {
    var r := HandNext(s, i);
    assert r.log[..|r.log| - 1] == s.log;
    forall j | 0 <= j < |r.writes| ensures HandedFor(r.log, j) == r.writes[j].data[..r.writes[j].handed] {
      if j == i {
        var w := s.writes[i];
        assert w.data[..w.handed] + w.data[w.handed..End(w)] == w.data[..End(w)];
      }
    }
  }

  lemma SubmitPerCall(s: State, data: Bytes)
    requires Shape(s) && ChunksFit(s) && PerCall(s)
    ensures PerCall(WriteStep(s, Submit(data)))
  {
    NothingHanded(s.log, |s.writes|);
  }

  lemma AdmitPerCall(s: State, i: nat, limit: nat)
    requires Consistent(s) && PerCall(s) && i < |s.writes| && Enabled(s.slots, Grant(i))
    ensures PerCall(Admit(s, i, limit))
  {
    assert !Started(s.slots[i]) && s.writes[i].handed == 0;
  }

  lemma ExitPerCall(s: State, i: nat, whole: bool)
    requires PerCall(s) && i < |s.writes| && Enabled(s.slots, Finish(i))
    ensures PerCall(Exit(s, i, whole))
  {
  }

  lemma PerCallStep(s: State, e: WriteEvent)
    requires Consistent(s) && ChunksFit(s) && PerCall(s) && Possible(s, e)
    ensures PerCall(WriteStep(s, e))
  {
    match e
    case Submit(data) => SubmitPerCall(s, data);
    case Begin(i, connected, mtu, reported) =>
      var limit := MaxWriteRequestPayloadBytes(RawMtu(mtu, reported));
      var m := Admit(s, i, limit);
      AdmitPerCall(s, i, limit);
      if connected && |s.writes[i].data| > 0 { HandNextPerCall(m, i); } else { ExitPerCall(m, i, connected); }
    case GiveUp(i) =>
    case ChunkDone(i, ok, connected) =>
      var done := s.writes[i].handed >= |s.writes[i].data|;
      if ok && !done && connected { HandNextPerCall(s, i); } else { ExitPerCall(s, i, ok && done); }
  }

  lemma {:induction false} PrefixesExtend(ws: seq<Write>, i: nat, w: Write)
    requires i < |ws| && (forall v <- ws :: v.handed <= |v.data|)
    requires w.data == ws[i].data && ws[i].handed <= w.handed <= |w.data|
    requires forall j :: i < j < |ws| ==> ws[j].handed == 0
    ensures forall v <- ws[i := w] :: v.handed <= |v.data|
    ensures Prefixes(ws[i := w]) == Prefixes(ws) + w.data[ws[i].handed..w.handed]
  {
    var n := |ws| - 1;
    if i < n {
      PrefixesExtend(ws[..n], i, w);
      assert ws[i := w][..n] == ws[..n][i := w];
      assert ws[n].data[..ws[n].handed] == [];
    } else {
      assert ws[i := w][..n] == ws[..n];
      assert ws[i].data[..ws[i].handed] + w.data[ws[i].handed..w.handed] == w.data[..w.handed];
    }
  }

  ghost predicate InCallOrder(s: State) {
    && (forall w <- s.writes :: w.handed <= |w.data|)
    && (NoTimeouts(s.slots) ==> AllBytes(s.log) == Prefixes(s.writes))
  }

  lemma HandNextInOrder(s: State, i: nat)
    requires Shape(s) && SlotQueue.Inv(s.slots) && InCallOrder(s) && i < |s.writes| && s.slots[i].phase == Running
    requires forall j :: 0 <= j < |s.writes| && !Started(s.slots[j]) ==> s.writes[j].handed == 0
    ensures InCallOrder(HandNext(s, i))
  {
    var r := HandNext(s, i);
    assert r.log[..|r.log| - 1] == s.log;
    if NoTimeouts(s.slots) {
      forall j | i < j < |s.writes| ensures s.writes[j].handed == 0 {
        if Started(s.slots[j]) {
          PassedOverTimeout(s.slots, i, j);
        }
      }
      PrefixesExtend(s.writes, i, r.writes[i]);
    } else {
      assert forall w <- r.writes :: w == r.writes[i] || w in s.writes;
    }
  }

  lemma {:induction false} SamePrefixes(ws: seq<Write>, vs: seq<Write>)
    requires |ws| == |vs| && (forall w <- ws :: w.handed <= |w.data|) && (forall v <- vs :: v.handed <= |v.data|)
    requires forall i :: 0 <= i < |ws| ==> ws[i].data[..ws[i].handed] == vs[i].data[..vs[i].handed]
    ensures Prefixes(ws) == Prefixes(vs)
  {
    if ws != [] { SamePrefixes(ws[..|ws| - 1], vs[..|vs| - 1]); }
  }

  lemma AdmitInOrder(s: State, i: nat, limit: nat)
    requires Consistent(s) && InCallOrder(s) && i < |s.writes| && Enabled(s.slots, Grant(i))
    ensures InCallOrder(Admit(s, i, limit))
  {
    var m := Admit(s, i, limit);
    assert forall w <- m.writes :: w == m.writes[i] || w in s.writes;
    SamePrefixes(s.writes, m.writes);
    if NoTimeouts(m.slots) { TimeoutsStay(s.slots, Grant(i)); }
  }

  lemma SubmitInOrder(s: State, data: Bytes)
    requires Consistent(s) && InCallOrder(s)
    ensures InCallOrder(WriteStep(s, Submit(data)))
  {
    var r := WriteStep(s, Submit(data));
    assert r.writes[..|s.writes|] == s.writes;
    assert data[..0] == [];
    if NoTimeouts(r.slots) { TimeoutsStay(s.slots, Call); }
  }

  lemma InCallOrderStep(s: State, e: WriteEvent)
    requires Consistent(s) && InCallOrder(s) && Possible(s, e)
    ensures InCallOrder(WriteStep(s, e))
  {
    match e
    case Submit(data) => SubmitInOrder(s, data);
    case Begin(i, connected, mtu, reported) =>
      var limit := MaxWriteRequestPayloadBytes(RawMtu(mtu, reported));
      AdmitConsistent(s, i, limit);
      AdmitInOrder(s, i, limit);
      var m := Admit(s, i, limit);
      if !connected || |s.writes[i].data| == 0 { ExitInOrder(m, i, connected); } else { HandNextInOrder(m, i); }
    case GiveUp(i) =>
      var r := WriteStep(s, e);
      assert r.slots[i] in r.slots;
    case ChunkDone(i, ok, connected) =>
      var done := s.writes[i].handed >= |s.writes[i].data|;
      if !ok || done || !connected { ExitInOrder(s, i, ok && done); } else { HandNextInOrder(s, i); }
  }

  lemma ExitInOrder(s: State, i: nat, whole: bool)
    requires Shape(s) && InCallOrder(s) && i < |s.writes| && Enabled(s.slots, Finish(i))
    ensures InCallOrder(Exit(s, i, whole))
  {
    var r := Exit(s, i, whole);
    assert forall w <- r.writes :: w == r.writes[i] || w in s.writes;
    SamePrefixes(s.writes, r.writes);
    if NoTimeouts(r.slots) { TimeoutsStay(s.slots, Finish(i)); }
  }

  lemma TimeoutsStay(q: Queue, e: Event)
    requires Enabled(q, e) && NoTimeouts(SlotQueue.Step(q, e))
    ensures NoTimeouts(q)
  {
    var r := SlotQueue.Step(q, e);
    forall s <- q ensures s.phase != TimedOut {
      var k :| 0 <= k < |q| && q[k] == s;
      assert r[k] in r;
    }
  }

  ghost predicate Legal(s: State, es: seq<WriteEvent>)
    decreases |es|
  {
    es == [] || (Possible(s, es[0]) && Legal(WriteStep(s, es[0]), es[1..]))
  }

  ghost function Run(s: State, es: seq<WriteEvent>): State
    requires Legal(s, es)
    decreases |es|
  {
    if es == [] then s else Run(WriteStep(s, es[0]), es[1..])
  }

  /** A chunk is shorter than the limit only where it ends the payload of its call. */
  ghost predicate ShortEnds(s: State) {
    forall n :: 0 <= n < |s.log| ==> s.log[n].call < |s.writes| && ShortEndsAt(s.writes[s.log[n].call], s.log, n)
  }

  predicate ShortEndsAt(w: Write, log: seq<Chunk>, n: nat)
    requires n < |log|
  {
    |log[n].bytes| < w.limit ==> HandedFor(log[..n + 1], log[n].call) == w.data
  }

  lemma HandNextShortEnds(s: State, i: nat)
    requires ShortEnds(s) && PerCall(s) && i < |s.writes|
    ensures ShortEnds(HandNext(s, i))
  {
    var r := HandNext(s, i);
    HandNextPerCall(s, i);
    forall n | 0 <= n < |r.log| ensures r.log[n].call < |r.writes| && ShortEndsAt(r.writes[r.log[n].call], r.log, n) {
      if n < |s.log| {
        assert r.log[n] == s.log[n] && r.log[..n + 1] == s.log[..n + 1];
        assert ShortEndsAt(s.writes[s.log[n].call], s.log, n);
      } else {
        assert r.log[..n + 1] == r.log;
        assert |r.log[n].bytes| < r.writes[i].limit ==> r.writes[i].handed == |r.writes[i].data|;
      }
    }
  }

  /** The call has the same payload and limit. */
  predicate SameTask(s: State, r: State, i: nat) {
    i < |s.writes| <= |r.writes| && r.writes[i].data == s.writes[i].data && r.writes[i].limit == s.writes[i].limit
  }

  /** Steps that hand over nothing keep it, when the limits of the logged calls stay. */
  lemma QuietShortEnds(s: State, r: State)
    requires ShortEnds(s) && r.log == s.log && |s.writes| <= |r.writes|
    requires forall n :: 0 <= n < |s.log| ==> SameTask(s, r, s.log[n].call)
    ensures ShortEnds(r)
  {
    forall n | 0 <= n < |r.log| ensures r.log[n].call < |r.writes| && ShortEndsAt(r.writes[r.log[n].call], r.log, n) {
      assert ShortEndsAt(s.writes[s.log[n].call], s.log, n);
    }
  }

  lemma BeginShortEnds(s: State, i: nat, connected: bool, limit: nat)
    requires Consistent(s) && PerCall(s) && ShortEnds(s) && i < |s.writes| && Enabled(s.slots, Grant(i))
    requires forall c <- s.log :: c.call != i
    ensures ShortEnds(OnBegin(s, i, connected, limit))
  {
    var m := Admit(s, i, limit);
    forall n | 0 <= n < |s.log| ensures s.log[n].call != i { assert s.log[n] in s.log; }
    QuietShortEnds(s, m);
    AdmitPerCall(s, i, limit);
    if connected && |s.writes[i].data| > 0 { HandNextShortEnds(m, i); } else { QuietShortEnds(m, Exit(m, i, connected)); }
  }

  lemma ShortEndsStep(s: State, e: WriteEvent)
    requires Consistent(s) && PerCall(s) && ShortEnds(s) && Possible(s, e)
    requires e.Begin? ==> forall c <- s.log :: c.call != e.i
    ensures ShortEnds(WriteStep(s, e))
  {
    match e
    case Begin(i, connected, mtu, reported) =>
      BeginShortEnds(s, i, connected, MaxWriteRequestPayloadBytes(RawMtu(mtu, reported)));
    case ChunkDone(i, ok, connected) =>
      var done := s.writes[i].handed >= |s.writes[i].data|;
      if !ok || done || !connected { QuietShortEnds(s, WriteStep(s, e)); } else { HandNextShortEnds(s, i); }
    case _ => QuietShortEnds(s, WriteStep(s, e));
  }

  ghost predicate Good(s: State) { Consistent(s) && ChunksFit(s) && PerCall(s) && InCallOrder(s) && ShortEnds(s) }

  lemma {:induction false} GoodRun(s: State, es: seq<WriteEvent>)
    requires Good(s) && Legal(s, es)
    ensures Good(Run(s, es))
    decreases |es|
  {
    if es != [] {
      ConsistentStep(s, es[0]);
      if es[0].Begin? { UnstartedUnlogged(s, es[0].i); }
      ChunksFitStep(s, es[0]);
      PerCallStep(s, es[0]);
      InCallOrderStep(s, es[0]);
      ShortEndsStep(s, es[0]);
      GoodRun(WriteStep(s, es[0]), es[1..]);
    }
  }

  lemma NothingYet()
    ensures Good(INITIAL)
  {
  }

  lemma RunGood(s: State, es: seq<WriteEvent>)
    requires Legal(INITIAL, es) && s == Run(INITIAL, es)
    ensures Good(s)
  {
    NothingYet();
    GoodRun(INITIAL, es);
  }

  lemma RunConsistent(s: State, es: seq<WriteEvent>)
    requires Legal(INITIAL, es) && s == Run(INITIAL, es)
    ensures Consistent(s)
  {
    RunGood(s, es);
  }

  lemma RunPerCall(s: State, es: seq<WriteEvent>)
    requires Legal(INITIAL, es) && s == Run(INITIAL, es)
    ensures PerCall(s)
  {
    RunGood(s, es);
  }

  lemma RunFits(s: State, es: seq<WriteEvent>)
    requires Legal(INITIAL, es) && s == Run(INITIAL, es)
    ensures ChunksFit(s) && ShortEnds(s)
  {
    RunGood(s, es);
  }

  lemma RunInOrder(s: State, es: seq<WriteEvent>)
    requires Legal(INITIAL, es) && s == Run(INITIAL, es)
    ensures InCallOrder(s)
  {
    RunGood(s, es);
  }

  /** Over every run what was handed over for a call is a prefix of its payload, the whole of it on success. */
  lemma WritesArePrefixes(s: State, es: seq<WriteEvent>, i: nat)
    requires Legal(INITIAL, es) && s == Run(INITIAL, es) && i < |s.writes|
    ensures s.writes[i].handed <= |s.writes[i].data|
    ensures HandedFor(s.log, i) == s.writes[i].data[..s.writes[i].handed]
    ensures s.writes[i].whole ==> HandedFor(s.log, i) == s.writes[i].data
  {
    RunGood(s, es);
    PrefixAt(s, i);
    if s.writes[i].whole { WholeAt(s, i); }
  }

  lemma PrefixAt(s: State, i: nat)
    requires PerCall(s) && i < |s.writes|
    ensures s.writes[i].handed <= |s.writes[i].data|
    ensures HandedFor(s.log, i) == s.writes[i].data[..s.writes[i].handed]
  {
  }

  lemma WholeAt(s: State, i: nat)
    requires Consistent(s) && i < |s.writes| && s.writes[i].whole
    ensures s.writes[i].data[..s.writes[i].handed] == s.writes[i].data
  {
  }

  /** Every chunk belongs to a call, is not empty and keeps within the limit the link had for that call. */
  lemma ChunksWithinLimit(s: State, es: seq<WriteEvent>, c: Chunk)
    requires Legal(INITIAL, es) && s == Run(INITIAL, es) && c in s.log
    ensures c.call < |s.writes| && 0 < |c.bytes| <= s.writes[c.call].limit <= PAYLOAD_CAP
  {
    RunFits(s, es);
  }

  /**
   * The chunks of a call are all as long as its limit allows: only the last one of a payload is shorter,
   * and with it the bytes handed over for the call are the payload.
   */
  lemma OnlyLastChunkShort(s: State, es: seq<WriteEvent>, n: nat)
    requires Legal(INITIAL, es) && s == Run(INITIAL, es) && n < |s.log|
    ensures s.log[n].call < |s.writes|
    ensures
      var w := s.writes[s.log[n].call];
      |s.log[n].bytes| <= w.limit && (|s.log[n].bytes| < w.limit ==> HandedFor(s.log[..n + 1], s.log[n].call) == w.data)
  {
    RunFits(s, es);
    assert s.log[n] in s.log;
    assert ShortEndsAt(s.writes[s.log[n].call], s.log, n);
  }

  /** A call that gets its turn goes by the limit of that moment: with a connection its first chunk leaves at once. */
  lemma TurnHandsFirst(s: State, es: seq<WriteEvent>, i: nat, connected: bool, mtu: Option<real>, reported: Option<real>)
    requires Legal(INITIAL, es) && s == Run(INITIAL, es) && Possible(s, Begin(i, connected, mtu, reported))
    ensures
      var r, data := WriteStep(s, Begin(i, connected, mtu, reported)), s.writes[i].data;
      var limit := MaxWriteRequestPayloadBytes(if mtu.Some? then mtu else reported);
      && |r.writes| == |s.writes| && r.writes[i].limit == limit
      && r.log == (if connected && data != [] then s.log + [Chunk(i, data[..Min(limit, |data|)])] else s.log)
      && (r.slots[i].phase == Running <==> connected && data != [])
      && (r.writes[i].whole <==> connected && data == [])
  {
    RunConsistent(s, es);
    SanitizedOnce(reported);
    BeginHands(s, i, connected, MaxWriteRequestPayloadBytes(RawMtu(mtu, reported)));
  }

  lemma BeginHands(s: State, i: nat, connected: bool, limit: nat)
    requires Consistent(s) && i < |s.writes| && Enabled(s.slots, Grant(i)) && limit > 0
    ensures
      var r, data := OnBegin(s, i, connected, limit), s.writes[i].data;
      && |r.writes| == |s.writes| == |r.slots| && r.writes[i].limit == limit
      && r.log == (if connected && data != [] then s.log + [Chunk(i, data[..Min(limit, |data|)])] else s.log)
      && (r.slots[i].phase == Running <==> connected && data != [])
      && (r.writes[i].whole <==> connected && data == [])
  {
    assert !Started(s.slots[i]) && !s.writes[i].whole;
  }

  /** Every exited call settled its slot, and only those did. */
  lemma WriteExitedSettles(s: State, es: seq<WriteEvent>, i: nat)
    requires Legal(INITIAL, es) && s == Run(INITIAL, es) && i < |s.writes|
    ensures i < |s.slots| && (s.slots[i].released <==> s.slots[i].phase == Finished || s.slots[i].phase == TimedOut)
  {
    RunConsistent(s, es);
  }

  /** If no wait timed out, the bytes on the link are those prefixes one call after the other. */
  lemma WritesInCallOrder(s: State, es: seq<WriteEvent>)
    requires Legal(INITIAL, es) && s == Run(INITIAL, es) && NoTimeouts(s.slots)
    ensures forall w <- s.writes :: w.handed <= |w.data|
    ensures AllBytes(s.log) == Prefixes(s.writes)
  {
    RunInOrder(s, es);
  }

  /** A call ends without error exactly when its last chunk is acknowledged, whatever happens in between. */
  lemma WholeUnlessChunkFails(s: State, es: seq<WriteEvent>, i: nat, ok: bool, connected: bool)
    requires Legal(INITIAL, es) && s == Run(INITIAL, es) && Possible(s, ChunkDone(i, ok, connected))
    ensures
      var r := WriteStep(s, ChunkDone(i, ok, connected));
      && (r.slots[i].phase == Running <==> ok && connected && s.writes[i].handed < |s.writes[i].data|)
      && (r.writes[i].whole <==> ok && HandedFor(s.log, i) == s.writes[i].data)
  {
    RunConsistent(s, es);
    RunPerCall(s, es);
  }

  class NobleWriter {
    var slots: Queue
    var writes: seq<Write>
    /** What was handed to `writeAsync`, in order. */
    var log: seq<Chunk>

    ghost function View(): State
      reads this
    {
      State(slots, writes, log)
    }

    ghost predicate Valid()
      reads this
    {
      Consistent(View())
    }

    constructor ()
      ensures View() == INITIAL && Valid()
    {
      slots, writes, log := [], [], [];
    }

    method Enqueue(data: Bytes) returns (ticket: nat)
      requires Valid()
      modifies this
      ensures Valid() && View() == WriteStep(old(View()), Submit(data)) && ticket == |old(slots)|
    {
      ConsistentStep(View(), Submit(data));
      ticket := |slots|;
      slots := slots + [Slot(Waiting, false)];
      writes := writes + [Write(data, 0, 0, false)];
    }

    /** The wait for the previous write timed out: the `finally` releases the slot. */
    method WaitTimedOut(i: nat)
      requires Valid() && Possible(View(), GiveUp(i))
      modifies this
      ensures Valid() && View() == WriteStep(old(View()), GiveUp(i))
    {
      ConsistentStep(View(), GiveUp(i));
      slots := slots[i := Slot(TimedOut, true)];
    }

    method WaitGranted(i: nat, connected: bool, mtu: Option<real>, reported: Option<real>)
      requires Valid() && Possible(View(), Begin(i, connected, mtu, reported))
      modifies this
      ensures Valid() && View() == WriteStep(old(View()), Begin(i, connected, mtu, reported))
    {
      ConsistentStep(View(), Begin(i, connected, mtu, reported));
      var limit := MaxWriteRequestPayloadBytes(RawMtu(mtu, reported));
      slots := slots[i := slots[i].(phase := Running)];
      writes := writes[i := writes[i].(limit := limit, handed := 0)];
      if !connected {
        Finally(i, false);
        return;
      }
      if 0 < |writes[i].data| { WriteChunk(i); } else { Finally(i, true); }
    }

    /** One turn of the chunk loop, up to the await of the write. */
    method WriteChunk(i: nat)
      requires i < |writes| && writes[i].handed <= |writes[i].data|
      modifies this
      ensures View() == HandNext(old(View()), i)
    {
      var offset := writes[i].handed;
      var end := Min(offset + writes[i].limit, |writes[i].data|);
      log := log + [Chunk(i, writes[i].data[offset..end])];
      writes := writes[i := writes[i].(handed := end)];
    }

    method ChunkSettled(i: nat, ok: bool, connected: bool)
      requires Valid() && Possible(View(), ChunkDone(i, ok, connected))
      modifies this
      ensures Valid() && View() == WriteStep(old(View()), ChunkDone(i, ok, connected))
    {
      ConsistentStep(View(), ChunkDone(i, ok, connected));
      var done := writes[i].handed >= |writes[i].data|;
      if !ok || done || !connected {
        Finally(i, ok && done);
        return;
      }
      WriteChunk(i);
    }

    method Finally(i: nat, whole: bool)
      requires i < |writes| && Enabled(slots, Finish(i))
      modifies this
      ensures View() == Exit(old(View()), i, whole)
    {
      slots := slots[i := Slot(Finished, true)];
      writes := writes[i := writes[i].(whole := whole)];
    }
  }
}

/**
 * The fromRadio read pump of one session: a request flag and an active flag keep at most one pump
 * running, and every await of the pump is a scheduling point.
 */
module ReadPump {
  const MAX_ITERATIONS: nat := 512

  /** Where a pump is suspended: a read, or one of the pauses after data, an error or an early empty read. */
  datatype Pc = Reading(i: nat, early: bool) | Floor(i: nat) | BackOff | Poll | Ended

  datatype Read = Data | Empty | Failed

  /** `ready` says the characteristic and the connected peripheral are there; `started` counts started reads. */
  datatype State = State(requested: bool, active: bool, closing: bool, ready: bool, pumps: seq<Pc>, started: nat)

  /** `early` is the platform condition for re-polling, as it holds when the step runs. */
  datatype Event =
    | Request(early: bool)
    | ReadDone(p: nat, outcome: Read, early: bool)
    | PauseDone(p: nat, early: bool)
    | TearDown

  const INITIAL := State(false, false, false, true, [], 0)

  predicate Enabled(s: State, e: Event) {
    match e
    case ReadDone(p, _, _) => p < |s.pumps| && s.pumps[p].Reading?
    case PauseDone(p, _) => p < |s.pumps| && !s.pumps[p].Reading? && !s.pumps[p].Ended?
    case _ => true
  }

  function Goto(s: State, p: nat, pc: Pc): State
    requires p < |s.pumps|
  {
    s.(pumps := s.pumps[p := pc])
  }

  function End(s: State, p: nat): State
    requires p < |s.pumps|
  {
    Goto(s.(active := false), p, Ended)
  }

  /** One turn of the inner loop up to its read. */
  function Iterate(s: State, p: nat, i: nat, early: bool): State
    requires p < |s.pumps|
  {
    if s.closing || !s.ready then End(s, p) else Goto(s.(started := s.started + 1), p, Reading(i, early))
  }

  /** The test of the outer loop and, if it holds, the first turn of the inner one. */
  function Loop(s: State, p: nat, early: bool): State
    requires p < |s.pumps|
  {
    if !s.requested || s.closing then End(s, p)
    else
      var t := s.(requested := false);
      if !t.ready then End(t, p) else Iterate(t, p, 0, early)
  }

  function OnRequest(s: State, early: bool): State {
    if s.closing then s
    else
      var t := s.(requested := true);
      if s.active then t else Loop(t.(active := true, pumps := s.pumps + [Ended]), |s.pumps|, early)
  }

  function OnReadDone(s: State, p: nat, outcome: Read, early: bool): State
    requires p < |s.pumps| && s.pumps[p].Reading?
  {
    var pc := s.pumps[p];
    match outcome
    case Failed => Goto(s.(requested := s.requested || (pc.early && !s.closing)), p, BackOff)
    case Empty =>
      if pc.early && pc.i == 0 && !s.closing then Goto(s.(requested := true), p, Poll) else Loop(s, p, early)
    case Data => Goto(s, p, Floor(pc.i))
  }

  function OnPauseDone(s: State, p: nat, early: bool): State
    requires p < |s.pumps|
  {
    match s.pumps[p]
    case Floor(i) => if i + 1 < MAX_ITERATIONS then Iterate(s, p, i + 1, early) else Loop(s, p, early)
    case _ => Loop(s, p, early)
  }

  function Step(s: State, e: Event): State
    requires Enabled(s, e)
  {
    match e
    case Request(early) => OnRequest(s, early)
    case ReadDone(p, outcome, early) => OnReadDone(s, p, outcome, early)
    case PauseDone(p, early) => OnPauseDone(s, p, early)
    case TearDown => s.(closing := true, ready := false)
  }

  predicate Live(s: State) { !s.closing && s.ready }

  /** At most one pump is running, the last one, and it runs exactly while the flag is up. */
  ghost predicate Single(s: State) {
    && (forall p :: 0 <= p < |s.pumps| - 1 ==> s.pumps[p].Ended?)
    && (s.active <==> s.pumps != [] && !s.pumps[|s.pumps| - 1].Ended?)
  }

  /** `owed` says that no read started since the last accepted request. */
  function Owed(owed: bool, s: State, e: Event): bool
    requires Enabled(s, e)
  {
    if Step(s, e).started > s.started then false
    else if e.Request? && !s.closing then true
    else owed
  }

  ghost predicate Inv(s: State, owed: bool) {
    Single(s) && (Live(s) ==> (owed ==> s.requested) && (s.requested ==> s.active))
  }

  lemma LoopSingle(s: State, p: nat, early: bool)
    requires p + 1 == |s.pumps| && s.active && forall q :: 0 <= q < p ==> s.pumps[q].Ended?
    ensures Single(Loop(s, p, early))
    ensures Live(Loop(s, p, early)) && Loop(s, p, early).requested ==> Loop(s, p, early).active
  {
  }

  lemma InvRequest(s: State, owed: bool, early: bool)
    requires Inv(s, owed)
    ensures Inv(OnRequest(s, early), Owed(owed, s, Request(early)))
  {
    if !s.closing && !s.active {
      LoopSingle(s.(requested := true, active := true, pumps := s.pumps + [Ended]), |s.pumps|, early);
    }
  }

  lemma InvRead(s: State, owed: bool, p: nat, outcome: Read, early: bool)
    requires Inv(s, owed) && Enabled(s, ReadDone(p, outcome, early))
    ensures Inv(OnReadDone(s, p, outcome, early), Owed(owed, s, ReadDone(p, outcome, early)))
  {
    assert p + 1 == |s.pumps|;
    LoopSingle(s, p, early);
  }

  lemma InvPause(s: State, owed: bool, p: nat, early: bool)
    requires Inv(s, owed) && Enabled(s, PauseDone(p, early))
    ensures Inv(OnPauseDone(s, p, early), Owed(owed, s, PauseDone(p, early)))
  {
    assert p + 1 == |s.pumps|;
    LoopSingle(s, p, early);
  }

  lemma InvStep(s: State, owed: bool, e: Event)
    requires Inv(s, owed) && Enabled(s, e)
    ensures Inv(Step(s, e), Owed(owed, s, e))
  {
    match e
    case Request(early) => InvRequest(s, owed, early);
    case ReadDone(p, outcome, early) => InvRead(s, owed, p, outcome, early);
    case PauseDone(p, early) => InvPause(s, owed, p, early);
    case TearDown =>
  }

  ghost predicate Legal(s: State, es: seq<Event>)
    decreases |es|
  {
    es == [] || (Enabled(s, es[0]) && Legal(Step(s, es[0]), es[1..]))
  }

  ghost function Run(s: State, es: seq<Event>): State
    requires Legal(s, es)
    decreases |es|
  {
    if es == [] then s else Run(Step(s, es[0]), es[1..])
  }

  ghost function RunOwed(owed: bool, s: State, es: seq<Event>): bool
    requires Legal(s, es)
    decreases |es|
  {
    if es == [] then owed else RunOwed(Owed(owed, s, es[0]), Step(s, es[0]), es[1..])
  }

  lemma {:induction false} InvRun(s: State, owed: bool, es: seq<Event>)
    requires Inv(s, owed) && Legal(s, es)
    ensures Inv(Run(s, es), RunOwed(owed, s, es))
    decreases |es|
  {
    if es != [] {
      InvStep(s, owed, es[0]);
      InvRun(Step(s, es[0]), Owed(owed, s, es[0]), es[1..]);
    }
  }

  /** Steps of the running pump before the next read at the latest. */
  function Distance(s: State): nat {
    if s.pumps == [] then 0
    else match s.pumps[|s.pumps| - 1]
      case Reading(_, _) => 2
      case Ended => 0
      case _ => 1
  }

  /**
   * No wake-up is lost: in every run of a live session a request without a read since keeps a pump
   * active, at most one pump runs, and each step of that pump starts a read or brings it closer,
   * within two steps, while other events do not push it back.
   */
  lemma RequestIsServed(s: State, owed: bool, es: seq<Event>, e: Event)
    requires Legal(INITIAL, es) && s == Run(INITIAL, es) && owed == RunOwed(false, INITIAL, es)
    requires Live(s) && Enabled(s, e) && !e.TearDown?
    ensures forall p, q :: 0 <= p < q < |s.pumps| ==> s.pumps[p].Ended? || s.pumps[q].Ended?
    ensures owed ==> s.requested
    ensures s.requested ==> s.active && 1 <= Distance(s) <= 2
    ensures s.requested ==>
      var t := Step(s, e);
      || t.started > s.started
      || (t.requested && t.active && Live(t) && Distance(t) <= Distance(s) && (!e.Request? ==> Distance(t) < Distance(s)))
  {
    InvRun(INITIAL, false, es);
    InvStep(s, owed, e);
  }

  /** Reads that return data, each followed by its pause; `earlies` is the platform condition after each. */
  function DataRounds(p: nat, earlies: seq<bool>): seq<Event> {
    if earlies == [] then []
    else [ReadDone(p, Data, earlies[0]), PauseDone(p, earlies[0])] + DataRounds(p, earlies[1..])
  }

  lemma RunTwo(s: State, e: Event, f: Event, rest: seq<Event>)
    requires Enabled(s, e) && Enabled(Step(s, e), f)
    ensures
      var t := Step(Step(s, e), f);
      Legal(t, rest) ==> Legal(s, [e, f] + rest) && Run(s, [e, f] + rest) == Run(t, rest)
  {
    var es := [e, f] + rest;
    assert es[0] == e && es[1..] == [f] + rest;
    assert ([f] + rest)[0] == f && ([f] + rest)[1..] == rest;
    if Legal(Step(Step(s, e), f), rest) {
      assert Legal(Step(s, e), [f] + rest) && Run(Step(s, e), [f] + rest) == Run(Step(Step(s, e), f), rest);
    }
  }

  lemma OneRound(s: State, p: nat, early: bool)
    requires Live(s) && p < |s.pumps| && s.pumps[p].Reading? && s.pumps[p].i + 1 < 512
    ensures Enabled(s, ReadDone(p, Data, early)) && Enabled(Step(s, ReadDone(p, Data, early)), PauseDone(p, early))
    ensures Step(Step(s, ReadDone(p, Data, early)), PauseDone(p, early)) ==
      s.(started := s.started + 1, pumps := s.pumps[p := Reading(s.pumps[p].i + 1, early)])
  {
  }

  /** While reads return data the pump of a live session reads on, up to 512 times, whatever is requested meanwhile. */
  lemma {:induction false} DataReadsOn(s: State, p: nat, earlies: seq<bool>)
    requires Live(s) && p < |s.pumps| && s.pumps[p].Reading? && s.pumps[p].i + |earlies| < 512
    ensures Legal(s, DataRounds(p, earlies))
    ensures
      var t := Run(s, DataRounds(p, earlies));
      && t.started == s.started + |earlies|
      && t == s.(started := t.started, pumps := t.pumps) && |t.pumps| == |s.pumps|
      && t.pumps[p].Reading? && t.pumps[p].i == s.pumps[p].i + |earlies|
    decreases |earlies|
  {
    if earlies != [] {
      OneRound(s, p, earlies[0]);
      RunTwo(s, ReadDone(p, Data, earlies[0]), PauseDone(p, earlies[0]), DataRounds(p, earlies[1..]));
      DataReadsOn(s.(started := s.started + 1, pumps := s.pumps[p := Reading(s.pumps[p].i + 1, earlies[0])]), p, earlies[1..]);
    }
  }

  /**
   * What ends a drain: an empty read after data, or one where the platform asks for no second look, ends
   * the pump unless a request came in, which starts over; an empty first read may be repeated after a pause.
   */
  lemma EmptyReadEnds(s: State, p: nat, early: bool, later: bool)
    requires Live(s) && p < |s.pumps| && s.pumps[p].Reading?
    ensures
      var pc, t := s.pumps[p], Step(s, ReadDone(p, Empty, early));
      if pc.early && pc.i == 0 then
        && t == s.(requested := true, pumps := s.pumps[p := Poll])
        && Step(t, PauseDone(p, later)) == ReadsAgain(s, p, later)
      else if s.requested then t == ReadsAgain(s, p, early)
      else t == s.(active := false, pumps := s.pumps[p := Ended])
  {
  }

  /** A failed read backs off; then the pump starts over if a request came in or the platform asks for it, and else ends. */
  lemma FailedReadBacksOff(s: State, p: nat, early: bool, later: bool)
    requires Live(s) && p < |s.pumps| && s.pumps[p].Reading?
    ensures
      var pc, t := s.pumps[p], Step(s, ReadDone(p, Failed, early));
      && t.pumps == s.pumps[p := BackOff] && t.started == s.started
      && Step(t, PauseDone(p, later)) ==
           if s.requested || pc.early then ReadsAgain(s, p, later)
           else s.(active := false, pumps := s.pumps[p := Ended])
  {
  }

  /** The pump `p` starts over: the request is taken and a first read is under way. */
  function ReadsAgain(s: State, p: nat, early: bool): State
    requires p < |s.pumps|
  {
    s.(requested := false, started := s.started + 1, pumps := s.pumps[p := Reading(0, early)])
  }

  /** The 512th read of a drain that still returns data ends it as an empty one does. */
  lemma DrainIsBounded(s: State, p: nat, early: bool)
    requires Live(s) && p < |s.pumps| && s.pumps[p].Reading? && s.pumps[p].i == 511
    ensures
      var t := Step(Step(s, ReadDone(p, Data, early)), PauseDone(p, early));
      t == if s.requested then ReadsAgain(s, p, early) else s.(active := false, pumps := s.pumps[p := Ended])
  {
  }

  /** A request starts a pump with a first read, or leaves word for the one that runs; a closing session ignores it. */
  lemma RequestStarts(s: State, early: bool)
    ensures
      var t := Step(s, Request(early));
      && (s.closing ==> t == s)
      && (Live(s) && s.active ==> t == s.(requested := true))
      && (Live(s) && !s.active ==>
            t == s.(requested := false, active := true, started := s.started + 1, pumps := s.pumps + [Reading(0, early)]))
  {
    assert (s.pumps + [Ended])[|s.pumps| := Reading(0, early)] == s.pumps + [Reading(0, early)];
  }

  /** A session that is torn down starts no further read. */
  lemma {:induction false} TornDownReadsNothing(s: State, es: seq<Event>)
    requires s.closing && Legal(s, es)
    ensures Run(s, es).started == s.started
    decreases |es|
  {
    if es != [] { TornDownReadsNothing(Step(s, es[0]), es[1..]); }
  }

  class PumpSession {
    var readPumpRequested: bool
    var readPumpActive: bool
    var closing: bool
    var ready: bool
    /** Every run of the pump so far, and the reads started. */
    var pumps: seq<Pc>
    var readsStarted: nat

    ghost function View(): State
      reads this
    {
      State(readPumpRequested, readPumpActive, closing, ready, pumps, readsStarted)
    }

    constructor ()
      ensures View() == INITIAL
    {
      readPumpRequested, readPumpActive, closing, ready, pumps, readsStarted := false, false, false, true, [], 0;
    }

    method RequestFromRadioReadPump(early: bool)
      modifies this
      ensures View() == OnRequest(old(View()), early)
    {
      if closing { return; }
      readPumpRequested := true;
      if readPumpActive { return; }
      readPumpActive := true;
      pumps := pumps + [Ended];
      OuterLoop(|pumps| - 1, early);
    }

    method OuterLoop(p: nat, early: bool)
      requires p < |pumps|
      modifies this
      ensures View() == Loop(old(View()), p, early)
    {
      if !readPumpRequested || closing {
        Finally(p);
        return;
      }
      readPumpRequested := false;
      if !ready {
        Finally(p);
        return;
      }
      InnerLoop(p, 0, early);
    }

    method InnerLoop(p: nat, i: nat, early: bool)
      requires p < |pumps|
      modifies this
      ensures View() == Iterate(old(View()), p, i, early)
    {
      if closing || !ready {
        Finally(p);
        return;
      }
      readsStarted := readsStarted + 1;
      pumps := pumps[p := Reading(i, early)];
    }

    method Finally(p: nat)
      requires p < |pumps|
      modifies this
      ensures View() == End(old(View()), p)
    {
      readPumpActive := false;
      pumps := pumps[p := Ended];
    }

    method ReadSettled(p: nat, outcome: Read, early: bool)
      requires Enabled(View(), ReadDone(p, outcome, early))
      modifies this
      ensures View() == OnReadDone(old(View()), p, outcome, early)
    {
      var pc := pumps[p];
      match outcome
      case Failed =>
        if pc.early && !closing { readPumpRequested := true; }
        pumps := pumps[p := BackOff];
      case Empty =>
        if pc.early && pc.i == 0 && !closing {
          readPumpRequested := true;
          pumps := pumps[p := Poll];
        } else {
          OuterLoop(p, early);
        }
      case Data => pumps := pumps[p := Floor(pc.i)];
    }

    method PauseElapsed(p: nat, early: bool)
      requires Enabled(View(), PauseDone(p, early))
      modifies this
      ensures View() == OnPauseDone(old(View()), p, early)
    {
      var pc := pumps[p];
      if pc.Floor? && pc.i + 1 < MAX_ITERATIONS {
        InnerLoop(p, pc.i + 1, early);
      } else {
        OuterLoop(p, early);
      }
    }
  }
}
