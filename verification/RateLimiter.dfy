/** The sliding-window limiter of IPC calls and of link previews. */
module RateLimiter {
  import opened Common

  // ---------------------------------------------------------------- the limiter and its definition by history

  /** `timestamps` after dropping what is older than the cutoff from the front. */
  function Expire(timestamps: seq<int>, cutoff: int): seq<int> {
    if timestamps != [] && timestamps[0] < cutoff then Expire(timestamps[1..], cutoff) else timestamps
  }

  /** The timestamps kept and the times admitted so far. */
  datatype State = State(timestamps: seq<int>, admitted: seq<int>)

  const INITIAL := State([], [])

  predicate Admits(timestamps: seq<int>, max: int, window: int, now: int) { |Expire(timestamps, now - window)| < max }

  function Attempt(s: State, max: int, window: int, now: int): State {
    var live := Expire(s.timestamps, now - window);
    if |live| >= max then s.(timestamps := live) else State(live + [now], s.admitted + [now])
  }

  function Run(s: State, max: int, window: int, attempts: seq<int>): State
    decreases |attempts|
  {
    if attempts == [] then s else Run(Attempt(s, max, window, attempts[0]), max, window, attempts[1..])
  }

  /** How many of the times lie in the closed interval. */
  function CountIn(times: seq<int>, lo: int, hi: int): nat {
    if times == [] then 0
    else
      var n := |times| - 1;
      CountIn(times[..n], lo, hi) + (if lo <= times[n] <= hi then 1 else 0)
  }

  /** By full history: admit while fewer than `max` admissions lie in the window that ends now. */
  function Consider(history: seq<int>, max: int, window: int, now: int): seq<int> {
    if CountIn(history, now - window, now) < max then history + [now] else history
  }

  function Ideal(history: seq<int>, max: int, window: int, attempts: seq<int>): seq<int>
    decreases |attempts|
  {
    if attempts == [] then history else Ideal(Consider(history, max, window, attempts[0]), max, window, attempts[1..])
  }

  predicate Nondecreasing(times: seq<int>) { forall i, j :: 0 <= i < j < |times| ==> times[i] <= times[j] }

  // ---------------------------------------------------------------- counting

  lemma {:induction false} CountMono(times: seq<int>, lo: int, hi: int, lo': int, hi': int)
    requires forall i :: 0 <= i < |times| ==> (lo <= times[i] <= hi ==> lo' <= times[i] <= hi')
    ensures CountIn(times, lo, hi) <= CountIn(times, lo', hi')
  {
    if times != [] { CountMono(times[..|times| - 1], lo, hi, lo', hi'); }
  }

  // ---------------------------------------------------------------- refinement

  /** What is left is the end of the list, from the first time that is not before the cutoff. */
  lemma {:induction false} ExpireIsEnd(timestamps: seq<int>, cutoff: int)
    ensures var live := Expire(timestamps, cutoff);
      |live| <= |timestamps| && live == timestamps[|timestamps| - |live|..]
    ensures forall i :: 0 <= i < |timestamps| - |Expire(timestamps, cutoff)| ==> timestamps[i] < cutoff
    ensures Expire(timestamps, cutoff) != [] ==> Expire(timestamps, cutoff)[0] >= cutoff
  {
    if timestamps != [] && timestamps[0] < cutoff { ExpireIsEnd(timestamps[1..], cutoff); }
  }

  /** In order, what is dropped is before the cutoff and what is left is not. */
  lemma ExpireSplits(timestamps: seq<int>, cutoff: int)
    requires Nondecreasing(timestamps)
    ensures var d := |timestamps| - |Expire(timestamps, cutoff)|;
      && 0 <= d && Expire(timestamps, cutoff) == timestamps[d..]
      && (forall i :: 0 <= i < d ==> timestamps[i] < cutoff)
      && (forall i :: d <= i < |timestamps| ==> cutoff <= timestamps[i])
  {
    ExpireIsEnd(timestamps, cutoff);
    var d := |timestamps| - |Expire(timestamps, cutoff)|;
    if d < |timestamps| { assert timestamps[d] == Expire(timestamps, cutoff)[0]; }
  }

  /** How much of the history is no longer kept. */
  function Gone(s: State): int { |s.admitted| - |s.timestamps| }

  /** The kept timestamps are the end of the history; what is gone is out of the window for good. */
  predicate Inv(s: State, window: int, clock: int) {
    && 0 <= Gone(s) && s.timestamps == s.admitted[Gone(s)..]
    && Nondecreasing(s.admitted)
    && (forall i :: 0 <= i < |s.admitted| ==> s.admitted[i] <= clock)
    && (forall i :: 0 <= i < Gone(s) ==> s.admitted[i] < clock - window)
  }

  lemma ExpireInv(s: State, window: int, clock: int, now: int)
    requires Inv(s, window, clock) && clock <= now
    ensures var s' := s.(timestamps := Expire(s.timestamps, now - window));
      Inv(s', window, now) && forall i :: Gone(s') <= i < |s'.admitted| ==> now - window <= s'.admitted[i]
  {
    ExpireSplits(s.timestamps, now - window);
  }

  /** Counting the end of a list whose beginning is too old. */
  lemma {:induction false} CountEnd(times: seq<int>, k: nat, lo: int, hi: int)
    requires k <= |times| && forall i :: 0 <= i < k ==> times[i] < lo
    requires forall i :: k <= i < |times| ==> lo <= times[i] <= hi
    ensures CountIn(times, lo, hi) == |times| - k
  {
    if times != [] {
      var n := |times| - 1;
      CountEnd(times[..n], if k > n then n else k, lo, hi);
    }
  }

  /** Dropping from the front leaves exactly the admissions of the window `[now - window, now]`. */
  lemma ExpireCounts(s: State, window: int, clock: int, now: int)
    requires Inv(s, window, clock) && clock <= now
    ensures |Expire(s.timestamps, now - window)| == CountIn(s.admitted, now - window, now)
  {
    ExpireInv(s, window, clock, now);
    CountEnd(s.admitted, |s.admitted| - |Expire(s.timestamps, now - window)|, now - window, now);
  }

  lemma PushInv(s: State, window: int, now: int)
    requires Inv(s, window, now)
    ensures Inv(State(s.timestamps + [now], s.admitted + [now]), window, now)
  {
  }

  lemma AttemptInv(s: State, max: int, window: int, clock: int, now: int)
    requires Inv(s, window, clock) && clock <= now
    ensures Inv(Attempt(s, max, window, now), window, now)
    ensures Attempt(s, max, window, now).admitted == Consider(s.admitted, max, window, now)
  {
    ExpireInv(s, window, clock, now);
    ExpireCounts(s, window, clock, now);
    PushInv(s.(timestamps := Expire(s.timestamps, now - window)), window, now);
  }

  /** The attempts come on a clock that does not run backwards from `clock`. */
  predicate Timely(clock: int, attempts: seq<int>)
    decreases |attempts|
  {
    attempts == [] || (clock <= attempts[0] && Timely(attempts[0], attempts[1..]))
  }

  lemma {:induction false} LimiterIsIdealFrom(s: State, max: int, window: int, clock: int, attempts: seq<int>)
    requires Inv(s, window, clock) && Timely(clock, attempts)
    ensures Run(s, max, window, attempts).admitted == Ideal(s.admitted, max, window, attempts)
    decreases |attempts|
  {
    if attempts != [] {
      AttemptInv(s, max, window, clock, attempts[0]);
      LimiterIsIdealFrom(Attempt(s, max, window, attempts[0]), max, window, attempts[0], attempts[1..]);
    }
  }

  /**
   * On a clock that does not run backwards the limiter agrees with the definition by full history: an
   * attempt is admitted exactly when fewer than `max` admissions lie in `[now - window, now]`.
   */
  lemma LimiterIsIdeal(max: int, window: int, attempts: seq<int>)
    requires attempts != [] ==> Timely(attempts[0], attempts)
    ensures Run(INITIAL, max, window, attempts).admitted == Ideal([], max, window, attempts)
  {
    if attempts != [] { LimiterIsIdealFrom(INITIAL, max, window, attempts[0], attempts); }
  }

  /** No time is later than `clock`, and the window from `lo` holds at most `max` of them. */
  predicate Bounded(history: seq<int>, max: int, window: int, clock: int, lo: int) {
    && (forall i :: 0 <= i < |history| ==> history[i] <= clock)
    && CountIn(history, lo, lo + window) <= Max(max, 0)
  }

  lemma ConsiderBounded(history: seq<int>, max: int, window: int, clock: int, now: int, lo: int)
    requires Bounded(history, max, window, clock, lo) && clock <= now
    ensures Bounded(Consider(history, max, window, now), max, window, now, lo)
  {
    if CountIn(history, now - window, now) < max {
      assert (history + [now])[..|history|] == history;
      if lo <= now <= lo + window { CountMono(history, lo, lo + window, now - window, now); }
    }
  }

  lemma {:induction false} IdealBounded(history: seq<int>, max: int, window: int, clock: int, attempts: seq<int>, lo: int)
    requires Bounded(history, max, window, clock, lo) && Timely(clock, attempts)
    ensures CountIn(Ideal(history, max, window, attempts), lo, lo + window) <= Max(max, 0)
    decreases |attempts|
  {
    if attempts != [] {
      ConsiderBounded(history, max, window, clock, attempts[0], lo);
      IdealBounded(Consider(history, max, window, attempts[0]), max, window, attempts[0], attempts[1..], lo);
    }
  }

  /** Over any run, every closed window of the given length holds at most `max` admissions. */
  lemma WindowBound(max: int, window: int, attempts: seq<int>, lo: int)
    requires attempts != [] ==> Timely(attempts[0], attempts)
    ensures CountIn(Run(INITIAL, max, window, attempts).admitted, lo, lo + window) <= Max(max, 0)
  {
    LimiterIsIdeal(max, window, attempts);
    if attempts != [] { IdealBounded([], max, window, attempts[0], attempts, lo); }
  }

  // ---------------------------------------------------------------- on any clock

  /** The kept timestamps are the end of the history, whatever the clock did. */
  predicate Kept(s: State) { 0 <= Gone(s) && s.timestamps == s.admitted[Gone(s)..] }

  lemma AttemptKept(s: State, max: int, window: int, now: int)
    requires Kept(s)
    ensures Kept(Attempt(s, max, window, now))
  {
    ExpireIsEnd(s.timestamps, now - window);
  }

  lemma {:induction false} RunKept(s: State, max: int, window: int, attempts: seq<int>)
    requires Kept(s)
    ensures Kept(Run(s, max, window, attempts))
    decreases |attempts|
  {
    if attempts != [] {
      AttemptKept(s, max, window, attempts[0]);
      RunKept(Attempt(s, max, window, attempts[0]), max, window, attempts[1..]);
    }
  }

  /** The admissions in the window that ends now: what the definition counts. */
  function InWindow(s: State, window: int, now: int): nat { CountIn(s.admitted, now - window, now) }

  /** Kept timestamps outside the window: later than now, or expired behind a later one. */
  function KeptOutside(s: State, window: int, now: int): int {
    var live := Expire(s.timestamps, now - window);
    |live| - CountIn(live, now - window, now)
  }

  /** Admissions in the window that are no longer kept: dropped when the clock was ahead. */
  function DroppedInside(s: State, window: int, now: int): nat
    requires Kept(s)
  {
    ExpireIsEnd(s.timestamps, now - window);
    CountIn(s.admitted[..|s.admitted| - |Expire(s.timestamps, now - window)|], now - window, now)
  }

  lemma {:induction false} CountConcat(a: seq<int>, b: seq<int>, lo: int, hi: int)
    ensures CountIn(a + b, lo, hi) == CountIn(a, lo, hi) + CountIn(b, lo, hi)
    decreases |b|
  {
    if b == [] {
      assert a + b == a;
    } else {
      var n := |b| - 1;
      assert (a + b)[..|a| + n] == a + b[..n];
      CountConcat(a, b[..n], lo, hi);
    }
  }

  /** What the limiter compares with `max`, on any clock: the definition's count, off by two kinds of stray. */
  lemma KeptLength(s: State, window: int, now: int)
    requires Kept(s)
    ensures |Expire(s.timestamps, now - window)| ==
      InWindow(s, window, now) + KeptOutside(s, window, now) - DroppedInside(s, window, now)
  {
    LiveIsEnd(s, now - window);
    CountSplit(s.admitted, |s.admitted| - |Expire(s.timestamps, now - window)|, now - window, now);
  }

  lemma LiveIsEnd(s: State, cutoff: int)
    requires Kept(s)
    ensures var live := Expire(s.timestamps, cutoff);
      |live| <= |s.admitted| && live == s.admitted[|s.admitted| - |live|..]
  {
    ExpireIsEnd(s.timestamps, cutoff);
  }

  lemma CountSplit(times: seq<int>, k: nat, lo: int, hi: int)
    requires k <= |times|
    ensures CountIn(times, lo, hi) == CountIn(times[..k], lo, hi) + CountIn(times[k..], lo, hi)
  {
    CountConcat(times[..k], times[k..], lo, hi);
    assert times == times[..k] + times[k..];
  }

  /** The definition admits and the limiter refuses: strays kept outside the window use up what is left. */
  predicate WronglyRefused(s: State, max: int, window: int, now: int)
    requires Kept(s)
  {
    InWindow(s, window, now) < max <= InWindow(s, window, now) + KeptOutside(s, window, now) - DroppedInside(s, window, now)
  }

  /** The definition refuses and the limiter admits: too many of the window's admissions were dropped. */
  predicate WronglyAdmitted(s: State, max: int, window: int, now: int)
    requires Kept(s)
  {
    InWindow(s, window, now) + KeptOutside(s, window, now) - DroppedInside(s, window, now) < max <= InWindow(s, window, now)
  }

  /**
   * When an attempt of any run, on any clock, goes wrong: it is refused against the definition exactly
   * if `WronglyRefused`, and admitted against it, filling its window beyond `max`, exactly if
   * `WronglyAdmitted`.
   */
  lemma AttemptWrongIff(max: int, window: int, attempts: seq<int>, now: int)
    ensures var s := Run(INITIAL, max, window, attempts);
      Kept(s) &&
      var s' := Attempt(s, max, window, now);
      && (s'.admitted == s.admitted && InWindow(s, window, now) < max <==> WronglyRefused(s, max, window, now))
      && (s'.admitted != s.admitted && InWindow(s', window, now) > max <==>
            WronglyAdmitted(s, max, window, now))
  {
    RunKept(INITIAL, max, window, attempts);
    var s := Run(INITIAL, max, window, attempts);
    KeptLength(s, window, now);
    assert |s.admitted + [now]| > |s.admitted|;
    assert (s.admitted + [now])[..|s.admitted|] == s.admitted;
    if window < 0 {
      CountEmpty(s.admitted, now - window, now);
      CountEmpty(Attempt(s, max, window, now).admitted, now - window, now);
    }
  }

  lemma {:induction false} CountEmpty(times: seq<int>, lo: int, hi: int)
    requires lo > hi
    ensures CountIn(times, lo, hi) == 0
  {
    if times != [] { CountEmpty(times[..|times| - 1], lo, hi); }
  }

  /** The decisions of the limiter, and of the definition on its own history. */
  function Decisions(s: State, max: int, window: int, attempts: seq<int>): seq<bool>
    decreases |attempts|
  {
    if attempts == [] then []
    else
      [Admits(s.timestamps, max, window, attempts[0])] + Decisions(Attempt(s, max, window, attempts[0]), max, window, attempts[1..])
  }

  function IdealDecisions(history: seq<int>, max: int, window: int, attempts: seq<int>): seq<bool>
    decreases |attempts|
  {
    if attempts == [] then []
    else
      var now := attempts[0];
      [CountIn(history, now - window, now) < max] + IdealDecisions(Consider(history, max, window, now), max, window, attempts[1..])
  }

  predicate GoesRight(s: State, max: int, window: int, now: int)
    requires Kept(s)
  {
    !WronglyRefused(s, max, window, now) && !WronglyAdmitted(s, max, window, now)
  }

  lemma RightIff(s: State, max: int, window: int, now: int)
    requires Kept(s)
    ensures GoesRight(s, max, window, now) <==> (Admits(s.timestamps, max, window, now) <==> InWindow(s, window, now) < max)
    ensures GoesRight(s, max, window, now) ==> Attempt(s, max, window, now).admitted == Consider(s.admitted, max, window, now)
  {
    KeptLength(s, window, now);
  }

  /** No attempt of the run goes wrong. */
  predicate NeverWrong(s: State, max: int, window: int, attempts: seq<int>)
    requires Kept(s)
    decreases |attempts|
  {
    attempts == [] || (
      && GoesRight(s, max, window, attempts[0])
      && (AttemptKept(s, max, window, attempts[0]); NeverWrong(Attempt(s, max, window, attempts[0]), max, window, attempts[1..])))
  }

  /** On any clock limiter and definition take the same decisions exactly if no attempt goes wrong. */
  lemma {:induction false} DecisionsAgreeIff(s: State, max: int, window: int, attempts: seq<int>)
    requires Kept(s)
    ensures Decisions(s, max, window, attempts) == IdealDecisions(s.admitted, max, window, attempts) <==>
      NeverWrong(s, max, window, attempts)
    decreases |attempts|
  {
    if attempts != [] {
      var now, rest := attempts[0], attempts[1..];
      var s' := Attempt(s, max, window, now);
      AttemptKept(s, max, window, now);
      RightIff(s, max, window, now);
      SameHead(Admits(s.timestamps, max, window, now), Decisions(s', max, window, rest),
               InWindow(s, window, now) < max, IdealDecisions(Consider(s.admitted, max, window, now), max, window, rest));
      if GoesRight(s, max, window, now) { DecisionsAgreeIff(s', max, window, rest); }
    }
  }

  lemma SameHead(a: bool, as': seq<bool>, b: bool, bs: seq<bool>)
    ensures [a] + as' == [b] + bs <==> a == b && as' == bs
  {
    assert ([a] + as')[0] == a && ([a] + as')[1..] == as' && ([b] + bs)[0] == b && ([b] + bs)[1..] == bs;
  }

  /** A clock that steps back makes the limiter refuse too much: a later time in front shields an expired one. */
  lemma BackwardsRefusalWitness()
    ensures Run(INITIAL, 2, 10, [20, 0]) == State([20, 0], [20, 0])
    ensures WronglyRefused(State([20, 0], [20, 0]), 2, 10, 25)
  {
    assert Expire([20], -10) == [20] && Expire([20, 0], 15) == [20, 0];
    assert Attempt(INITIAL, 2, 10, 20) == State([20], [20]);
    assert Attempt(State([20], [20]), 2, 10, 0) == State([20, 0], [20, 0]);
    assert [20, 0][1..] == [0] && [0][1..] == [];
    assert Run(State([20], [20]), 2, 10, [0]) == State([20, 0], [20, 0]);
    assert [20, 0][..1] == [20] && [20][..0] == [] && CountIn([20, 0], 15, 25) == 1;
    KeptLength(State([20, 0], [20, 0]), 10, 25);
  }

  const BURST := [0, 0, 0, 20]

  /** It also makes the limiter admit too much: what was dropped at 20 is back in the window at 5. */
  lemma BackwardsAdmissionWitness()
    ensures Run(INITIAL, 3, 10, BURST) == State([20], BURST)
    ensures WronglyAdmitted(State([20], BURST), 3, 10, 5)
    ensures CountIn(Attempt(State([20], BURST), 3, 10, 5).admitted, -5, 5) == 4
  {
    BurstRun();
    assert Expire([20], -5) == [20];
    assert BURST[3..] == [20];
    assert CountIn([0, 0, 0], -5, 5) == 3 by {
      assert [0, 0, 0][..2] == [0, 0] && [0, 0][..1] == [0] && [0][..0] == [];
    }
    assert BURST[..3] == [0, 0, 0] && CountIn(BURST, -5, 5) == 3;
    KeptLength(State([20], BURST), 10, 5);
    assert BURST + [5] == [0, 0, 0, 20, 5] && [0, 0, 0, 20, 5][..4] == BURST;
  }

  lemma BurstAttempts()
    ensures Attempt(INITIAL, 3, 10, 0) == State([0], [0])
    ensures Attempt(State([0], [0]), 3, 10, 0) == State([0, 0], [0, 0])
    ensures Attempt(State([0, 0], [0, 0]), 3, 10, 0) == State([0, 0, 0], [0, 0, 0])
    ensures Attempt(State([0, 0, 0], [0, 0, 0]), 3, 10, 20) == State([20], BURST)
  {
    assert [0, 0] + [0] == [0, 0, 0];
    assert [0, 0, 0][1..] == [0, 0] && [0, 0][1..] == [0] && [0][1..] == [];
    assert Expire([0], 10) == [] && Expire([0, 0], 10) == [] && Expire([0, 0, 0], 10) == [];
    assert [] + [20] == [20] && [0, 0, 0] + [20] == BURST;
  }

  lemma RunHead(s: State, max: int, window: int, now: int, rest: seq<int>)
    ensures Run(s, max, window, [now] + rest) == Run(Attempt(s, max, window, now), max, window, rest)
  {
    assert ([now] + rest)[1..] == rest;
  }

  lemma BurstRun()
    ensures Run(INITIAL, 3, 10, BURST) == State([20], BURST)
  {
    BurstAttempts();
    RunHead(State([0, 0, 0], [0, 0, 0]), 3, 10, 20, []);
    RunHead(State([0, 0], [0, 0]), 3, 10, 0, [20]);
    RunHead(State([0], [0]), 3, 10, 0, [0, 20]);
    RunHead(INITIAL, 3, 10, 0, [0, 0, 20]);
    assert [20] + [] == [20] && [0] + [20] == [0, 20] && [0] + [0, 20] == [0, 0, 20] && [0] + [0, 0, 20] == BURST;
  }

  // ---------------------------------------------------------------- the object

  const LINK_PREVIEW_MAX := 20
  const LINK_PREVIEW_WINDOW_MS := 60_000

  class Limiter {
    const max: int
    const windowMs: int
    var timestamps: seq<int>
    ghost var admitted: seq<int>

    ghost function View(): State
      reads this
    {
      State(timestamps, admitted)
    }

    constructor (max: int, windowMs: int)
      ensures this.max == max && this.windowMs == windowMs && View() == INITIAL
    {
      this.max, this.windowMs := max, windowMs;
      timestamps, admitted := [], [];
    }

    constructor LinkPreviews()
      ensures max == LINK_PREVIEW_MAX && windowMs == LINK_PREVIEW_WINDOW_MS && View() == INITIAL
    {
      max, windowMs := LINK_PREVIEW_MAX, LINK_PREVIEW_WINDOW_MS;
      timestamps, admitted := [], [];
    }

    /** `checkOrThrow` throws where this answers false, as `takeLinkPreviewRateToken` does. */
    method TakeToken(now: int) returns (ok: bool)
      modifies this
      ensures View() == Attempt(old(View()), max, windowMs, now)
      ensures ok == Admits(old(timestamps), max, windowMs, now)
    {
      var cutoff := now - windowMs;
      while |timestamps| > 0
        invariant Expire(timestamps, cutoff) == Expire(old(timestamps), cutoff)
        invariant admitted == old(admitted)
        decreases |timestamps|
      {
        var oldest := timestamps[0];
        if oldest >= cutoff { break; }
        timestamps := timestamps[1..];
      }
      if |timestamps| >= max { return false; }
      timestamps := timestamps + [now];
      admitted := admitted + [now];
      return true;
    }
  }
}
