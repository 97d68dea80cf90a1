/** Fetching link previews: a bounded cache, one fetch at a time per link, and the rate limit. */
module LinkPreviews {
  import opened Common
  import OrderedMap
  import RateLimiter

  // ---------------------------------------------------------------- state

  /** A preview, `None` for a failed one, and when it goes stale. */
  datatype Entry = Entry(value: Option<string>, expires: int)

  /** A promise: running, or finished with its value before the `finally` handler has run, or settled. */
  datatype Stage = Running | Finished | Settled

  datatype Outcome = Outcome(value: Option<string>, at: int)

  datatype Fetch = Fetch(url: string, startedAt: int, stage: Stage, outcome: Option<Outcome>)

  /** The two maps and the limiter of the module, and all fetches ever started. */
  datatype State = State(
    cache: OrderedMap.OMap<Entry>, inFlight: map<string, nat>, limiter: RateLimiter.State, fetches: seq<Fetch>)

  const INITIAL := State([], map[], RateLimiter.INITIAL, [])

  const MAX_ENTRIES := 256
  const TTL_MS := 15 * 60 * 1000

  /** What a request is answered with. */
  datatype Answer = Cached(value: Option<string>) | Joined(fetch: nat) | Limited | Started(fetch: nat)

  datatype Event =
    | Request(url: string, now: int)
    | Completes(fetch: nat, value: Option<string>, now: int)
    | Rejects(fetch: nat)
    | Settles(fetch: nat)

  /** A running fetch may complete or fail; a finished one settles. */
  predicate Legal(s: State, e: Event) {
    match e
    case Request(_, _) => true
    case Completes(f, _, _) => f < |s.fetches| && s.fetches[f].stage == Running
    case Rejects(f) => f < |s.fetches| && s.fetches[f].stage == Running
    case Settles(f) => f < |s.fetches| && s.fetches[f].stage == Finished
  }

  // ---------------------------------------------------------------- steps

  /** `evictOldestCacheEntry`: room for one more. */
  function Evict(cache: OrderedMap.OMap<Entry>, max: int): OrderedMap.OMap<Entry> {
    if |cache| >= max && cache != [] then Evict(cache[1..], max) else cache
  }

  predicate Live(s: State, url: string, now: int) {
    var e := OrderedMap.Get(s.cache, url);
    e.Some? && e.value.expires > now
  }

  function AnswerTo(s: State, url: string, now: int): Answer {
    if Live(s, url, now) then Cached(OrderedMap.Get(s.cache, url).value.value)
    else if url in s.inFlight then Joined(s.inFlight[url])
    else if RateLimiter.Admits(s.limiter.timestamps, RateLimiter.LINK_PREVIEW_MAX, RateLimiter.LINK_PREVIEW_WINDOW_MS, now)
    then Started(|s.fetches|)
    else Limited
  }

  function TakeToken(s: State, now: int): State {
    s.(limiter := RateLimiter.Attempt(s.limiter, RateLimiter.LINK_PREVIEW_MAX, RateLimiter.LINK_PREVIEW_WINDOW_MS, now))
  }

  function StartFetch(s: State, url: string, now: int): State {
    s.(inFlight := s.inFlight[url := |s.fetches|], fetches := s.fetches + [Fetch(url, now, Running, None)])
  }

  function Finish(s: State, f: nat, outcome: Option<Outcome>): State
    requires f < |s.fetches|
  {
    s.(fetches := s.fetches[f := s.fetches[f].(stage := Finished, outcome := outcome)])
  }

  /** The `finally` handler deletes the map entry by link, whichever promise it holds. */
  function Settle(s: State, f: nat): State
    requires f < |s.fetches|
  {
    s.(inFlight := s.inFlight - {s.fetches[f].url}, fetches := s.fetches[f := s.fetches[f].(stage := Settled)])
  }

  function Store(s: State, url: string, value: Option<string>, now: int): State {
    s.(cache := OrderedMap.Put(Evict(s.cache, MAX_ENTRIES), url, Entry(value, now + TTL_MS)))
  }

  function Step(s: State, e: Event): State
    requires Legal(s, e)
  {
    match e
    case Request(url, now) =>
      (match AnswerTo(s, url, now)
       case Cached(_) => s
       case Joined(_) => s
       case Limited => TakeToken(s, now)
       case Started(_) => StartFetch(TakeToken(s, now), url, now))
    case Completes(f, value, now) => Finish(Store(s, s.fetches[f].url, value, now), f, Some(Outcome(value, now)))
    case Rejects(f) => Finish(s, f, None)
    case Settles(f) => Settle(s, f)
  }

  predicate LegalRun(s: State, events: seq<Event>)
    decreases |events|
  {
    events == [] || (Legal(s, events[0]) && LegalRun(Step(s, events[0]), events[1..]))
  }

  function Run(s: State, events: seq<Event>): State
    requires LegalRun(s, events)
    decreases |events|
  {
    if events == [] then s else Run(Step(s, events[0]), events[1..])
  }

  // ---------------------------------------------------------------- what every run keeps

  /** The map in flight names, per link, the one fetch that has not settled. */
  ghost predicate SingleFlight(s: State) {
    && (forall url <- s.inFlight.Keys ::
          var f := s.inFlight[url]; f < |s.fetches| && s.fetches[f].url == url && s.fetches[f].stage != Settled)
    && (forall f: nat :: f < |s.fetches| && s.fetches[f].stage != Settled ==>
          s.fetches[f].url in s.inFlight && s.inFlight[s.fetches[f].url] == f)
  }

  function StartTimes(fetches: seq<Fetch>): (r: seq<int>)
    ensures |r| == |fetches|
  {
    seq(|fetches|, f requires 0 <= f < |fetches| => fetches[f].startedAt)
  }

  /** A fetch of the link completed with the value, so long before that it goes stale at `expires`. */
  ghost predicate Made(fetches: seq<Fetch>, url: string, e: Entry) {
    exists f: nat :: CameFrom(fetches, url, f, OutcomeOf(e))
  }

  function OutcomeOf(e: Entry): Outcome { Outcome(e.value, e.expires - TTL_MS) }

  predicate CameFrom(fetches: seq<Fetch>, url: string, f: nat, outcome: Outcome) {
    f < |fetches| && fetches[f].url == url && fetches[f].outcome == Some(outcome)
  }

  ghost predicate AllMade(cache: OrderedMap.OMap<Entry>, fetches: seq<Fetch>) {
    forall i :: 0 <= i < |cache| ==> Made(fetches, cache[i].0, cache[i].1)
  }

  ghost predicate Inv(s: State) {
    && SingleFlight(s)
    && (forall f :: 0 <= f < |s.fetches| && s.fetches[f].stage == Running ==> s.fetches[f].outcome.None?)
    && |s.cache| <= MAX_ENTRIES
    && AllMade(s.cache, s.fetches)
    && StartTimes(s.fetches) == s.limiter.admitted
  }

  lemma {:induction false} EvictMakesRoom(cache: OrderedMap.OMap<Entry>, max: int)
    requires max > 0
    ensures var kept := Evict(cache, max);
      |kept| == Min(|cache|, max - 1) && kept == cache[|cache| - |kept|..]
  {
    if |cache| >= max { EvictMakesRoom(cache[1..], max); }
  }

  lemma {:induction false} PutEntries(m: OrderedMap.OMap<Entry>, k: string, v: Entry, fetches: seq<Fetch>)
    requires AllMade(m, fetches) && Made(fetches, k, v)
    ensures |OrderedMap.Put(m, k, v)| <= |m| + 1 && AllMade(OrderedMap.Put(m, k, v), fetches)
  {
    if m != [] && m[0].0 != k {
      PutEntries(m[1..], k, v, fetches);
      var rest := OrderedMap.Put(m[1..], k, v);
      forall i | 0 <= i < |rest| + 1 ensures Made(fetches, ([m[0]] + rest)[i].0, ([m[0]] + rest)[i].1) {
        if i > 0 { assert Made(fetches, rest[i - 1].0, rest[i - 1].1); }
      }
    }
  }

  /** Later fetches, and outcomes recorded where there was none, take nothing away. */
  lemma StillMade(cache: OrderedMap.OMap<Entry>, fetches: seq<Fetch>, fetches': seq<Fetch>)
    requires AllMade(cache, fetches) && |fetches| <= |fetches'|
    requires forall f :: 0 <= f < |fetches| && fetches[f].outcome.Some? ==>
      fetches'[f].url == fetches[f].url && fetches'[f].outcome == fetches[f].outcome
    ensures AllMade(cache, fetches')
  {
    forall i | 0 <= i < |cache| ensures Made(fetches', cache[i].0, cache[i].1) {
      assert Made(fetches, cache[i].0, cache[i].1);
      var f: nat :| CameFrom(fetches, cache[i].0, f, OutcomeOf(cache[i].1));
      assert CameFrom(fetches', cache[i].0, f, OutcomeOf(cache[i].1));
    }
  }

  lemma FinishInv(s: State, f: nat, outcome: Option<Outcome>)
    requires Inv(s) && f < |s.fetches| && s.fetches[f].stage == Running
    ensures Inv(Finish(s, f, outcome))
  {
    var s' := Finish(s, f, outcome);
    StillMade(s.cache, s.fetches, s'.fetches);
    assert StartTimes(s'.fetches) == StartTimes(s.fetches);
  }

  lemma RequestInv(s: State, url: string, now: int)
    requires Inv(s)
    ensures Inv(Step(s, Request(url, now)))
  {
    var s' := Step(s, Request(url, now));
    if AnswerTo(s, url, now).Started? {
      StillMade(s.cache, s.fetches, s'.fetches);
      assert StartTimes(s'.fetches) == StartTimes(s.fetches) + [now];
    }
  }

  lemma StoreInv(s: State, f: nat, value: Option<string>, now: int)
    requires Inv(s) && Legal(s, Completes(f, value, now))
    ensures Inv(Step(s, Completes(f, value, now)))
  {
    var finished := Finish(s, f, Some(Outcome(value, now)));
    var url, e := s.fetches[f].url, Entry(value, now + TTL_MS);
    FinishInv(s, f, Some(Outcome(value, now)));
    assert CameFrom(finished.fetches, url, f, OutcomeOf(e));
    EvictMakesRoom(s.cache, MAX_ENTRIES);
    PutEntries(Evict(s.cache, MAX_ENTRIES), url, e, finished.fetches);
    assert Step(s, Completes(f, value, now)) == finished.(cache := OrderedMap.Put(Evict(s.cache, MAX_ENTRIES), url, e));
  }

  lemma SettlesInv(s: State, f: nat)
    requires Inv(s) && Legal(s, Settles(f))
    ensures Inv(Settle(s, f))
  {
    var s' := Settle(s, f);
    StillMade(s.cache, s.fetches, s'.fetches);
    assert StartTimes(s'.fetches) == StartTimes(s.fetches);
  }

  lemma StepInv(s: State, e: Event)
    requires Inv(s) && Legal(s, e)
    ensures Inv(Step(s, e))
  {
    match e
    case Request(url, now) => RequestInv(s, url, now);
    case Completes(f, value, now) => StoreInv(s, f, value, now);
    case Rejects(f) => FinishInv(s, f, None);
    case Settles(f) => SettlesInv(s, f);
  }

  lemma {:induction false} RunInv(s: State, events: seq<Event>)
    requires Inv(s) && LegalRun(s, events)
    ensures Inv(Run(s, events))
    decreases |events|
  {
    if events != [] {
      StepInv(s, events[0]);
      RunInv(Step(s, events[0]), events[1..]);
    }
  }

  // ---------------------------------------------------------------- main results

  /** In every run two fetches for one link never overlap, from the start of one to its settling. */
  lemma OneFetchPerLink(events: seq<Event>, f: nat, g: nat)
    requires LegalRun(INITIAL, events)
    requires var s := Run(INITIAL, events); f < |s.fetches| && g < |s.fetches| && s.fetches[f].url == s.fetches[g].url
    ensures var s := Run(INITIAL, events);
      f == g || s.fetches[f].stage == Settled || s.fetches[g].stage == Settled
  {
    RunInv(INITIAL, events);
  }

  /** In every run the preview cache holds at most 256 entries. */
  lemma CacheBound(events: seq<Event>)
    requires LegalRun(INITIAL, events)
    ensures |Run(INITIAL, events).cache| <= MAX_ENTRIES
  {
    RunInv(INITIAL, events);
  }

  lemma {:induction false} GetIsEntry(m: OrderedMap.OMap<Entry>, k: string) returns (i: nat)
    requires OrderedMap.Get(m, k).Some?
    ensures i < |m| && m[i] == (k, OrderedMap.Get(m, k).value)
  {
    i := 0;
    if m[0].0 != k {
      var j := GetIsEntry(m[1..], k);
      i := j + 1;
    }
  }

  ghost predicate IsRight(s: State, url: string, now: int, answer: Answer) {
    match answer
    case Cached(value) => exists f: nat, at: int :: CameFrom(s.fetches, url, f, Outcome(value, at)) && now < at + TTL_MS
    case Joined(f) => f < |s.fetches| && s.fetches[f].url == url && s.fetches[f].stage != Settled
    case Started(f) =>
      f == |s.fetches| && forall g :: 0 <= g < |s.fetches| && s.fetches[g].url == url ==> s.fetches[g].stage == Settled
    case Limited => true
  }

  /**
   * Every answer is right: a cached one is the outcome of a fetch of that link completed less than 15
   * minutes ago, and whoever joins a fetch joins an unsettled one of that link.
   */
  lemma AnswersAreRight(events: seq<Event>, url: string, now: int)
    requires LegalRun(INITIAL, events)
    ensures IsRight(Run(INITIAL, events), url, now, AnswerTo(Run(INITIAL, events), url, now))
  {
    var s := Run(INITIAL, events);
    RunInv(INITIAL, events);
    if Live(s, url, now) {
      var i := GetIsEntry(s.cache, url);
      var e := s.cache[i].1;
      assert Made(s.fetches, url, e);
      var f: nat :| CameFrom(s.fetches, url, f, OutcomeOf(e));
    }
  }

  lemma {:induction false} CacheUntouched(s: State, more: seq<Event>)
    requires LegalRun(s, more) && forall e <- more :: !e.Completes?
    ensures Run(s, more).cache == s.cache
    decreases |more|
  {
    if more != [] {
      assert more[0] in more;
      assert Step(s, more[0]).cache == s.cache;
      CacheUntouched(Step(s, more[0]), more[1..]);
    }
  }

  /**
   * A completed fetch is served from the cache from then on, a failed preview like any other, until it
   * is 15 minutes old or another fetch completes; requests, failures and settling do not disturb it.
   */
  lemma ServedUntilStale(s: State, f: nat, value: Option<string>, now: int, more: seq<Event>, later: int)
    requires Legal(s, Completes(f, value, now)) && LegalRun(Step(s, Completes(f, value, now)), more)
    requires forall e <- more :: !e.Completes?
    ensures var t := Run(Step(s, Completes(f, value, now)), more);
      if later < now + 900_000 then AnswerTo(t, s.fetches[f].url, later) == Cached(value)
      else !AnswerTo(t, s.fetches[f].url, later).Cached?
  {
    var t := Step(s, Completes(f, value, now));
    OrderedMap.GetPut(Evict(s.cache, MAX_ENTRIES), s.fetches[f].url, Entry(value, now + TTL_MS), s.fetches[f].url);
    CacheUntouched(t, more);
  }

  /** A completion stores its link alone and evicts nothing but the oldest entries, and only from a full cache. */
  lemma OthersKept(s: State, f: nat, value: Option<string>, now: int, url: string)
    requires Legal(s, Completes(f, value, now)) && url != s.fetches[f].url
    ensures var t := Step(s, Completes(f, value, now));
      && (|s.cache| < 256 ==> OrderedMap.Get(t.cache, url) == OrderedMap.Get(s.cache, url))
      && (|s.cache| >= 256 ==>
            OrderedMap.Get(t.cache, url) == OrderedMap.Get(s.cache[|s.cache| - 255..], url))
  {
    EvictMakesRoom(s.cache, MAX_ENTRIES);
    OrderedMap.GetPut(Evict(s.cache, MAX_ENTRIES), s.fetches[f].url, Entry(value, now + TTL_MS), url);
  }

  ghost predicate Unsettled(s: State, url: string) {
    exists f :: 0 <= f < |s.fetches| && s.fetches[f].url == url && s.fetches[f].stage != Settled
  }

  /**
   * Which answer a request gets: the cached one if it is not stale, else it joins exactly if a fetch of
   * the link has not settled, else the limiter decides whether a fetch starts.
   */
  lemma AnswerIff(events: seq<Event>, url: string, now: int)
    requires LegalRun(INITIAL, events)
    ensures var s := Run(INITIAL, events);
      var answer, entry := AnswerTo(s, url, now), OrderedMap.Get(s.cache, url);
      && (answer.Cached? <==> entry.Some? && entry.value.expires > now)
      && (answer.Joined? <==> !answer.Cached? && Unsettled(s, url))
      && (answer.Limited? || answer.Started? <==> !answer.Cached? && !Unsettled(s, url))
      && (answer.Limited? ==> !RateLimiter.Admits(s.limiter.timestamps, 20, 60_000, now))
      && (answer.Started? ==> RateLimiter.Admits(s.limiter.timestamps, 20, 60_000, now))
  {
    RunInv(INITIAL, events);
  }

  /** A fetch that starts is running and joined by whoever asks next, until it settles. */
  lemma StartedRuns(s: State, url: string, now: int)
    requires AnswerTo(s, url, now).Started?
    ensures var t := Step(s, Request(url, now));
      && t.fetches == s.fetches + [Fetch(url, now, Running, None)]
      && t.cache == s.cache && AnswerTo(t, url, now) == Joined(|s.fetches|)
      && forall other :: other != url ==> (other in t.inFlight <==> other in s.inFlight)
  {
  }

  /** A failed fetch leaves the cache alone, and once it settles the link may be fetched again. */
  lemma FailureForgotten(events: seq<Event>, f: nat)
    requires LegalRun(INITIAL, events) && Legal(Run(INITIAL, events), Rejects(f))
    ensures var s := Run(INITIAL, events);
      var t := Step(Step(s, Rejects(f)), Settles(f));
      && t.cache == s.cache && t.fetches == s.fetches[f := s.fetches[f].(stage := Settled, outcome := None)]
      && !Unsettled(t, s.fetches[f].url)
  {
    RunInv(INITIAL, events);
  }

  // ---------------------------------------------------------------- the rate limit

  /** The request gets past the cache and the fetches in flight. */
  predicate TakesToken(s: State, e: Event) {
    e.Request? && (AnswerTo(s, e.url, e.now).Limited? || AnswerTo(s, e.url, e.now).Started?)
  }

  /** The times of the requests that ask for a token. */
  function Attempts(s: State, events: seq<Event>): seq<int>
    requires LegalRun(s, events)
    decreases |events|
  {
    if events == [] then []
    else (if TakesToken(s, events[0]) then [events[0].now] else []) + Attempts(Step(s, events[0]), events[1..])
  }

  /** The requests come on a clock that does not run backwards from `clock`. */
  predicate Timed(clock: int, events: seq<Event>)
    decreases |events|
  {
    events == [] || (if events[0].Request? then clock <= events[0].now && Timed(events[0].now, events[1..])
                     else Timed(clock, events[1..]))
  }

  lemma {:induction false} AttemptsTimely(s: State, events: seq<Event>, clock: int)
    requires LegalRun(s, events) && Timed(clock, events)
    ensures RateLimiter.Timely(clock, Attempts(s, events))
    decreases |events|
  {
    if events != [] {
      var now := if events[0].Request? then events[0].now else clock;
      var rest := Attempts(Step(s, events[0]), events[1..]);
      AttemptsTimely(Step(s, events[0]), events[1..], now);
      if TakesToken(s, events[0]) {
        assert ([now] + rest)[1..] == rest;
      } else {
        assert [] + rest == rest;
      }
    }
  }

  lemma {:induction false} LimiterRuns(s: State, events: seq<Event>)
    requires LegalRun(s, events)
    ensures Run(s, events).limiter ==
      RateLimiter.Run(s.limiter, RateLimiter.LINK_PREVIEW_MAX, RateLimiter.LINK_PREVIEW_WINDOW_MS, Attempts(s, events))
    decreases |events|
  {
    if events != [] {
      var s', rest := Step(s, events[0]), Attempts(Step(s, events[0]), events[1..]);
      LimiterRuns(s', events[1..]);
      if TakesToken(s, events[0]) {
        assert ([events[0].now] + rest)[1..] == rest;
        assert s'.limiter == TakeToken(s, events[0].now).limiter;
      } else {
        assert [] + rest == rest;
        assert s'.limiter == s.limiter;
      }
    }
  }

  /**
   * On a clock that does not run backwards at most 20 fetches start in any closed minute, however
   * many requests are made; joining or reading the cache costs nothing.
   */
  lemma StartsBounded(events: seq<Event>, clock: int, lo: int)
    requires LegalRun(INITIAL, events) && Timed(clock, events)
    ensures RateLimiter.CountIn(StartTimes(Run(INITIAL, events).fetches), lo, lo + RateLimiter.LINK_PREVIEW_WINDOW_MS)
      <= RateLimiter.LINK_PREVIEW_MAX
  {
    var attempts := Attempts(INITIAL, events);
    RunInv(INITIAL, events);
    LimiterRuns(INITIAL, events);
    AttemptsTimely(INITIAL, events, clock);
    RateLimiter.WindowBound(RateLimiter.LINK_PREVIEW_MAX, RateLimiter.LINK_PREVIEW_WINDOW_MS, attempts, lo);
  }

  // ---------------------------------------------------------------- the module's state as an object

  class PreviewFetcher {
    var previewCache: OrderedMap.OMap<Entry>
    var previewInFlight: map<string, nat>
    var fetches: seq<Fetch>
    const limiter: RateLimiter.Limiter

    ghost predicate Valid()
      reads this, limiter
    {
      limiter.max == RateLimiter.LINK_PREVIEW_MAX && limiter.windowMs == RateLimiter.LINK_PREVIEW_WINDOW_MS
    }

    ghost function View(): State
      reads this, limiter
    {
      State(previewCache, previewInFlight, limiter.View(), fetches)
    }

    constructor ()
      ensures Valid() && View() == INITIAL && fresh(limiter)
    {
      previewCache, previewInFlight, fetches := [], map[], [];
      limiter := new RateLimiter.Limiter.LinkPreviews();
    }

    method FetchLinkPreview(url: string, now: int) returns (answer: Answer)
      requires Valid()
      modifies this, limiter
      ensures Valid() && View() == Step(old(View()), Request(url, now))
      ensures answer == AnswerTo(old(View()), url, now)
    {
      var cached := OrderedMap.Get(previewCache, url);
      if cached.Some? && cached.value.expires > now { return Cached(cached.value.value); }
      if url in previewInFlight { return Joined(previewInFlight[url]); }
      var allowed := limiter.TakeToken(now);
      if !allowed { return Limited; }
      var promise := WithInflightDedup(url, now);
      return Started(promise);
    }

    /** `withInflightDedup`: join the promise of the link, or start one and remember it. */
    method WithInflightDedup(url: string, now: int) returns (promise: nat)
      modifies this`previewInFlight, this`fetches
      ensures if url in old(previewInFlight)
        then promise == old(previewInFlight)[url] && View() == old(View())
        else promise == |old(fetches)| && View() == StartFetch(old(View()), url, now)
    {
      if url in previewInFlight { return previewInFlight[url]; }
      promise := |fetches|;
      fetches := fetches + [Fetch(url, now, Running, None)];
      previewInFlight := previewInFlight[url := promise];
    }

    /** The end of a fetch that returned a value. */
    method Complete(promise: nat, value: Option<string>, now: int)
      requires promise < |fetches| && fetches[promise].stage == Running
      modifies this`previewCache, this`fetches
      ensures View() == Step(old(View()), Completes(promise, value, now))
    {
      EvictOldest(MAX_ENTRIES);
      previewCache := OrderedMap.Put(previewCache, fetches[promise].url, Entry(value, now + TTL_MS));
      fetches := fetches[promise := fetches[promise].(stage := Finished, outcome := Some(Outcome(value, now)))];
    }

    method Reject(promise: nat)
      requires promise < |fetches| && fetches[promise].stage == Running
      modifies this`fetches
      ensures View() == Step(old(View()), Rejects(promise))
    {
      fetches := fetches[promise := fetches[promise].(stage := Finished, outcome := None)];
    }

    /** The `finally` handler. */
    method SettlePromise(promise: nat)
      requires promise < |fetches| && fetches[promise].stage == Finished
      modifies this`previewInFlight, this`fetches
      ensures View() == Step(old(View()), Settles(promise))
    {
      previewInFlight := previewInFlight - {fetches[promise].url};
      fetches := fetches[promise := fetches[promise].(stage := Settled)];
    }

    method EvictOldest(maxEntries: int)
      modifies this`previewCache
      ensures previewCache == Evict(old(previewCache), maxEntries)
    {
      while |previewCache| >= maxEntries
        invariant Evict(previewCache, maxEntries) == Evict(old(previewCache), maxEntries)
        decreases |previewCache|
      {
        if previewCache == [] { break; }
        previewCache := previewCache[1..];
      }
    }
  }
}
