/** The two bounded caches of the Meshtastic MQTT manager: seen packet ids and bad envelopes. */
module FiniteMaps {
  lemma {:induction false} SubsetSize<T>(a: set<T>, b: set<T>)
    requires a <= b
    ensures |a| <= |b|
    decreases |a|
  {
    if x :| x in a {
      SubsetSize(a - {x}, b - {x});
      assert |a| == |a - {x}| + 1 && |b| == |b - {x}| + 1;
    }
  }

  method AnyOf<T>(s: set<T>) returns (x: T)
    requires s != {}
    ensures x in s
  {
    x :| x in s;
  }

  lemma Member<T>(s: set<T>) returns (x: T)
    requires s != {}
    ensures x in s
  {
    x :| x in s;
  }

  lemma {:induction false} LeastOf(s: set<int>) returns (least: int)
    requires s != {}
    ensures least in s && forall x <- s :: least <= x
    decreases |s|
  {
    least := Member(s);
    if s != {least} {
      var rest := s - {least};
      assert s == rest + {least};
      var other := LeastOf(rest);
      least := if other < least then other else least;
    }
  }

  function Without<K, V>(m: map<K, V>, k: K): map<K, V> { m - {k} }

  lemma UpdateSize<K, V>(m: map<K, V>, k: K, v: V)
    ensures |m[k := v]| <= |m| + 1
  {
    assert m[k := v].Keys == m.Keys + {k};
  }

  lemma WithoutSize<K, V>(m: map<K, V>, k: K)
    requires k in m
    ensures |Without(m, k)| == |m| - 1
  {
    assert Without(m, k).Keys == m.Keys - {k};
  }

  /** `m` without the first `n` of `keys`. */
  function Minus<K, V>(m: map<K, V>, keys: seq<K>, n: nat): map<K, V>
    requires n <= |keys|
  {
    map k | k in m && k !in keys[..n] :: m[k]
  }

  lemma MinusStep<K, V>(m: map<K, V>, keys: seq<K>, n: nat)
    requires n < |keys|
    ensures Minus(m, keys, n + 1) == Without(Minus(m, keys, n), keys[n])
  {
    assert keys[..n + 1] == keys[..n] + [keys[n]];
  }

  /** `s` lists the keys of `m` in ascending order of value. */
  ghost predicate IsSorting<K(!new)>(s: seq<K>, m: map<K, int>) {
    && |s| == |m|
    && (forall i :: 0 <= i < |s| ==> s[i] in m)
    && (forall k :: k in m ==> k in s)
    && (forall i, j :: 0 <= i < j < |s| ==> s[i] != s[j] && m[s[i]] <= m[s[j]])
  }

  lemma {:induction false} MinusSize<K, V>(s: seq<K>, m: map<K, V>, n: nat)
    requires n <= |s|
    requires forall i :: 0 <= i < n ==> s[i] in m && s[i] !in s[..i]
    ensures |Minus(m, s, n)| == |m| - n
  {
    if n == 0 {
      assert Minus(m, s, 0) == m;
    } else {
      MinusSize(s, m, n - 1);
      MinusStep(m, s, n - 1);
      WithoutSize(Minus(m, s, n - 1), s[n - 1]);
    }
  }

  /** Dropping a prefix of the sorted keys leaves a top part. */
  lemma DropSortedTop<K(!new)>(s: seq<K>, m: map<K, int>, n: nat)
    requires IsSorting(s, m) && n <= |s|
    ensures IsTop(Minus(m, s, n), m, |m| - n)
  {
    MinusSize(s, m, n);
    var part := Minus(m, s, n);
    forall x, y | x in m && x !in part && y in part ensures m[x] <= m[y] {
      var i :| 0 <= i < n && s[..n][i] == x;
      var j :| 0 <= j < |s| && s[j] == y;
      assert s[i] == x && j >= n;
    }
  }

  ghost predicate IsPart<K(!new), V>(part: map<K, V>, whole: map<K, V>) {
    forall k :: k in part ==> k in whole && part[k] == whole[k]
  }

  /** `part` keeps `k` entries of `whole`, none below an entry that was left out. */
  ghost predicate IsTop<K(!new)>(part: map<K, int>, whole: map<K, int>, k: nat) {
    && IsPart(part, whole)
    && |part| == k
    && forall x, y :: x in whole && x !in part && y in part ==> whole[x] <= whole[y]
  }

  lemma TopDropsLeast<K(!new)>(part: map<K, int>, whole: map<K, int>, k: nat, least: K)
    requires k > 0 && IsTop(part, whole, k) && least in part
    requires forall y :: y in part ==> part[least] <= part[y]
    ensures IsTop(Without(part, least), whole, k - 1)
  {
    WithoutSize(part, least);
    var rest := Without(part, least);
    forall x, y | x in whole && x !in rest && y in rest ensures whole[x] <= whole[y] {
      assert y in part;
      assert x == least || x !in part;
    }
  }
}

/**
 * `isDuplicate` against the ideal set of ids recorded less than the TTL ago.  The ideal history is
 * `last`, the time of the latest recording of every id ever recorded.
 */
module PacketDedup {
  import opened Common
  import opened FiniteMaps

  const DEDUP_TTL_MS := 600_000
  const CLEANUP_SIZE: nat := 10_000
  const HARD_CAP: nat := 50_000
  /** What an eviction leaves at least: the larger half of `HARD_CAP` + 1 entries. */
  const KEPT_AT_LEAST: nat := 25_001

  ghost predicate Ideal(last: map<int, int>, id: int, now: int) {
    id in last && now - last[id] < DEDUP_TTL_MS
  }

  /** The other ids recorded at or after the recording of `id`. */
  ghost function Newer(last: map<int, int>, id: int): set<int>
    requires id in last
  {
    set j | j in last && j != id && last[j] >= last[id]
  }

  /** What the cache of expiry times may have lost of the history: what expired and what was crowded out. */
  ghost predicate Fits(seen: map<int, int>, last: map<int, int>, clock: int) {
    && (forall id :: id in seen ==> id in last && seen[id] == last[id] + DEDUP_TTL_MS)
    && (forall id :: id in last ==> last[id] <= clock)
    && (forall id :: id in last && id !in seen ==>
          last[id] + DEDUP_TTL_MS < clock || |Newer(last, id)| >= KEPT_AT_LEAST)
  }

  function Unexpired(seen: map<int, int>, now: int): map<int, int> {
    map id | id in seen && seen[id] >= now :: seen[id]
  }

  lemma CleanupFits(seen: map<int, int>, last: map<int, int>, clock: int, now: int)
    requires Fits(seen, last, clock) && clock <= now
    ensures Fits(seen, last, now) && Fits(Unexpired(seen, now), last, now)
  {
  }

  lemma EvictionFits(seen: map<int, int>, kept: map<int, int>, last: map<int, int>, clock: int)
    requires Fits(seen, last, clock) && |seen| > HARD_CAP && IsTop(kept, seen, |seen| - |seen| / 2)
    ensures Fits(kept, last, clock)
  {
    forall id | id in last && id !in kept
      ensures last[id] + DEDUP_TTL_MS < clock || |Newer(last, id)| >= KEPT_AT_LEAST
    {
      if id in seen {
        forall j | j in kept ensures j in Newer(last, id) {
          assert seen[id] <= seen[j];
        }
        SubsetSize(kept.Keys, Newer(last, id));
        assert |kept.Keys| == |kept|;
      }
    }
  }

  lemma RecordFits(seen: map<int, int>, last: map<int, int>, clock: int, id: int)
    requires Fits(seen, last, clock)
    ensures Fits(seen[id := clock + DEDUP_TTL_MS], last[id := clock], clock)
  {
    var last' := last[id := clock];
    forall x | x in last' && x !in seen[id := clock + DEDUP_TTL_MS]
      ensures last'[x] + DEDUP_TTL_MS < clock || |Newer(last', x)| >= KEPT_AT_LEAST
    {
      assert x != id && x in last && last'[x] == last[x];
      assert Newer(last, x) <= Newer(last', x);
      SubsetSize(Newer(last, x), Newer(last', x));
    }
  }

  /** The answer read off a fitting cache is right unless the id was crowded out. */
  lemma FittingAnswer(seen: map<int, int>, last: map<int, int>, now: int, id: int)
    requires Fits(seen, last, now)
    ensures id in seen && seen[id] > now ==> Ideal(last, id, now)
    ensures Ideal(last, id, now) && |Newer(last, id)| < KEPT_AT_LEAST ==> id in seen && seen[id] > now
  {
  }

  class SeenPackets {
    /** Packet id to expiry time. */
    var seenPacketIds: map<int, int>
    ghost var last: map<int, int>
    ghost var clock: int

    ghost predicate Valid()
      reads this
    {
      Fits(seenPacketIds, last, clock)
    }

    constructor (ghost now: int)
      ensures Valid() && seenPacketIds == map[] && last == map[] && clock == now
    {
      seenPacketIds, last, clock := map[], map[], now;
    }

    /** A publish records its own packet id, without any cleanup. */
    method RecordPublished(id: int, now: int)
      requires Valid() && clock <= now
      modifies this
      ensures Valid() && clock == now && last == old(last)[id := now]
      ensures seenPacketIds == old(seenPacketIds)[id := now + DEDUP_TTL_MS]
    {
      CleanupFits(seenPacketIds, last, clock, now);
      RecordFits(seenPacketIds, last, now, id);
      clock, last := now, last[id := now];
      seenPacketIds := seenPacketIds[id := now + DEDUP_TTL_MS];
    }

    /**
     * True only for an id recorded less than the TTL ago, and always for such an id unless 25,001
     * other ids were recorded at or after its recording.
     */
    method IsDuplicate(id: int, now: int) returns (duplicate: bool)
      requires Valid() && clock <= now
      modifies this
      ensures Valid() && clock == now
      ensures duplicate ==> Ideal(old(last), id, now)
      ensures Ideal(old(last), id, now) && |Newer(old(last), id)| < KEPT_AT_LEAST ==> duplicate
      ensures last == if duplicate then old(last) else old(last)[id := now]
      ensures id in seenPacketIds && seenPacketIds[id] > now
      ensures |seenPacketIds| <= Max(HARD_CAP, (|old(seenPacketIds)| + 1) / 2) + 1
      ensures |old(seenPacketIds)| <= 10_000 ==>
        seenPacketIds == if duplicate then old(seenPacketIds) else old(seenPacketIds)[id := now + DEDUP_TTL_MS]
    {
      CleanupFits(seenPacketIds, last, clock, now);
      clock := now;
      TrimCache(now);
      FittingAnswer(seenPacketIds, last, now, id);
      if id in seenPacketIds && seenPacketIds[id] > now { return true; }
      RecordFits(seenPacketIds, last, now, id);
      UpdateSize(seenPacketIds, id, now + DEDUP_TTL_MS);
      seenPacketIds := seenPacketIds[id := now + DEDUP_TTL_MS];
      last := last[id := now];
      return false;
    }

    method TrimCache(now: int)
      requires Valid() && clock == now
      modifies this`seenPacketIds
      ensures Valid() && |seenPacketIds| <= Max(HARD_CAP, (|old(seenPacketIds)| + 1) / 2)
      ensures |old(seenPacketIds)| <= 10_000 ==> seenPacketIds == old(seenPacketIds)
      ensures |old(seenPacketIds)| > 10_000 && |Unexpired(old(seenPacketIds), now)| <= 50_000 ==>
        seenPacketIds == Unexpired(old(seenPacketIds), now)
    {
      if |seenPacketIds| > CLEANUP_SIZE { DeleteExpired(now); }
      if |seenPacketIds| > HARD_CAP { EvictOldestHalf(); }
    }

    method DeleteExpired(now: int)
      requires Valid() && clock == now
      modifies this`seenPacketIds
      ensures Valid() && seenPacketIds == Unexpired(old(seenPacketIds), now)
      ensures forall id <- old(seenPacketIds).Keys :: id in seenPacketIds <==> old(seenPacketIds)[id] >= now
      ensures |seenPacketIds| <= |old(seenPacketIds)|
    {
      var expired: seq<int> := [];
      var unread := seenPacketIds.Keys;
      while unread != {}
        invariant unread <= seenPacketIds.Keys
        invariant seenPacketIds == old(seenPacketIds)
        invariant forall id :: id in expired <==> id in seenPacketIds && id !in unread && seenPacketIds[id] < now
        decreases |unread|
      {
        var packetId := AnyOf(unread);
        if seenPacketIds[packetId] < now { expired := expired + [packetId]; }
        unread := unread - {packetId};
      }
      CleanupFits(seenPacketIds, last, clock, now);
      ghost var before := seenPacketIds;
      assert Minus(before, expired, 0) == before;
      for i := 0 to |expired|
        invariant seenPacketIds == Minus(before, expired, i)
      {
        MinusStep(before, expired, i);
        seenPacketIds := Without(seenPacketIds, expired[i]);
      }
      assert expired[..|expired|] == expired;
      assert forall k :: k in before ==> (k in expired <==> before[k] < now);
      SubsetSize(seenPacketIds.Keys, before.Keys);
    }

    method EvictOldestHalf()
      requires Valid() && |seenPacketIds| > HARD_CAP
      modifies this`seenPacketIds
      ensures Valid() && IsTop(seenPacketIds, old(seenPacketIds), |old(seenPacketIds)| - |old(seenPacketIds)| / 2)
    {
      ghost var before := seenPacketIds;
      var sorted := SortedByExpiry(seenPacketIds);
      var evictCount := |sorted| / 2;
      assert Minus(before, sorted, 0) == before;
      for i := 0 to evictCount
        invariant seenPacketIds == Minus(before, sorted, i)
      {
        MinusStep(before, sorted, i);
        seenPacketIds := Without(seenPacketIds, sorted[i]);
      }
      DropSortedTop(sorted, before, evictCount);
      EvictionFits(before, seenPacketIds, last, clock);
    }
  }

  /** The keys of `m` in ascending order of value, ties in any order. */
  method SortedByExpiry(m: map<int, int>) returns (s: seq<int>)
    ensures IsSorting(s, m)
  {
    s := [];
    var rest := m;
    while rest != map[]
      invariant IsPart(rest, m) && |s| + |rest| == |m|
      invariant forall i :: 0 <= i < |s| ==> s[i] in m
      invariant forall k :: k in m ==> k in s || k in rest
      invariant forall k :: k in s ==> k !in rest
      invariant forall k, r :: k in s && r in rest ==> m[k] <= m[r]
      invariant forall i, j :: 0 <= i < j < |s| ==> s[i] != s[j]
      invariant forall i, j :: 0 <= i < j < |s| ==> m[s[i]] <= m[s[j]]
      decreases |rest|
    {
      var least := LeastKey(rest);
      WithoutSize(rest, least);
      s := s + [least];
      rest := Without(rest, least);
    }
  }

  method LeastKey<K>(m: map<K, int>) returns (least: K)
    requires m != map[]
    ensures least in m && forall k :: k in m ==> m[least] <= m[k]
  {
    var unread := m.Keys;
    assert unread != {} by { assert exists k :: k in m; }
    least :| least in unread;
    unread := unread - {least};
    while unread != {}
      invariant least in m && unread <= m.Keys
      invariant forall k :: k in m && k !in unread ==> m[least] <= m[k]
      decreases |unread|
    {
      var k :| k in unread;
      if m[k] < m[least] { least := k; }
      unread := unread - {k};
    }
  }
}

/** The cap on remembered bad envelope signatures. */
module SignatureCap {
  import opened Common
  import opened FiniteMaps
  import PacketDedup

  const BAD_ENVELOPE_SIGNATURE_MAX := 1000

  function Live(signatures: map<string, int>, now: int): map<string, int> {
    map sig | sig in signatures && signatures[sig] > now :: signatures[sig]
  }

  class Signatures {
    /** Signature to expiry time. */
    var expiry: map<string, int>

    /**
     * Over the cap, the survivors are the unexpired signatures of latest expiry, as many as the cap
     * allows; within the cap nothing happens, not even to expired ones.
     */
    method EnforceCap(now: int, maxSize: int := BAD_ENVELOPE_SIGNATURE_MAX)
      modifies this
      ensures |old(expiry)| <= maxSize ==> expiry == old(expiry)
      ensures |old(expiry)| > maxSize ==>
        IsTop(expiry, Live(old(expiry), now), Min(|Live(old(expiry), now)|, Max(maxSize, 0)))
    {
      if |expiry| <= maxSize { return; }
      DropExpired(now);
      ghost var live := expiry;
      while |expiry| > maxSize && expiry != map[]
        invariant IsTop(expiry, live, |expiry|)
        invariant Min(|live|, Max(maxSize, 0)) <= |expiry| <= |live|
        decreases |expiry|
      {
        var evictKey := PacketDedup.LeastKey(expiry);
        TopDropsLeast(expiry, live, |expiry|, evictKey);
        WithoutSize(expiry, evictKey);
        expiry := Without(expiry, evictKey);
      }
    }

    method DropExpired(now: int)
      modifies this
      ensures expiry == Live(old(expiry), now)
      ensures forall sig <- old(expiry).Keys :: sig in expiry <==> old(expiry)[sig] > now
    {
      var unread := expiry.Keys;
      while unread != {}
        invariant unread <= expiry.Keys
        invariant expiry == map sig | sig in old(expiry) && (sig in unread || old(expiry)[sig] > now) :: old(expiry)[sig]
        decreases |unread|
      {
        var sig :| sig in unread;
        if expiry[sig] <= now { expiry := Without(expiry, sig); }
        unread := unread - {sig};
      }
    }
  }
}
