/** The start-up repair that merges destination rows whose hashes differ only in case or padding. */
module HashCasing {
  import opened Common
  import opened Text

  /** A row of `reticulum_destinations` without its primary key. */
  datatype Destination = Destination(
    displayName: Option<string>, lastHeard: Option<real>, favorited: Option<int>, isContact: Option<int>,
    iconName: Option<string>, iconColor: Option<string>, verification: Verification)

  /** The columns the repair does not mention. */
  datatype Verification = Verification(verified: Option<int>, identityHash: Option<string>, verifiedAt: Option<int>)

  const UNVERIFIED := Verification(Some(0), None, None)

  type Rows = map<string, Destination>

  function Get(t: Rows, h: string): Option<Destination> { if h in t then Some(t[h]) else None }

  // ---------------------------------------------------------------- hashes

  predicate IsHex(c: char) { '0' <= c <= '9' || 'a' <= c <= 'f' || 'A' <= c <= 'F' }

  /** SQLite's `lower`, which folds ASCII only. */
  function SqlLower(s: string): string {
    seq(|s|, i requires 0 <= i < |s| => if 'A' <= s[i] <= 'Z' then s[i] - 'A' + 'a' else s[i])
  }

  /** The lower-case key of a hash that is 32 hexadecimal digits once trimmed. */
  function Canonical(h: string): Option<string> {
    var raw := Trim(h);
    if |raw| == 32 && forall c <- raw :: IsHex(c) then Some(Lower(raw)) else None
  }

  predicate NeedsRepair(t: Rows) { exists h <- t.Keys :: h != SqlLower(h) }

  predicate Distinct(s: seq<string>) { forall i, j :: 0 <= i < j < |s| ==> s[i] != s[j] }

  /** The rows in the order the query returned them. */
  ghost predicate Listing(order: seq<string>, t: Rows) {
    && (forall h :: h in order <==> h in t)
    && Distinct(order)
  }

  /** The hashes among the first `n` with a given key, in order. */
  function Group(order: seq<string>, n: nat, key: string): seq<string>
    requires n <= |order|
  {
    if n == 0 then []
    else Group(order, n - 1, key) + if Canonical(order[n - 1]) == Some(key) then [order[n - 1]] else []
  }

  function GroupOf(order: seq<string>, key: string): seq<string> { Group(order, |order|, key) }

  predicate NeedsRewrite(group: seq<string>, key: string) { |group| > 1 || exists h <- group :: h != key }

  // ---------------------------------------------------------------- merging

  type Flag = n: int | n == 0 || n == 1

  datatype Merged = Merged(
    displayName: Option<string>, lastHeard: Option<int>, favorited: Flag, isContact: Flag,
    iconName: Option<string>, iconColor: Option<string>)

  const NOTHING := Merged(None, None, 0, 0, None, None)

  function Trunc(x: real): int { if x >= 0.0 then x.Floor else -(-x).Floor }

  /** Truncation goes towards zero by less than one. */
  lemma TruncTowardsZero(x: real)
    ensures x >= 0.0 ==> 0.0 <= Trunc(x) as real <= x < Trunc(x) as real + 1.0
    ensures x < 0.0 ==> Trunc(x) as real - 1.0 < x <= Trunc(x) as real <= 0.0
  {
  }

  predicate Blank(name: Option<string>) { name.None? || Trim(name.value) == "" }

  function Absorb(m: Merged, r: Destination): Merged {
    Merged(
      if m.displayName.None? && !Blank(r.displayName) then r.displayName else m.displayName,
      if r.lastHeard.Some? && (m.lastHeard.None? || r.lastHeard.value > m.lastHeard.value as real)
        then Some(Trunc(r.lastHeard.value)) else m.lastHeard,
      if r.favorited == Some(1) then 1 else m.favorited,
      if r.isContact == Some(1) then 1 else m.isContact,
      if m.iconName.None? then r.iconName else m.iconName,
      if m.iconColor.None? then r.iconColor else m.iconColor)
  }

  function Merge(t: Rows, group: seq<string>): Merged
    requires forall h <- group :: h in t
  {
    if group == [] then NOTHING
    else
      var n := |group| - 1;
      assert group[n] in group;
      Absorb(Merge(t, group[..n]), t[group[n]])
  }

  function Coalesce<T>(a: Option<T>, b: Option<T>): Option<T> { if a.Some? then a else b }

  function AsReal(x: Option<int>): Option<real> { if x.Some? then Some(x.value as real) else None }

  /** The row after `INSERT .. ON CONFLICT(destination_hash) DO UPDATE`. */
  function Upserted(existing: Option<Destination>, m: Merged): Destination {
    match existing
    case None => Destination(m.displayName, AsReal(m.lastHeard), Some(m.favorited), Some(m.isContact), m.iconName, m.iconColor, UNVERIFIED)
    case Some(e) =>
      Destination(
        Coalesce(m.displayName, e.displayName),
        if m.lastHeard.Some? && (e.lastHeard.None? || m.lastHeard.value as real > e.lastHeard.value)
          then AsReal(m.lastHeard) else e.lastHeard,
        Some(if m.favorited == 1 || e.favorited == Some(1) then 1 else 0),
        Some(if m.isContact == 1 || e.isContact == Some(1) then 1 else 0),
        Coalesce(m.iconName, e.iconName), Coalesce(m.iconColor, e.iconColor), e.verification)
  }

  /** A column of the row in place, if there is one. */
  function Column<T>(existing: Option<Destination>, get: Destination -> Option<T>): Option<T> {
    if existing.Some? then get(existing.value) else None
  }

  /**
   * What the upsert means: the merged values first, then those in place; the OR of the flags; the later
   * of the two times; and the verification of the row in place.
   */
  ghost predicate Combines(existing: Option<Destination>, m: Merged, r: Destination) {
    var heard := Column(existing, (e: Destination) => e.lastHeard);
    && IsFirstSome([m.displayName, Column(existing, (e: Destination) => e.displayName)], r.displayName)
    && IsFirstSome([m.iconName, Column(existing, (e: Destination) => e.iconName)], r.iconName)
    && IsFirstSome([m.iconColor, Column(existing, (e: Destination) => e.iconColor)], r.iconColor)
    && r.favorited == Some(if m.favorited == 1 || Column(existing, (e: Destination) => e.favorited) == Some(1) then 1 else 0)
    && r.isContact == Some(if m.isContact == 1 || Column(existing, (e: Destination) => e.isContact) == Some(1) then 1 else 0)
    && (r.lastHeard == AsReal(m.lastHeard) || r.lastHeard == heard)
    && (m.lastHeard.Some? ==> r.lastHeard.Some? && r.lastHeard.value >= m.lastHeard.value as real)
    && (heard.Some? ==> r.lastHeard.Some? && r.lastHeard.value >= heard.value)
    && r.verification == (if existing.Some? then existing.value.verification else UNVERIFIED)
  }

  /** The first value that is present. */
  ghost predicate IsFirstSome(values: seq<Option<string>>, v: Option<string>) {
    if v.None? then forall i :: 0 <= i < |values| ==> values[i].None?
    else exists i :: 0 <= i < |values| && values[i] == v && forall j :: 0 <= j < i ==> values[j].None?
  }

  lemma FirstOfTwo(a: Option<string>, b: Option<string>, v: Option<string>)
    ensures IsFirstSome([a, b], v) <==> v == Coalesce(a, b)
  {
    var both := [a, b];
    assert both[0] == a && both[1] == b;
  }

  /** The row the conflict clause computes is the one row that combines both. */
  lemma UpsertedCombines(existing: Option<Destination>, m: Merged, r: Destination)
    ensures Combines(existing, m, r) <==> r == Upserted(existing, m)
  {
    FirstOfTwo(m.displayName, Column(existing, (e: Destination) => e.displayName), r.displayName);
    FirstOfTwo(m.iconName, Column(existing, (e: Destination) => e.iconName), r.iconName);
    FirstOfTwo(m.iconColor, Column(existing, (e: Destination) => e.iconColor), r.iconColor);
  }

  // ---------------------------------------------------------------- what the repair should leave

  /** The row of one hash after a triggered repair. */
  function FinalRow(t: Rows, order: seq<string>, h: string): Option<Destination>
    requires forall x <- order :: x in t
  {
    match Canonical(h)
    case None => Get(t, h)
    case Some(key) =>
      var group := GroupOf(order, key);
      GroupMembers(order, |order|, key);
      if !NeedsRewrite(group, key) then Get(t, h)
      else if h == key then Some(Upserted(Get(t, key), Merge(t, group)))
      else None
  }

  lemma {:induction false} GroupMembers(order: seq<string>, n: nat, key: string)
    requires n <= |order|
    ensures forall h :: h in Group(order, n, key) <==> h in order[..n] && Canonical(h) == Some(key)
  {
    if n > 0 {
      GroupMembers(order, n - 1, key);
      assert order[..n] == order[..n - 1] + [order[n - 1]];
    }
  }

  /** The repair is specified row by row. */
  ghost predicate Repaired(t: Rows, order: seq<string>, out: Rows)
    requires forall x <- order :: x in t
  {
    if NeedsRepair(t) then forall h :: Get(out, h) == FinalRow(t, order, h) else out == t
  }

  // ---------------------------------------------------------------- consequences

  lemma LowerHex(s: string)
    requires forall c <- s :: IsHex(c)
    ensures forall c <- Lower(s) :: IsHex(c) && !IsSpace(c) && LowerChar(c) == c
  {
    forall c | c in Lower(s) ensures IsHex(c) && !IsSpace(c) && LowerChar(c) == c {
      var i :| 0 <= i < |s| && Lower(s)[i] == c;
      assert s[i] in s;
    }
  }

  /** A canonical key is its own key. */
  lemma CanonicalIsFixed(h: string)
    requires Canonical(h).Some?
    ensures Canonical(Canonical(h).value) == Canonical(h)
  {
    var key := Canonical(h).value;
    LowerHex(Trim(h));
    assert Trim(key) == key;
    assert Lower(key) == key;
  }

  /** A hash stands for the lower-case form of its 32 hexadecimal digits, white space around them aside. */
  lemma CanonicalOf(left: string, digits: string, right: string)
    requires (forall c <- left :: IsSpace(c)) && (forall c <- right :: IsSpace(c)) && Solid(digits)
    ensures Canonical(left + digits + right) ==
      if |digits| == 32 && forall c <- digits :: c in "0123456789abcdefABCDEF" then Some(Lower(digits)) else None
  {
    TrimPadded(left, digits, right);
    forall c: char ensures IsHex(c) <==> c in "0123456789abcdefABCDEF" { HexDigits(c); }
  }

  lemma HexDigits(c: char)
    ensures IsHex(c) <==> c in "0123456789abcdefABCDEF"
  {
    assert "0123456789" + "abcdef" + "ABCDEF" == "0123456789abcdefABCDEF";
    if '0' <= c <= '9' { assert "0123456789"[c as int - '0' as int] == c; }
    if 'a' <= c <= 'f' { assert "abcdef"[c as int - 'a' as int] == c; }
    if 'A' <= c <= 'F' { assert "ABCDEF"[c as int - 'A' as int] == c; }
  }

  /** The repair runs exactly if some hash has an ASCII capital. */
  lemma TriggeredIff(t: Rows)
    ensures NeedsRepair(t) <==> exists h <- t.Keys, i :: 0 <= i < |h| && 'A' <= h[i] <= 'Z'
  {
    forall h | h in t.Keys ensures h != SqlLower(h) <==> exists i :: 0 <= i < |h| && 'A' <= h[i] <= 'Z' {
      if h != SqlLower(h) {
        var i :| 0 <= i < |h| && h[i] != SqlLower(h)[i];
        assert 'A' <= h[i] <= 'Z';
      }
      if i :| 0 <= i < |h| && 'A' <= h[i] <= 'Z' {
        assert SqlLower(h)[i] != h[i];
      }
    }
  }

  /** Groups list their rows in the order of the query. */
  lemma {:induction false} GroupInOrder(a: seq<string>, b: seq<string>, key: string)
    ensures GroupOf(a + b, key) == GroupOf(a, key) + GroupOf(b, key)
    decreases |b|
  {
    if b == [] {
      assert a + b == a;
    } else {
      var n := |b| - 1;
      GroupInOrder(a, b[..n], key);
      assert (a + b)[..|a| + n] == a + b[..n] && (a + b)[|a| + n] == b[n];
      GroupOfPrefix(a + b, |a| + n, key);
      GroupOfPrefix(b, n, key);
    }
  }

  lemma {:induction false} GroupOfPrefix(order: seq<string>, n: nat, key: string)
    requires n <= |order|
    ensures Group(order, n, key) == GroupOf(order[..n], key)
    decreases n
  {
    if n > 0 {
      GroupOfPrefix(order, n - 1, key);
      GroupOfPrefix(order[..n], n - 1, key);
      assert order[..n][..n - 1] == order[..n - 1];
    }
  }

  lemma GroupAll(t: Rows, order: seq<string>, key: string)
    requires Listing(order, t)
    ensures forall h :: h in GroupOf(order, key) <==> h in t && Canonical(h) == Some(key)
  {
    GroupMembers(order, |order|, key);
    assert order[..|order|] == order;
  }

  /** A group that needs no rewrite holds at most the canonical row. */
  lemma QuietGroup(t: Rows, order: seq<string>, h: string)
    requires Listing(order, t) && Canonical(h).Some? && !NeedsRewrite(GroupOf(order, Canonical(h).value), Canonical(h).value)
    ensures h in t ==> h == Canonical(h).value
  {
    GroupAll(t, order, Canonical(h).value);
  }

  /**
   * A triggered repair leaves one row per key: a hexadecimal row sits at its lower-case key, every key
   * that had a row still has one, and all other rows are as before.
   */
  lemma OneRowPerKey(t: Rows, order: seq<string>, out: Rows, h: string)
    requires Listing(order, t) && NeedsRepair(t) && Repaired(t, order, out)
    ensures Canonical(h).None? ==> Get(out, h) == Get(t, h)
    ensures Canonical(h).Some? && h in out ==> h == Canonical(h).value
    ensures Canonical(h).Some? && h in t ==> Canonical(h).value in out
    ensures Canonical(h).Some? && h in out ==> exists h' <- t.Keys :: Canonical(h') == Canonical(h)
  {
    assert Get(out, h) == FinalRow(t, order, h);
    if Canonical(h).Some? {
      var key := Canonical(h).value;
      CanonicalIsFixed(h);
      assert Get(out, key) == FinalRow(t, order, key);
      GroupAll(t, order, key);
      if !NeedsRewrite(GroupOf(order, key), key) {
        QuietGroup(t, order, h);
      } else {
        assert GroupOf(order, key) != [];
        assert GroupOf(order, key)[0] in GroupOf(order, key);
      }
    }
  }

  /** The latest of the truncated times of a group. */
  ghost predicate IsLatest(t: Rows, group: seq<string>, latest: Option<int>)
    requires forall h <- group :: h in t
  {
    && (latest.None? <==> forall h <- group :: t[h].lastHeard.None?)
    && (latest.Some? ==>
          && (exists h <- group :: t[h].lastHeard.Some? && Trunc(t[h].lastHeard.value) == latest.value)
          && forall h <- group :: t[h].lastHeard.Some? ==> Trunc(t[h].lastHeard.value) <= latest.value)
  }

  lemma {:induction false} MergeFlags(t: Rows, group: seq<string>)
    requires forall h <- group :: h in t
    ensures Merge(t, group).favorited == if exists h <- group :: t[h].favorited == Some(1) then 1 else 0
    ensures Merge(t, group).isContact == if exists h <- group :: t[h].isContact == Some(1) then 1 else 0
  {
    if group != [] {
      var n := |group| - 1;
      MergeFlags(t, group[..n]);
      assert group == group[..n] + [group[n]];
    }
  }

  lemma TruncCompare(x: real, m: int)
    ensures x > m as real ==> Trunc(x) >= m
    ensures x <= m as real ==> Trunc(x) <= m
  {
  }

  lemma {:induction false} MergeLatest(t: Rows, group: seq<string>)
    requires forall h <- group :: h in t
    ensures IsLatest(t, group, Merge(t, group).lastHeard)
  {
    if group != [] {
      var n := |group| - 1;
      var before, r := Merge(t, group[..n]), t[group[n]];
      MergeLatest(t, group[..n]);
      assert group == group[..n] + [group[n]];
      if r.lastHeard.Some? && before.lastHeard.Some? { TruncCompare(r.lastHeard.value, before.lastHeard.value); }
    }
  }

  /** The names of a group, blank ones left out. */
  function OfferedNames(t: Rows, group: seq<string>): (r: seq<Option<string>>)
    requires forall h <- group :: h in t
    ensures |r| == |group|
  {
    seq(|group|, i requires 0 <= i < |group| =>
      assert group[i] in group; if Blank(t[group[i]].displayName) then None else t[group[i]].displayName)
  }

  function IconNames(t: Rows, group: seq<string>): (r: seq<Option<string>>)
    requires forall h <- group :: h in t
    ensures |r| == |group|
  {
    seq(|group|, i requires 0 <= i < |group| => assert group[i] in group; t[group[i]].iconName)
  }

  function IconColors(t: Rows, group: seq<string>): (r: seq<Option<string>>)
    requires forall h <- group :: h in t
    ensures |r| == |group|
  {
    seq(|group|, i requires 0 <= i < |group| => assert group[i] in group; t[group[i]].iconColor)
  }

  lemma FirstSomeSnoc(values: seq<Option<string>>, v: Option<string>, last: Option<string>)
    requires IsFirstSome(values, v)
    ensures IsFirstSome(values + [last], if v.None? then last else v)
  {
    var all := values + [last];
    if v.Some? {
      var i :| 0 <= i < |values| && values[i] == v && forall j :: 0 <= j < i ==> values[j].None?;
      assert all[i] == v;
    } else {
      assert all[|values|] == last;
    }
  }

  lemma {:induction false} MergeName(t: Rows, group: seq<string>)
    requires forall h <- group :: h in t
    ensures IsFirstSome(OfferedNames(t, group), Merge(t, group).displayName)
  {
    if group != [] {
      var n := |group| - 1;
      MergeName(t, group[..n]);
      assert group[n] in group;
      var name := t[group[n]].displayName;
      var offered := if Blank(name) then None else name;
      assert OfferedNames(t, group) == OfferedNames(t, group[..n]) + [offered];
      FirstSomeSnoc(OfferedNames(t, group[..n]), Merge(t, group[..n]).displayName, offered);
    }
  }

  lemma {:induction false} MergeIcon(t: Rows, group: seq<string>)
    requires forall h <- group :: h in t
    ensures IsFirstSome(IconNames(t, group), Merge(t, group).iconName)
    ensures IsFirstSome(IconColors(t, group), Merge(t, group).iconColor)
  {
    if group != [] {
      var n := |group| - 1;
      MergeIcon(t, group[..n]);
      assert group[n] in group;
      var before, r := Merge(t, group[..n]), t[group[n]];
      assert IconNames(t, group) == IconNames(t, group[..n]) + [r.iconName];
      assert IconColors(t, group) == IconColors(t, group[..n]) + [r.iconColor];
      FirstSomeSnoc(IconNames(t, group[..n]), before.iconName, r.iconName);
      FirstSomeSnoc(IconColors(t, group[..n]), before.iconColor, r.iconColor);
    }
  }

  /** What the row of a merged group says about the rows it came from. */
  ghost predicate Summarises(t: Rows, group: seq<string>, r: Destination)
    requires forall h <- group :: h in t
  {
    && r.favorited == Some(if exists h <- group :: t[h].favorited == Some(1) then 1 else 0)
    && r.isContact == Some(if exists h <- group :: t[h].isContact == Some(1) then 1 else 0)
    && IsLatest(t, group, if r.lastHeard.Some? then Some(Trunc(r.lastHeard.value)) else None)
    && (IsFirstSome(OfferedNames(t, group), None) || IsFirstSome(OfferedNames(t, group), r.displayName))
    && IsFirstSome(IconNames(t, group), r.iconName)
    && IsFirstSome(IconColors(t, group), r.iconColor)
  }

  lemma UpsertedLatest(t: Rows, group: seq<string>, existing: Option<Destination>, key: string)
    requires forall h <- group :: h in t
    requires existing == Get(t, key) && (key in t ==> key in group)
    ensures var r := Upserted(existing, Merge(t, group));
      IsLatest(t, group, if r.lastHeard.Some? then Some(Trunc(r.lastHeard.value)) else None)
  {
    MergeLatest(t, group);
    var m := Merge(t, group);
    if m.lastHeard.Some? {
      assert Trunc(m.lastHeard.value as real) == m.lastHeard.value;
      if existing.Some? && existing.value.lastHeard.Some? { TruncCompare(existing.value.lastHeard.value, m.lastHeard.value); }
    }
  }

  /** The existing canonical row is in the group, so falling back to it adds no icon. */
  lemma UpsertedIcons(t: Rows, group: seq<string>, existing: Option<Destination>, key: string)
    requires forall h <- group :: h in t
    requires existing == Get(t, key) && (key in t ==> key in group)
    ensures var r := Upserted(existing, Merge(t, group));
      IsFirstSome(IconNames(t, group), r.iconName) && IsFirstSome(IconColors(t, group), r.iconColor)
  {
    MergeIcon(t, group);
    if existing.Some? {
      var i :| 0 <= i < |group| && group[i] == key;
      assert IconNames(t, group)[i] == existing.value.iconName && IconColors(t, group)[i] == existing.value.iconColor;
    }
  }

  lemma UpsertedFlags(t: Rows, group: seq<string>, existing: Option<Destination>, key: string)
    requires forall h <- group :: h in t
    requires existing == Get(t, key) && (key in t ==> key in group)
    ensures var r := Upserted(existing, Merge(t, group));
      && r.favorited == Some(if exists h <- group :: t[h].favorited == Some(1) then 1 else 0)
      && r.isContact == Some(if exists h <- group :: t[h].isContact == Some(1) then 1 else 0)
  {
    MergeFlags(t, group);
  }

  /**
   * The canonical row of a rewritten group carries the OR of the flags, the latest time, and the first
   * name and icons its rows offer.
   */
  lemma MergedRow(t: Rows, order: seq<string>, out: Rows, key: string)
    requires Listing(order, t) && NeedsRepair(t) && Repaired(t, order, out)
    requires Canonical(key) == Some(key) && NeedsRewrite(GroupOf(order, key), key)
    ensures forall h <- GroupOf(order, key) :: h in t
    ensures key in out && Summarises(t, GroupOf(order, key), out[key])
  {
    var group := GroupOf(order, key);
    GroupAll(t, order, key);
    assert Get(out, key) == FinalRow(t, order, key);
    MergeName(t, group);
    UpsertedFlags(t, group, Get(t, key), key);
    UpsertedIcons(t, group, Get(t, key), key);
    UpsertedLatest(t, group, Get(t, key), key);
  }

  /** A group that was already one canonical row is not touched, not even to turn NULL flags into 0. */
  lemma QuietRow(t: Rows, order: seq<string>, out: Rows, key: string)
    requires Listing(order, t) && NeedsRepair(t) && Repaired(t, order, out)
    requires Canonical(key) == Some(key) && !NeedsRewrite(GroupOf(order, key), key)
    ensures Get(out, key) == Get(t, key)
  {
    assert Get(out, key) == FinalRow(t, order, key);
  }

  /**
   * Verification is carried only by the canonical row itself: a rewritten group keeps it when that row
   * existed and otherwise starts unverified, whatever the case variants said.
   */
  lemma VerificationKeptIff(t: Rows, order: seq<string>, out: Rows, key: string)
    requires Listing(order, t) && NeedsRepair(t) && Repaired(t, order, out)
    requires Canonical(key) == Some(key) && NeedsRewrite(GroupOf(order, key), key)
    ensures key in out && out[key].verification == if key in t then t[key].verification else UNVERIFIED
  {
    assert Get(out, key) == FinalRow(t, order, key);
  }

  lemma QuietListing(t: Rows, order: seq<string>, key: string)
    requires Listing(order, t) && forall h <- t.Keys :: Canonical(h) == Some(key) ==> h == key
    ensures !NeedsRewrite(GroupOf(order, key), key)
  {
    GroupAll(t, order, key);
    GroupDistinct(order, |order|, key);
    var group := GroupOf(order, key);
    if |group| > 1 { TwoDiffer(group, key); }
  }

  lemma {:induction false} GroupDistinct(order: seq<string>, n: nat, key: string)
    requires n <= |order| && Distinct(order)
    ensures Distinct(Group(order, n, key))
  {
    if n > 0 {
      GroupDistinct(order, n - 1, key);
      GroupMembers(order, n - 1, key);
      NotBefore(order, n - 1);
      DistinctSnoc(Group(order, n - 1, key), order[n - 1]);
    }
  }

  lemma TwoDiffer(s: seq<string>, x: string)
    requires Distinct(s) && |s| > 1
    ensures exists h <- s :: h != x
  {
    assert s[0] in s && s[1] in s && s[0] != s[1];
  }

  lemma NotBefore(s: seq<string>, n: nat)
    requires Distinct(s) && n < |s|
    ensures s[n] !in s[..n]
  {
    assert forall k :: 0 <= k < n ==> s[..n][k] == s[k];
  }

  lemma DistinctSnoc(s: seq<string>, x: string)
    requires Distinct(s) && x !in s
    ensures Distinct(s + [x])
  {
  }

  /** Another run on the result changes nothing, in whatever order its rows come. */
  lemma SecondRunIdle(t: Rows, order: seq<string>, out: Rows, order2: seq<string>, again: Rows)
    requires Listing(order, t) && Repaired(t, order, out)
    requires Listing(order2, out) && Repaired(out, order2, again)
    ensures again == out
  {
    if NeedsRepair(out) {
      assert NeedsRepair(t);
      forall h ensures Get(again, h) == Get(out, h) {
        assert Get(again, h) == FinalRow(out, order2, h);
        if Canonical(h).Some? {
          var key := Canonical(h).value;
          forall h' | h' in out.Keys && Canonical(h') == Some(key) ensures h' == key { OneRowPerKey(t, order, out, h'); }
          QuietListing(out, order2, key);
        }
      }
      SameRows(again, out);
    }
  }

  lemma SameRows(a: Rows, b: Rows)
    requires forall h :: Get(a, h) == Get(b, h)
    ensures a == b
  {
    forall h ensures h in a <==> h in b { assert Get(a, h) == Get(b, h); }
    forall h | h in a ensures a[h] == b[h] { assert Get(a, h) == Get(b, h); }
  }

  /**
   * The trigger looks at case only: after a run every hexadecimal row is canonical exactly when the run
   * was triggered or they already were.
   */
  lemma CanonicalAfterIff(t: Rows, order: seq<string>, out: Rows)
    requires Listing(order, t) && Repaired(t, order, out)
    ensures (forall h <- out.Keys :: Canonical(h).Some? ==> h == Canonical(h).value) <==>
      NeedsRepair(t) || forall h <- t.Keys :: Canonical(h).Some? ==> h == Canonical(h).value
  {
    if NeedsRepair(t) {
      forall h | h in out.Keys && Canonical(h).Some? ensures h == Canonical(h).value { OneRowPerKey(t, order, out, h); }
    }
  }

  // ---------------------------------------------------------------- the code

  /** After the groups of `done` were merged; a hash outside them still has its old row. */
  ghost predicate Progress(t: Rows, order: seq<string>, done: set<string>, now: Rows)
    requires forall x <- order :: x in t
  {
    forall h :: Get(now, h) == if Canonical(h).Some? && Canonical(h).value in done then FinalRow(t, order, h) else Get(t, h)
  }

  function Front(keys: seq<string>, n: nat): set<string>
    requires n <= |keys|
  {
    set k <- keys[..n]
  }

  lemma FrontStep(keys: seq<string>, n: nat)
    requires n < |keys| && Distinct(keys)
    ensures Front(keys, n + 1) == Front(keys, n) + {keys[n]} && keys[n] !in Front(keys, n)
  {
    assert keys[..n + 1] == keys[..n] + [keys[n]];
  }

  /** The grouping of the first `n` rows: the keys as first seen, and the hashes of each. */
  ghost predicate Grouped(order: seq<string>, n: nat, keys: seq<string>, groups: map<string, seq<string>>)
    requires n <= |order|
  {
    KeysOf(keys, groups) && ListsOf(order, n, groups)
  }

  function ListAt(groups: map<string, seq<string>>, k: string): seq<string> { if k in groups then groups[k] else [] }

  lemma ListStep(order: seq<string>, n: nat, groups: map<string, seq<string>>, key: string, k: string)
    requires n < |order| && ListAt(groups, k) == Group(order, n, k) && Canonical(order[n]) == Some(key)
    ensures ListAt(groups[key := ListAt(groups, key) + [order[n]]], k) == Group(order, n + 1, k)
  {
  }

  lemma GroupedStep(order: seq<string>, n: nat, keys: seq<string>, groups: map<string, seq<string>>, key: string)
    requires n < |order| && Grouped(order, n, keys, groups) && Canonical(order[n]) == Some(key)
    ensures Grouped(order, n + 1, if key in groups then keys else keys + [key], groups[key := ListAt(groups, key) + [order[n]]])
  {
    CanonicalIsFixed(order[n]);
    ListsStep(order, n, groups, groups[key := ListAt(groups, key) + [order[n]]], key);
    KeysStep(keys, groups, key, ListAt(groups, key) + [order[n]]);
  }

  ghost predicate ListsOf(order: seq<string>, n: nat, groups: map<string, seq<string>>)
    requires n <= |order|
  {
    forall k :: ListAt(groups, k) == Group(order, n, k)
  }

  lemma ListsStep(order: seq<string>, n: nat, groups: map<string, seq<string>>, groups': map<string, seq<string>>, key: string)
    requires n < |order| && ListsOf(order, n, groups) && Canonical(order[n]) == Some(key)
    requires groups' == groups[key := ListAt(groups, key) + [order[n]]]
    ensures ListsOf(order, n + 1, groups')
  {
    forall k ensures ListAt(groups', k) == Group(order, n + 1, k) { ListStep(order, n, groups, key, k); }
  }

  ghost predicate KeysOf(keys: seq<string>, groups: map<string, seq<string>>) {
    && Distinct(keys)
    && (forall k :: k in keys <==> k in groups)
    && (forall k <- keys :: Canonical(k) == Some(k))
  }

  lemma KeysStep(keys: seq<string>, groups: map<string, seq<string>>, key: string, list: seq<string>)
    requires KeysOf(keys, groups) && Canonical(key) == Some(key)
    ensures KeysOf(if key in groups then keys else keys + [key], groups[key := list])
  {
    if key !in groups { DistinctSnoc(keys, key); }
  }

  lemma GroupedSkip(order: seq<string>, n: nat, keys: seq<string>, groups: map<string, seq<string>>)
    requires n < |order| && Grouped(order, n, keys, groups) && Canonical(order[n]).None?
    ensures Grouped(order, n + 1, keys, groups)
  {
    forall k ensures ListAt(groups, k) == Group(order, n + 1, k) {
      assert ListAt(groups, k) == Group(order, n, k);
    }
  }

  /** Once every key was merged, the table is as specified. */
  lemma AllMerged(t: Rows, order: seq<string>, keys: seq<string>, groups: map<string, seq<string>>, out: Rows)
    requires Listing(order, t) && NeedsRepair(t)
    requires Grouped(order, |order|, keys, groups) && Progress(t, order, Front(keys, |keys|), out)
    ensures Repaired(t, order, out)
  {
    assert keys[..|keys|] == keys;
    forall h ensures Get(out, h) == FinalRow(t, order, h) {
      if Canonical(h).Some? && Canonical(h).value !in keys {
        assert ListAt(groups, Canonical(h).value) == GroupOf(order, Canonical(h).value);
      }
    }
  }

  class DestinationTable {
    var rows: Rows

    constructor (rows: Rows)
      ensures this.rows == rows
    {
      this.rows := rows;
    }

    /** `order` is the order in which the query returns the rows. */
    method RepairHashCasing(order: seq<string>)
      requires Listing(order, rows)
      modifies this
      ensures Repaired(old(rows), order, rows)
    {
      if !NeedsRepair(rows) { return; }
      var snapshot := rows;
      var keys, groups := GroupRows(order);
      MergeGroups(snapshot, order, keys, groups);
      AllMerged(snapshot, order, keys, groups, rows);
    }

    method GroupRows(order: seq<string>) returns (keys: seq<string>, groups: map<string, seq<string>>)
      ensures Grouped(order, |order|, keys, groups)
    {
      keys, groups := [], map[];
      for n := 0 to |order|
        invariant Grouped(order, n, keys, groups)
      {
        var canonical := Canonical(order[n]);
        if canonical.None? {
          GroupedSkip(order, n, keys, groups);
          continue;
        }
        var key := canonical.value;
        GroupedStep(order, n, keys, groups, key);
        keys, groups := Append(keys, groups, key, order[n]);
      }
    }

    /** Push to the key's list, or start one; a `Map` remembers the order in which keys were added. */
    method Append(keys: seq<string>, groups: map<string, seq<string>>, key: string, h: string)
      returns (keys': seq<string>, groups': map<string, seq<string>>)
      ensures keys' == (if key in groups then keys else keys + [key])
      ensures groups' == groups[key := ListAt(groups, key) + [h]]
    {
      if key in groups { return keys, groups[key := groups[key] + [h]]; }
      assert [] + [h] == [h];
      return keys + [key], groups[key := [h]];
    }

    method MergeGroups(snapshot: Rows, ghost order: seq<string>, keys: seq<string>, groups: map<string, seq<string>>)
      requires Listing(order, snapshot) && Grouped(order, |order|, keys, groups) && rows == snapshot
      modifies this
      ensures Progress(snapshot, order, Front(keys, |keys|), rows)
    {
      for j := 0 to |keys|
        invariant Progress(snapshot, order, Front(keys, j), rows)
      {
        FrontStep(keys, j);
        var key := keys[j];
        assert key in keys && ListAt(groups, key) == GroupOf(order, key);
        MergeGroup(snapshot, order, key, groups[key], Front(keys, j));
      }
    }

    method MergeGroup(snapshot: Rows, ghost order: seq<string>, key: string, group: seq<string>, ghost done: set<string>)
      requires Listing(order, snapshot) && Progress(snapshot, order, done, rows)
      requires key !in done && Canonical(key) == Some(key) && group == GroupOf(order, key)
      modifies this
      ensures Progress(snapshot, order, done + {key}, rows)
    {
      GroupAll(snapshot, order, key);
      if |group| <= 1 && forall h <- group :: h == key { return; }
      var m := MergeRows(snapshot, group);
      ghost var before := rows;
      DeleteVariants(group, key);
      ghost var cleared := rows;
      Upsert(key, m);
      UpsertedCombines(Get(cleared, key), m, rows[key]);
      SameRows(rows, cleared[key := Upserted(Get(cleared, key), m)]);
      forall h ensures Get(rows, h) ==
        if Canonical(h).Some? && Canonical(h).value in done + {key} then FinalRow(snapshot, order, h) else Get(snapshot, h)
      {
        MergedHash(snapshot, order, done, before, rows, key, h);
      }
    }

    method MergeRows(t: Rows, group: seq<string>) returns (m: Merged)
      requires forall h <- group :: h in t
      ensures m == Merge(t, group)
    {
      var displayName: Option<string> := None;
      var lastHeard: Option<int> := None;
      var favorited: Flag, isContact: Flag := 0, 0;
      var iconName: Option<string> := None;
      var iconColor: Option<string> := None;
      for n := 0 to |group|
        invariant Merged(displayName, lastHeard, favorited, isContact, iconName, iconColor) == Merge(t, group[..n])
      {
        assert group[..n + 1][..n] == group[..n];
        var r := t[group[n]];
        if displayName.None? && r.displayName.Some? && Trim(r.displayName.value) != "" { displayName := r.displayName; }
        if r.lastHeard.Some? && (lastHeard.None? || r.lastHeard.value > lastHeard.value as real) {
          lastHeard := Some(Trunc(r.lastHeard.value));
        }
        if r.favorited == Some(1) { favorited := 1; }
        if r.isContact == Some(1) { isContact := 1; }
        if iconName.None? && r.iconName.Some? { iconName := r.iconName; }
        if iconColor.None? && r.iconColor.Some? { iconColor := r.iconColor; }
      }
      assert group[..|group|] == group;
      m := Merged(displayName, lastHeard, favorited, isContact, iconName, iconColor);
    }

    method DeleteVariants(group: seq<string>, key: string)
      modifies this
      ensures rows == old(rows) - (set h <- group | h != key)
    {
      for n := 0 to |group|
        invariant rows == old(rows) - (set h <- group[..n] | h != key)
      {
        assert group[..n + 1] == group[..n] + [group[n]];
        if group[n] != key { rows := rows - {group[n]}; }
      }
      assert group[..|group|] == group;
    }

    method Upsert(key: string, m: Merged)
      modifies this
      ensures key in rows && Combines(Get(old(rows), key), m, rows[key])
      ensures forall h :: h != key ==> Get(rows, h) == Get(old(rows), h)
    {
      UpsertedCombines(Get(rows, key), m, Upserted(Get(rows, key), m));
      rows := rows[key := Upserted(Get(rows, key), m)];
    }
  }

  /** Merging one group settles its hashes and leaves the others alone. */
  lemma MergedHash(t: Rows, order: seq<string>, done: set<string>, before: Rows, after: Rows, key: string, h: string)
    requires Listing(order, t) && Progress(t, order, done, before) && key !in done && Canonical(key) == Some(key)
    requires NeedsRewrite(GroupOf(order, key), key)
    requires forall x <- GroupOf(order, key) :: x in t
    requires after == (before - (set x <- GroupOf(order, key) | x != key))[key :=
      Upserted(Get(before, key), Merge(t, GroupOf(order, key)))]
    ensures Get(after, h) ==
      if Canonical(h).Some? && Canonical(h).value in done + {key} then FinalRow(t, order, h) else Get(t, h)
  {
    GroupAll(t, order, key);
    assert Get(before, key) == Get(t, key);
    assert Get(before, h) == if Canonical(h).Some? && Canonical(h).value in done then FinalRow(t, order, h) else Get(t, h);
    if Canonical(h) == Some(key) && h != key {
      assert h in before ==> h in GroupOf(order, key);
    }
  }
}
