/** JavaScript `Map` with string keys: insertion-ordered, `set` keeps the position of a present key. */
module OrderedMap {
  import opened Common

  type OMap<V> = seq<(string, V)>

  function Put<V>(m: OMap<V>, k: string, v: V): OMap<V> {
    if m == [] then [(k, v)] else if m[0].0 == k then [(k, v)] + m[1..] else [m[0]] + Put(m[1..], k, v)
  }

  function Drop<V>(m: OMap<V>, names: set<string>): OMap<V> {
    if m == [] then [] else if m[0].0 in names then Drop(m[1..], names) else [m[0]] + Drop(m[1..], names)
  }

  function Get<V>(m: OMap<V>, k: string): Option<V> {
    if m == [] then None else if m[0].0 == k then Some(m[0].1) else Get(m[1..], k)
  }

  function Values<V>(m: OMap<V>): seq<V> {
    if m == [] then [] else [m[0].1] + Values(m[1..])
  }

  /** Puts the entries of `more` one after the other. */
  function PutAll<V>(m: OMap<V>, more: OMap<V>): OMap<V>
    decreases |more|
  {
    if more == [] then m else Put(PutAll(m, more[..|more| - 1]), more[|more| - 1].0, more[|more| - 1].1)
  }

  ghost predicate Within<V>(m: OMap<V>, names: set<string>) { forall e <- m :: e.0 in names }

  lemma {:induction false} GetPut<V>(m: OMap<V>, k: string, v: V, name: string)
    ensures Get(Put(m, k, v), name) == if name == k then Some(v) else Get(m, name)
  {
    if m != [] && m[0].0 != k {
      GetPut(m[1..], k, v, name);
      assert Put(m, k, v)[1..] == Put(m[1..], k, v);
    }
  }

  lemma {:induction false} GetDrop<V>(m: OMap<V>, names: set<string>, name: string)
    ensures Get(Drop(m, names), name) == if name in names then None else Get(m, name)
  {
    if m != [] {
      GetDrop(m[1..], names, name);
      if m[0].0 !in names { assert Drop(m, names)[1..] == Drop(m[1..], names); }
    }
  }

  lemma {:induction false} DropPut<V>(m: OMap<V>, k: string, v: V, names: set<string>)
    ensures Drop(Put(m, k, v), names) == if k in names then Drop(m, names) else Put(Drop(m, names), k, v)
  {
    if m == [] {
    } else if m[0].0 == k {
      assert Put(m, k, v)[1..] == m[1..];
    } else {
      DropPut(m[1..], k, v, names);
      assert Put(m, k, v)[1..] == Put(m[1..], k, v);
      if m[0].0 !in names && k !in names {
        assert ([m[0]] + Drop(m[1..], names))[1..] == Drop(m[1..], names);
      }
    }
  }

  lemma {:induction false} DropDrop<V>(m: OMap<V>, a: set<string>, b: set<string>)
    ensures Drop(Drop(m, a), b) == Drop(m, a + b)
  {
    if m != [] {
      DropDrop(m[1..], a, b);
      if m[0].0 !in a { assert Drop(m, a)[1..] == Drop(m[1..], a); }
    }
  }

  lemma {:induction false} DropNothing<V>(m: OMap<V>)
    ensures Drop(m, {}) == m
  {
    if m != [] { DropNothing(m[1..]); }
  }

  lemma {:induction false} DropEverything<V>(m: OMap<V>, names: set<string>)
    requires Within(m, names)
    ensures Drop(m, names) == []
  {
    if m != [] { DropEverything(m[1..], names); }
  }

  lemma {:induction false} WithinPut<V>(m: OMap<V>, k: string, v: V, names: set<string>)
    requires Within(m, names)
    ensures Within(Put(m, k, v), names + {k})
  {
    if m != [] && m[0].0 != k { WithinPut(m[1..], k, v, names); }
  }

  lemma {:induction false} WithinDrop<V>(m: OMap<V>, names: set<string>, dropped: set<string>)
    requires Within(m, names)
    ensures Within(Drop(m, dropped), names - dropped)
  {
    if m != [] { WithinDrop(m[1..], names, dropped); }
  }

  lemma WithinMono<V>(m: OMap<V>, a: set<string>, b: set<string>)
    requires Within(m, a) && a <= b
    ensures Within(m, b)
  {
  }

  lemma {:induction false} WithinPutAll<V>(m: OMap<V>, more: OMap<V>, names: set<string>)
    requires Within(m, names) && Within(more, names)
    ensures Within(PutAll(m, more), names)
    decreases |more|
  {
    if more != [] {
      var last := more[|more| - 1];
      WithinPutAll(m, more[..|more| - 1], names);
      assert last in more;
      WithinPut(PutAll(m, more[..|more| - 1]), last.0, last.1, names);
      assert names + {last.0} == names;
    }
  }

  /** No name occurs twice. */
  ghost predicate Unique<V>(m: OMap<V>) {
    forall i, j :: 0 <= i < j < |m| ==> m[i].0 != m[j].0
  }

  lemma {:induction false} AbsentGet<V>(m: OMap<V>, k: string)
    ensures Get(m, k).None? <==> forall e <- m :: e.0 != k
  {
    if m != [] { AbsentGet(m[1..], k); }
  }

  lemma {:induction false} UniquePut<V>(m: OMap<V>, k: string, v: V)
    requires Unique(m)
    ensures Unique(Put(m, k, v)) && |m| <= |Put(m, k, v)|
    ensures forall e <- Put(m, k, v) :: e.0 == k || e in m
  {
    if m != [] && m[0].0 != k {
      UniquePut(m[1..], k, v);
      var rest := Put(m[1..], k, v);
      forall e <- rest ensures e.0 != m[0].0 {
        if e.0 != k { var i :| 0 <= i < |m[1..]| && m[1..][i] == e; }
      }
    }
  }

  /** Put one after the other, the entries of a duplicate-free map override the others. */
  lemma {:induction false} GetPutAll<V>(m: OMap<V>, more: OMap<V>, name: string)
    requires Unique(more)
    ensures Get(PutAll(m, more), name) == if Get(more, name).Some? then Get(more, name) else Get(m, name)
    decreases |more|
  {
    if more != [] {
      var init, last := more[..|more| - 1], more[|more| - 1];
      GetPutAll(m, init, name);
      GetPut(PutAll(m, init), last.0, last.1, name);
      assert more == init + [last];
      GetAppend(init, last, name);
      if last.0 == name { AbsentGet(init, name); }
    }
  }

  lemma {:induction false} GetAppend<V>(m: OMap<V>, last: (string, V), name: string)
    ensures Get(m + [last], name) ==
      if Get(m, name).Some? then Get(m, name) else if last.0 == name then Some(last.1) else None
  {
    if m != [] {
      assert (m + [last])[1..] == m[1..] + [last];
      GetAppend(m[1..], last, name);
    }
  }

  function Keys<V>(m: OMap<V>): set<string> { set i | 0 <= i < |m| :: m[i].0 }

  lemma KeysAppend<V>(a: OMap<V>, b: OMap<V>)
    ensures Keys(a + b) == Keys(a) + Keys(b)
  {
    forall k | k in Keys(b) ensures k in Keys(a + b) {
      var i :| 0 <= i < |b| && b[i].0 == k;
      assert (a + b)[|a| + i].0 == k;
    }
    forall k | k in Keys(a) ensures k in Keys(a + b) {
      var i :| 0 <= i < |a| && a[i].0 == k;
      assert (a + b)[i].0 == k;
    }
  }

  lemma {:induction false} KeysPutAll<V>(m: OMap<V>, more: OMap<V>, k: string)
    ensures Get(PutAll(m, more), k).Some? <==> Get(m, k).Some? || k in Keys(more)
    decreases |more|
  {
    if more != [] {
      var init, last := more[..|more| - 1], more[|more| - 1];
      KeysPutAll(m, init, k);
      GetPut(PutAll(m, init), last.0, last.1, k);
      assert more == init + [last];
      KeysAppend(init, [last]);
    }
  }

  /** A name keeps its place; a new one comes last. */
  lemma {:induction false} PutKeepsOrder<V>(m: OMap<V>, k: string, v: V)
    ensures Get(m, k).None? ==> Put(m, k, v) == m + [(k, v)]
    ensures Get(m, k).Some? ==> |Put(m, k, v)| == |m| && forall i :: 0 <= i < |m| ==> Put(m, k, v)[i].0 == m[i].0
  {
    if m != [] && m[0].0 != k {
      PutKeepsOrder(m[1..], k, v);
      assert m + [(k, v)] == [m[0]] + (m[1..] + [(k, v)]);
    }
  }

  /** The names that are left stay in order. */
  lemma {:induction false} DropKeepsOrder<V>(a: OMap<V>, b: OMap<V>, names: set<string>)
    ensures Drop(a + b, names) == Drop(a, names) + Drop(b, names)
  {
    if a == [] {
      assert a + b == b;
    } else {
      assert (a + b)[1..] == a[1..] + b;
      DropKeepsOrder(a[1..], b, names);
    }
  }

  lemma {:induction false} ValueAt<V>(m: OMap<V>, i: nat)
    requires i < |m|
    ensures |Values(m)| == |m| && Values(m)[i] == m[i].1
  {
    if |m| > 1 { ValueAt(m[1..], if i > 0 then i - 1 else 0); } else { assert Values(m[1..]) == []; }
  }

  lemma {:induction false} GetIsValue<V>(m: OMap<V>, k: string)
    requires Get(m, k).Some?
    ensures Get(m, k).value in Values(m)
  {
    if m[0].0 != k { GetIsValue(m[1..], k); }
  }
}

/**
 * Channel keys of the Meshtastic MQTT manager: the merge of manual lines with the keys synced from
 * the radio, and the list of keys tried on inbound packets.  Base64 is left out: keys and lines come
 * with their decoded bytes.
 */
module ChannelKeys {
  import opened Common
  import opened Text
  import opened OrderedMap

  type Byte = b: int | 0 <= b < 256
  type Key = seq<Byte>

  const DEFAULT_PSK: Key :=
    [0xd4, 0xf1, 0xbb, 0x3a, 0x20, 0x29, 0x07, 0x59, 0xf0, 0xbc, 0xff, 0xab, 0xcf, 0x4e, 0x69, 0x01]

  function Padded(raw: Key): Key
    requires |raw| <= 16
  {
    raw + seq(16 - |raw|, _ => 0)
  }

  /** One-byte shorthand: aliases 1 to 10 count up the last byte of the default key. */
  function ExpandAlias(index: Byte): Option<Key> {
    if 1 <= index <= 10 then Some(DEFAULT_PSK[15 := (DEFAULT_PSK[15] + (index - 1)) % 256]) else None
  }

  function ParsePsk(raw: Key): Option<Key> {
    if |raw| == 0 then None
    else if |raw| == 16 || |raw| == 32 then Some(raw)
    else if |raw| == 1 && ExpandAlias(raw[0]).Some? then ExpandAlias(raw[0])
    else if |raw| < 16 then Some(Padded(raw))
    else None
  }

  /** Only the first 16 bytes are compared, so a 32-byte key may pass for the default one. */
  predicate IsDefaultPublic(psk: Key) {
    psk != [] && (
      if |psk| == 1 && ExpandAlias(psk[0]).Some? then ExpandAlias(psk[0]) == Some(DEFAULT_PSK)
      else if |psk| < 16 then Padded(psk) == DEFAULT_PSK
      else psk[..16] == DEFAULT_PSK)
  }

  datatype RadioEntry = RadioEntry(name: string, raw: Key, index: Option<int>)

  /** A line of the connection panel; the grammar of named lines rules out an empty name. */
  datatype Line = Blank | Bare(raw: Key) | Named(name: string, index: Option<int>, raw: Key)

  datatype State = State(
    keys: OMap<Key>, indices: OMap<nat>, radio: set<string>, lines: seq<Line>, manual: set<string>,
    decryptOnly: seq<Key>, extra: seq<Key>, all: seq<Key>)

  const INITIAL := State([], [], {}, [], {}, [], [], [DEFAULT_PSK])

  /** `index >>> 0`, kept when it is a channel slot. */
  function Slot(index: Option<int>): Option<nat> {
    if index.None? then None
    else
      var idx := index.value % 0x1_0000_0000;
      if idx <= 7 then Some(idx) else None
  }

  // ---------------------------------------------------------------- radio entries

  datatype Radio = Radio(keys: OMap<Key>, indices: OMap<nat>, names: set<string>, topics: OMap<nat>)

  predicate IsValid(e: RadioEntry) { Trim(e.name) != "" && ParsePsk(e.raw).Some? }

  function RadioIndex(r: Radio, e: RadioEntry): Radio {
    var name := Trim(e.name);
    match Slot(e.index)
    case None => r
    case Some(idx) => r.(topics := Put(r.topics, name, idx), indices := Put(r.indices, name, idx))
  }

  predicate KeepsExisting(keys: OMap<Key>, name: string, psk: Key) {
    Get(keys, name).Some? && IsDefaultPublic(psk) && !IsDefaultPublic(Get(keys, name).value)
  }

  function RadioStep(r: Radio, manual: set<string>, e: RadioEntry): Radio {
    if !IsValid(e) then r
    else
      var name, psk := Trim(e.name), ParsePsk(e.raw).value;
      var r := RadioIndex(r, e);
      if name in manual || KeepsExisting(r.keys, name, psk) then r
      else r.(keys := Put(r.keys, name, psk), names := r.names + {name})
  }

  function RadioFold(r: Radio, manual: set<string>, es: seq<RadioEntry>): Radio
    decreases |es|
  {
    if es == [] then r else RadioStep(RadioFold(r, manual, es[..|es| - 1]), manual, es[|es| - 1])
  }

  // ---------------------------------------------------------------- manual lines

  datatype Manual = Manual(keys: OMap<Key>, indices: OMap<nat>, names: set<string>, decryptOnly: seq<Key>)

  function ManualStep(m: Manual, line: Line): Manual {
    match line
    case Blank => m
    case Bare(raw) =>
      if ParsePsk(raw).Some? then m.(decryptOnly := m.decryptOnly + [ParsePsk(raw).value]) else m
    case Named(name, index, raw) =>
      if ParsePsk(raw).None? then m
      else
        var k := m.(keys := Put(m.keys, name, ParsePsk(raw).value), names := m.names + {name});
        if index.Some? then
          if Slot(index).Some? then k.(indices := Put(k.indices, name, Slot(index).value)) else k
        else if name == "LongFast" then k.(indices := Put(k.indices, name, 0))
        else k
  }

  function ManualFold(m: Manual, lines: seq<Line>): Manual
    decreases |lines|
  {
    if lines == [] then m else ManualStep(ManualFold(m, lines[..|lines| - 1]), lines[|lines| - 1])
  }

  // ---------------------------------------------------------------- decrypt list

  function FirstOccurrences(ks: seq<Key>): seq<Key>
    decreases |ks|
  {
    if ks == [] then []
    else
      var before, k := FirstOccurrences(ks[..|ks| - 1]), ks[|ks| - 1];
      if k in before then before else before + [k]
  }

  function DecryptKeys(keys: OMap<Key>, decryptOnly: seq<Key>, extra: seq<Key>): seq<Key> {
    FirstOccurrences([DEFAULT_PSK] + extra + Values(keys) + decryptOnly)
  }

  function Rebuilt(s: State): State { s.(all := DecryptKeys(s.keys, s.decryptOnly, s.extra)) }

  // ---------------------------------------------------------------- meaning of the operations

  function ApplyManual(s: State): State {
    var m := ManualFold(Manual(Drop(s.keys, s.manual), Drop(s.indices, s.manual), {}, []), s.lines);
    s.(keys := m.keys, indices := m.indices, manual := m.names, decryptOnly := m.decryptOnly)
  }

  function Connected(lines: seq<Line>): State {
    Rebuilt(ApplyManual(INITIAL.(lines := lines)))
  }

  function Updated(s: State, es: seq<RadioEntry>): State {
    var r := RadioFold(Radio(Drop(s.keys, s.radio), Drop(s.indices, s.radio), {}, []), s.manual, es);
    var t := ApplyManual(s.(keys := r.keys, indices := r.indices, radio := r.names));
    Rebuilt(t.(indices := PutAll(t.indices, r.topics)))
  }

  function Ensured(s: State, psk: Key): State {
    if psk in s.all then s else Rebuilt(s.(extra := s.extra + [psk]))
  }

  /** The key a publish encrypts with, after `Ensured` ran for an explicit one. */
  function PublishKey(s: State, channel: string, explicit: Option<Key>): Key {
    if explicit.Some? then explicit.value
    else if Get(s.keys, channel).Some? then Get(s.keys, channel).value
    else DEFAULT_PSK
  }

  // ---------------------------------------------------------------- reachable states

  function ManualNames(lines: seq<Line>): set<string> { ManualFold(Manual([], [], {}, []), lines).names }

  ghost predicate Slots(m: OMap<nat>) { forall e <- m :: e.1 <= 7 }

  ghost predicate Inv(s: State) {
    && Within(s.keys, s.radio + s.manual)
    && Within(s.indices, s.radio + s.manual)
    && s.manual == ManualNames(s.lines)
    && s.radio !! s.manual
    && Slots(s.indices)
    && s.all == DecryptKeys(s.keys, s.decryptOnly, s.extra)
  }

  lemma {:induction false} PutSlot(m: OMap<nat>, k: string, v: nat)
    requires Slots(m) && v <= 7
    ensures Slots(Put(m, k, v))
  {
    if m != [] && m[0].0 != k { PutSlot(m[1..], k, v); }
  }

  lemma {:induction false} DropSlots(m: OMap<nat>, names: set<string>)
    requires Slots(m)
    ensures Slots(Drop(m, names))
  {
    if m != [] { DropSlots(m[1..], names); }
  }

  lemma {:induction false} PutAllSlots(m: OMap<nat>, more: OMap<nat>)
    requires Slots(m) && Slots(more)
    ensures Slots(PutAll(m, more))
    decreases |more|
  {
    if more != [] {
      PutAllSlots(m, more[..|more| - 1]);
      assert more[|more| - 1] in more;
      PutSlot(PutAll(m, more[..|more| - 1]), more[|more| - 1].0, more[|more| - 1].1);
    }
  }

  /** What the manual lines add: their names, to the maps and to the set of manual names. */
  lemma {:induction false} ManualFoldWithin(m: Manual, lines: seq<Line>, names: set<string>)
    requires Within(m.keys, names + m.names) && Within(m.indices, names + m.names) && Slots(m.indices)
    ensures
      var f := ManualFold(m, lines);
      Within(f.keys, names + f.names) && Within(f.indices, names + f.names) && Slots(f.indices)
    decreases |lines|
  {
    if lines != [] {
      var line := lines[|lines| - 1];
      ManualFoldWithin(m, lines[..|lines| - 1], names);
      var f := ManualFold(m, lines[..|lines| - 1]);
      if line.Named? && ParsePsk(line.raw).Some? {
        WithinPut(f.keys, line.name, ParsePsk(line.raw).value, names + f.names);
        assert names + f.names + {line.name} == names + (f.names + {line.name});
        WithinMono(f.indices, names + f.names, names + (f.names + {line.name}));
        var idx := if line.index.Some? then Slot(line.index) else Some(0);
        if idx.Some? {
          WithinPut(f.indices, line.name, idx.value, names + f.names);
          PutSlot(f.indices, line.name, idx.value);
        }
      }
    }
  }

  /** Which names are manual depends on the lines alone. */
  lemma {:induction false} ManualFoldNames(m: Manual, lines: seq<Line>)
    ensures ManualFold(m, lines).names == m.names + ManualNames(lines)
    ensures ManualFold(m, lines).decryptOnly == m.decryptOnly + ManualFold(Manual([], [], {}, []), lines).decryptOnly
    decreases |lines|
  {
    if lines != [] { ManualFoldNames(m, lines[..|lines| - 1]); }
  }

  ghost predicate RadioWithin(r: Radio, manual: set<string>) {
    && Within(r.keys, r.names + manual) && Within(r.indices, r.names + manual) && Within(r.topics, r.names + manual)
    && r.names !! manual && Slots(r.indices) && Slots(r.topics) && Unique(r.topics)
  }

  lemma RadioStepWithin(r: Radio, manual: set<string>, e: RadioEntry)
    requires RadioWithin(r, manual)
    ensures RadioWithin(RadioStep(r, manual, e), manual)
  {
    if IsValid(e) {
      var name, psk := Trim(e.name), ParsePsk(e.raw).value;
      var i := RadioIndex(r, e);
      var names := r.names + manual;
      if Slot(e.index).Some? {
        var idx := Slot(e.index).value;
        WithinPut(r.topics, name, idx, names);
        WithinPut(r.indices, name, idx, names);
        PutSlot(r.topics, name, idx);
        PutSlot(r.indices, name, idx);
        UniquePut(r.topics, name, idx);
      }
      if KeepsExisting(r.keys, name, psk) { AbsentGet(r.keys, name); }
      WithinPut(r.keys, name, psk, names);
      if name in manual || KeepsExisting(r.keys, name, psk) {
        assert names + {name} == names;
      } else {
        assert names + {name} == (r.names + {name}) + manual;
        WithinMono(i.topics, names + {name}, (r.names + {name}) + manual);
        WithinMono(i.indices, names + {name}, (r.names + {name}) + manual);
      }
    }
  }

  lemma {:induction false} RadioFoldWithin(r: Radio, manual: set<string>, es: seq<RadioEntry>)
    requires RadioWithin(r, manual)
    ensures RadioWithin(RadioFold(r, manual, es), manual)
    decreases |es|
  {
    if es != [] {
      RadioFoldWithin(r, manual, es[..|es| - 1]);
      RadioStepWithin(RadioFold(r, manual, es[..|es| - 1]), manual, es[|es| - 1]);
    }
  }

  /** What a radio sync starts from, once the names of the previous one are forgotten. */
  function Cleared(s: State): Radio { Radio(Drop(s.keys, s.radio), Drop(s.indices, s.radio), {}, []) }

  lemma ClearedWithin(s: State)
    requires Inv(s)
    ensures RadioWithin(Cleared(s), s.manual)
    ensures Within(Cleared(s).keys, s.manual) && Within(Cleared(s).indices, s.manual)
  {
    WithinDrop(s.keys, s.radio + s.manual, s.radio);
    WithinDrop(s.indices, s.radio + s.manual, s.radio);
    assert s.radio + s.manual - s.radio == s.manual == {} + s.manual;
    DropSlots(s.indices, s.radio);
  }

  lemma ApplyManualInv(s: State)
    requires Within(s.keys, s.radio + s.manual) && Within(s.indices, s.radio + s.manual)
    requires s.manual == {} || s.manual == ManualNames(s.lines)
    requires s.radio !! ManualNames(s.lines) && Slots(s.indices)
    ensures Inv(Rebuilt(ApplyManual(s)))
  {
    WithinDrop(s.keys, s.radio + s.manual, s.manual);
    WithinDrop(s.indices, s.radio + s.manual, s.manual);
    WithinMono(Drop(s.keys, s.manual), s.radio + s.manual - s.manual, s.radio + {});
    WithinMono(Drop(s.indices, s.manual), s.radio + s.manual - s.manual, s.radio + {});
    DropSlots(s.indices, s.manual);
    var m := Manual(Drop(s.keys, s.manual), Drop(s.indices, s.manual), {}, []);
    ManualFoldWithin(m, s.lines, s.radio);
    ManualFoldNames(m, s.lines);
  }

  lemma ConnectedInv(lines: seq<Line>)
    ensures Inv(Connected(lines))
  {
    ApplyManualInv(INITIAL.(lines := lines));
  }

  lemma UpdatedInv(s: State, es: seq<RadioEntry>)
    requires Inv(s)
    ensures Inv(Updated(s, es))
  {
    ClearedWithin(s);
    RadioFoldWithin(Cleared(s), s.manual, es);
    var r := RadioFold(Cleared(s), s.manual, es);
    var u := s.(keys := r.keys, indices := r.indices, radio := r.names);
    ApplyManualInv(u);
    var t := ApplyManual(u);
    assert t.radio + t.manual == r.names + s.manual;
    WithinPutAll(t.indices, r.topics, r.names + s.manual);
    PutAllSlots(t.indices, r.topics);
  }

  // ---------------------------------------------------------------- path independence

  /** `a` and `b` differ at most in what the previous manual lines left behind. */
  ghost predicate SameRadio(a: Radio, b: Radio, manual: set<string>) {
    && Drop(a.keys, manual) == Drop(b.keys, manual)
    && Drop(a.indices, manual) == Drop(b.indices, manual)
    && a.names == b.names && a.topics == b.topics
  }

  lemma SameRadioStep(a: Radio, b: Radio, manual: set<string>, e: RadioEntry)
    requires SameRadio(a, b, manual)
    ensures SameRadio(RadioStep(a, manual, e), RadioStep(b, manual, e), manual)
  {
    if IsValid(e) {
      var name, psk := Trim(e.name), ParsePsk(e.raw).value;
      if Slot(e.index).Some? {
        DropPut(a.indices, name, Slot(e.index).value, manual);
        DropPut(b.indices, name, Slot(e.index).value, manual);
      }
      GetDrop(a.keys, manual, name);
      GetDrop(b.keys, manual, name);
      DropPut(a.keys, name, psk, manual);
      DropPut(b.keys, name, psk, manual);
    }
  }

  lemma {:induction false} SameRadioFold(a: Radio, b: Radio, manual: set<string>, es: seq<RadioEntry>)
    requires SameRadio(a, b, manual)
    ensures SameRadio(RadioFold(a, manual, es), RadioFold(b, manual, es), manual)
    decreases |es|
  {
    if es != [] {
      SameRadioFold(a, b, manual, es[..|es| - 1]);
      SameRadioStep(RadioFold(a, manual, es[..|es| - 1]), RadioFold(b, manual, es[..|es| - 1]), manual, es[|es| - 1]);
    }
  }

  /** Everything but the publish-time keys and the list computed from them. */
  function Core(s: State): State { s.(extra := [], all := []) }

  /** A radio sync forgets everything but the manual lines: maps, their order, names. */
  lemma UpdateForgets(a: State, b: State, es: seq<RadioEntry>)
    requires Inv(a) && Inv(b) && a.lines == b.lines
    ensures Core(Updated(a, es)) == Core(Updated(b, es))
  {
    ClearedWithin(a);
    ClearedWithin(b);
    DropEverything(Cleared(a).keys, a.manual);
    DropEverything(Cleared(b).keys, a.manual);
    DropEverything(Cleared(a).indices, a.manual);
    DropEverything(Cleared(b).indices, a.manual);
    SameRadioFold(Cleared(a), Cleared(b), a.manual, es);
  }

  datatype Event = Update(entries: seq<RadioEntry>) | Publish(channel: string, explicit: Option<Key>)

  function Step(s: State, e: Event): State {
    match e
    case Update(entries) => Updated(s, entries)
    case Publish(_, explicit) => if explicit.Some? then Ensured(s, explicit.value) else s
  }

  function Run(s: State, es: seq<Event>): State
    decreases |es|
  {
    if es == [] then s else Step(Run(s, es[..|es| - 1]), es[|es| - 1])
  }

  /** The entries of the last radio sync in `es`. */
  function LastUpdate(es: seq<Event>): Option<seq<RadioEntry>>
    decreases |es|
  {
    if es == [] then None
    else if es[|es| - 1].Update? then Some(es[|es| - 1].entries)
    else LastUpdate(es[..|es| - 1])
  }

  lemma {:induction false} RunInv(lines: seq<Line>, es: seq<Event>)
    ensures Inv(Run(Connected(lines), es)) && Run(Connected(lines), es).lines == lines
    decreases |es|
  {
    if es == [] {
      ConnectedInv(lines);
    } else {
      RunInv(lines, es[..|es| - 1]);
      var s := Run(Connected(lines), es[..|es| - 1]);
      if es[|es| - 1].Update? { UpdatedInv(s, es[|es| - 1].entries); }
    }
  }

  /**
   * Path independence: after any run of syncs and publishes since the connect, the maps with their
   * order, the name sets and the decrypt-only keys are those of the last sync alone on a fresh
   * connect, and the decrypt list is computed from them and the publish-time keys.
   */
  lemma {:induction false} PathIndependent(lines: seq<Line>, es: seq<Event>)
    ensures
      var s := Run(Connected(lines), es);
      && Core(s) == Core(match LastUpdate(es) case None => Connected(lines) case Some(last) => Updated(Connected(lines), last))
      && s.all == FirstOccurrences([DEFAULT_PSK] + s.extra + Values(s.keys) + s.decryptOnly)
    decreases |es|
  {
    RunInv(lines, es);
    if es != [] {
      PathIndependent(lines, es[..|es| - 1]);
      if es[|es| - 1].Update? {
        RunInv(lines, es[..|es| - 1]);
        ConnectedInv(lines);
        UpdateForgets(Run(Connected(lines), es[..|es| - 1]), Connected(lines), es[|es| - 1].entries);
      }
    }
  }

  // ---------------------------------------------------------------- precedence

  /** The key of the last valid manual line for `name`. */
  function ManualKey(lines: seq<Line>, name: string): Option<Key>
    decreases |lines|
  {
    if lines == [] then None
    else
      var line := lines[|lines| - 1];
      if line.Named? && line.name == name && ParsePsk(line.raw).Some? then ParsePsk(line.raw)
      else ManualKey(lines[..|lines| - 1], name)
  }

  /** The slot set by the last valid manual line for `name` that sets one. */
  function ManualSlot(lines: seq<Line>, name: string): Option<nat>
    decreases |lines|
  {
    if lines == [] then None
    else
      var line := lines[|lines| - 1];
      var rest := ManualSlot(lines[..|lines| - 1], name);
      if line.Named? && line.name == name && ParsePsk(line.raw).Some? then
        if line.index.Some? then (if Slot(line.index).Some? then Slot(line.index) else rest)
        else if name == "LongFast" then Some(0) else rest
      else rest
  }

  /** The slot of the last valid radio entry for `name` that has one. */
  function RadioSlot(es: seq<RadioEntry>, name: string): Option<nat>
    decreases |es|
  {
    if es == [] then None
    else if IsValid(es[|es| - 1]) && Trim(es[|es| - 1].name) == name && Slot(es[|es| - 1].index).Some? then Slot(es[|es| - 1].index)
    else RadioSlot(es[..|es| - 1], name)
  }

  /** The key of the last valid radio entry for `name`, among those that are not the default key if `strong`. */
  function RadioKey(es: seq<RadioEntry>, name: string, strong: bool): Option<Key>
    decreases |es|
  {
    if es == [] then None
    else
      var e := es[|es| - 1];
      if IsValid(e) && Trim(e.name) == name && !(strong && IsDefaultPublic(ParsePsk(e.raw).value)) then ParsePsk(e.raw)
      else RadioKey(es[..|es| - 1], name, strong)
  }

  lemma {:induction false} RadioKeyStrong(es: seq<RadioEntry>, name: string)
    ensures RadioKey(es, name, true).Some? ==> !IsDefaultPublic(RadioKey(es, name, true).value) && RadioKey(es, name, false).Some?
    ensures RadioKey(es, name, true).None? && RadioKey(es, name, false).Some? ==>
      IsDefaultPublic(RadioKey(es, name, false).value)
    decreases |es|
  {
    if es != [] { RadioKeyStrong(es[..|es| - 1], name); }
  }

  lemma {:induction false} ManualFoldLookup(m: Manual, lines: seq<Line>, name: string)
    ensures
      var f := ManualFold(m, lines);
      && Get(f.keys, name) == (if ManualKey(lines, name).Some? then ManualKey(lines, name) else Get(m.keys, name))
      && Get(f.indices, name) == (if ManualSlot(lines, name).Some? then ManualSlot(lines, name) else Get(m.indices, name))
      && (name in f.names <==> name in m.names || ManualKey(lines, name).Some?)
    decreases |lines|
  {
    if lines != [] {
      var line := lines[|lines| - 1];
      ManualFoldLookup(m, lines[..|lines| - 1], name);
      var f := ManualFold(m, lines[..|lines| - 1]);
      if line.Named? && ParsePsk(line.raw).Some? {
        GetPut(f.keys, line.name, ParsePsk(line.raw).value, name);
        if Slot(line.index).Some? { GetPut(f.indices, line.name, Slot(line.index).value, name); }
        GetPut(f.indices, line.name, 0, name);
      }
    }
  }

  lemma {:induction false} RadioFoldLookup(r: Radio, manual: set<string>, es: seq<RadioEntry>, name: string)
    requires r.names == {} && r.topics == [] && Within(r.keys, manual) && Within(r.indices, manual)
    ensures
      var f := RadioFold(r, manual, es);
      && (name !in manual ==>
            Get(f.keys, name) == RadioKey(es, name, RadioKey(es, name, true).Some?))
      && Get(f.topics, name) == RadioSlot(es, name)
      && (name !in manual ==> Get(f.indices, name) == RadioSlot(es, name))
    decreases |es|
  {
    if es == [] {
      AbsentGet(r.keys, name);
      AbsentGet(r.indices, name);
    } else {
      var e := es[|es| - 1];
      RadioFoldLookup(r, manual, es[..|es| - 1], name);
      RadioKeyStrong(es[..|es| - 1], name);
      var f := RadioFold(r, manual, es[..|es| - 1]);
      if IsValid(e) {
        GetPut(f.keys, Trim(e.name), ParsePsk(e.raw).value, name);
        if Slot(e.index).Some? {
          GetPut(f.topics, Trim(e.name), Slot(e.index).value, name);
          GetPut(f.indices, Trim(e.name), Slot(e.index).value, name);
        }
      }
    }
  }

  /**
   * Who wins after a radio sync: a manual key over any radio key, a radio slot over any manual slot;
   * among radio entries the last one, except that the public default never displaces another key.
   */
  lemma SyncPrecedence(s: State, es: seq<RadioEntry>, name: string)
    requires Inv(s)
    ensures
      var t := Updated(s, es);
      && Get(t.keys, name) == (
           if ManualKey(s.lines, name).Some? then ManualKey(s.lines, name)
           else RadioKey(es, name, RadioKey(es, name, true).Some?))
      && Get(t.indices, name) ==
           (if RadioSlot(es, name).Some? then RadioSlot(es, name) else ManualSlot(s.lines, name))
      && Slots(t.indices)
  {
    UpdatedInv(s, es);
    ClearedWithin(s);
    RadioFoldWithin(Cleared(s), s.manual, es);
    var r := RadioFold(Cleared(s), s.manual, es);
    RadioFoldLookup(Cleared(s), s.manual, es, name);
    var m := Manual(Drop(r.keys, s.manual), Drop(r.indices, s.manual), {}, []);
    GetDrop(r.keys, s.manual, name);
    GetDrop(r.indices, s.manual, name);
    ManualFoldLookup(m, s.lines, name);
    ManualFoldLookup(Manual([], [], {}, []), s.lines, name);
    GetPutAll(ManualFold(m, s.lines).indices, r.topics, name);
  }

  // ---------------------------------------------------------------- the decrypt list

  /** The position of the first occurrence of `k`. */
  function FirstIndex(ks: seq<Key>, k: Key): nat
    requires k in ks
  {
    if ks[0] == k then 0 else 1 + FirstIndex(ks[1..], k)
  }

  lemma {:induction false} FirstIndexAppend(ks: seq<Key>, last: Key, k: Key)
    requires k in ks + [last]
    ensures FirstIndex(ks + [last], k) == if k in ks then FirstIndex(ks, k) else |ks|
    ensures k in ks ==> FirstIndex(ks, k) < |ks|
  {
    if ks != [] && ks[0] != k {
      assert (ks + [last])[1..] == ks[1..] + [last];
      FirstIndexAppend(ks[1..], last, k);
    }
  }

  /** The decrypt list has the same keys, each once, in order of first occurrence. */
  lemma {:induction false} FirstOccurrencesOrdered(ks: seq<Key>)
    ensures
      var f := FirstOccurrences(ks);
      && (forall k :: k in f <==> k in ks)
      && (forall i, j :: 0 <= i < j < |f| ==> FirstIndex(ks, f[i]) < FirstIndex(ks, f[j]))
    decreases |ks|
  {
    if ks != [] {
      var init, last := ks[..|ks| - 1], ks[|ks| - 1];
      assert ks == init + [last];
      FirstOccurrencesOrdered(init);
      var f := FirstOccurrences(init);
      forall k | k in ks ensures FirstIndex(ks, k) == if k in init then FirstIndex(init, k) else |init| {
        FirstIndexAppend(init, last, k);
      }
      forall i | 0 <= i < |f| ensures FirstIndex(init, f[i]) < |init| {
        assert f[i] in f;
        FirstIndexAppend(init, last, f[i]);
      }
    }
  }

  lemma KnownKeys(s: State)
    requires Inv(s)
    ensures forall k <- [DEFAULT_PSK] + s.extra + Values(s.keys) + s.decryptOnly :: k in s.all
    ensures DEFAULT_PSK in s.all && (forall k <- s.extra :: k in s.all) && (forall k <- Values(s.keys) :: k in s.all)
  {
    var ks := [DEFAULT_PSK] + s.extra + Values(s.keys) + s.decryptOnly;
    FirstOccurrencesOrdered(ks);
    assert ks[0] == DEFAULT_PSK;
    forall k <- s.extra ensures k in ks {
      var i :| 0 <= i < |s.extra| && s.extra[i] == k;
      assert ks[i + 1] == k;
    }
    forall k <- Values(s.keys) ensures k in ks {
      var i :| 0 <= i < |Values(s.keys)| && Values(s.keys)[i] == k;
      assert ks[i + 1 + |s.extra|] == k;
    }
  }

  /** In every reachable state the key a publish uses is in the decrypt list at that moment. */
  lemma PublishKeyIsKnown(lines: seq<Line>, es: seq<Event>, channel: string, explicit: Option<Key>)
    ensures
      var s := Run(Connected(lines), es + [Publish(channel, explicit)]);
      PublishKey(s, channel, explicit) in s.all
  {
    var es' := es + [Publish(channel, explicit)];
    RunInv(lines, es');
    assert es'[..|es'| - 1] == es;
    var before, s := Run(Connected(lines), es), Run(Connected(lines), es');
    KnownKeys(s);
    if Get(s.keys, channel).Some? { GetIsValue(s.keys, channel); }
    if explicit.Some? && explicit.value !in before.all {
      assert s.extra == before.extra + [explicit.value];
      assert explicit.value in s.extra;
    }
  }

  // ---------------------------------------------------------------- which bytes make which key

  /** One byte from 1 to 10 is short for the default key with that last byte; 1 is the default key. */
  lemma AliasKeys(i: Byte)
    ensures ParsePsk([1]) == Some(DEFAULT_PSK)
    ensures 1 <= i <= 10 ==> ParsePsk([i]) == Some(DEFAULT_PSK[..15] + [i])
    ensures !(1 <= i <= 10) ==> ParsePsk([i]) == Some([i] + seq(15, _ => 0))
  {
    assert DEFAULT_PSK[15 := 1] == DEFAULT_PSK && DEFAULT_PSK[15 := i] == DEFAULT_PSK[..15] + [i];
    assert [i] + seq(15, _ => 0) == Padded([i]);
  }

  /** Longer keys: 16 and 32 bytes count as they are, fewer than 16 are padded with zeros, others are refused. */
  lemma LongKeys(raw: Key)
    requires |raw| != 1
    ensures |raw| == 16 || |raw| == 32 ==> ParsePsk(raw) == Some(raw)
    ensures 2 <= |raw| < 16 ==>
      && ParsePsk(raw).Some? && |ParsePsk(raw).value| == 16 && raw <= ParsePsk(raw).value
      && forall i :: |raw| <= i < 16 ==> ParsePsk(raw).value[i] == 0
    ensures raw == [] || 16 < |raw| < 32 || |raw| > 32 ==> ParsePsk(raw).None?
  {
  }

  /** A parsed key is ready to use: parsing it again changes nothing. */
  lemma ParsedTwice(raw: Key)
    requires ParsePsk(raw).Some?
    ensures |ParsePsk(raw).value| in {16, 32} && ParsePsk(ParsePsk(raw).value) == ParsePsk(raw)
  {
  }

  /** A key counts as the public default exactly if the key it stands for starts with the default one. */
  lemma DefaultIff(raw: Key)
    ensures ParsePsk(raw).Some? ==> (IsDefaultPublic(raw) <==> ParsePsk(raw).value[..16] == DEFAULT_PSK)
    ensures ParsePsk(raw).Some? ==> (IsDefaultPublic(ParsePsk(raw).value) <==> IsDefaultPublic(raw))
    ensures ParsePsk(raw).None? ==> (IsDefaultPublic(raw) <==> DEFAULT_PSK <= raw)
  {
    if |raw| >= 16 { assert raw == raw[..16] + raw[16..]; }
    if ParsePsk(raw).Some? && |raw| < 16 { assert ParsePsk(raw).value[..16] == ParsePsk(raw).value; }
  }

  /** A slot is the index, modulo 2 to the 32, if that is 0 to 7. */
  lemma SlotIff(index: Option<int>, idx: nat)
    ensures Slot(index) == Some(idx) <==> idx <= 7 && index.Some? && (index.value - idx) % 4_294_967_296 == 0
  {
    if index.Some? && idx <= 7 && (index.value - idx) % 4_294_967_296 == 0 {
      var q := (index.value - idx) / 4_294_967_296;
      assert index.value == 4_294_967_296 * q + idx;
    }
  }

  /** A radio entry with a blank name or an unusable key is passed over. */
  lemma InvalidEntryIgnored(r: Radio, manual: set<string>, es: seq<RadioEntry>, e: RadioEntry)
    requires Trim(e.name) == "" || ParsePsk(e.raw).None?
    ensures RadioFold(r, manual, es + [e]) == RadioFold(r, manual, es)
  {
    assert (es + [e])[..|es|] == es;
  }

  /** The decrypt-only keys are those of the lines without a name. */
  lemma {:induction false} BareKeysListed(m: Manual, lines: seq<Line>, k: Key)
    ensures k in ManualFold(m, lines).decryptOnly <==>
      k in m.decryptOnly || exists i :: 0 <= i < |lines| && lines[i].Bare? && ParsePsk(lines[i].raw) == Some(k)
    decreases |lines|
  {
    if lines != [] {
      var init, n := lines[..|lines| - 1], |lines| - 1;
      BareKeysListed(m, init, k);
      if i :| 0 <= i < n && init[i].Bare? && ParsePsk(init[i].raw) == Some(k) {
        assert lines[i] == init[i];
      }
      if i :| 0 <= i < n && lines[i].Bare? && ParsePsk(lines[i].raw) == Some(k) {
        assert lines[i] == init[i];
      }
    }
  }

  /**
   * The key a publish uses after any run: the explicit one; else that of the last manual line for the
   * channel, else the last radio sync's, where the public default yields to any other; else the default.
   */
  lemma PublishKeyOfRun(lines: seq<Line>, es: seq<Event>, channel: string, k: Key)
    ensures
      var s := Run(Connected(lines), es);
      var last := match LastUpdate(es) case None => [] case Some(entries) => entries;
      var radio := RadioKey(last, channel, RadioKey(last, channel, true).Some?);
      && PublishKey(s, channel, Some(k)) == k
      && PublishKey(s, channel, None) ==
        if ManualKey(lines, channel).Some? then ManualKey(lines, channel).value
        else if radio.Some? then radio.value
        else DEFAULT_PSK
  {
    PathIndependent(lines, es);
    ConnectedInv(lines);
    match LastUpdate(es)
    case None => ManualFoldLookup(Manual([], [], {}, []), lines, channel);
    case Some(last) => SyncPrecedence(Connected(lines), last, channel);
  }

  // ---------------------------------------------------------------- the class

  class ChannelKeyTable {
    var channelKeysByName: OMap<Key>
    var channelNameToIndex: OMap<nat>
    var radioChannelKeyNames: set<string>
    var manualChannelPskLines: seq<Line>
    var manualChannelKeyNames: set<string>
    var decryptOnlyPsks: seq<Key>
    var extraDecryptPsks: seq<Key>
    var allDecryptKeys: seq<Key>

    ghost function View(): State
      reads this
    {
      State(channelKeysByName, channelNameToIndex, radioChannelKeyNames, manualChannelPskLines, manualChannelKeyNames,
            decryptOnlyPsks, extraDecryptPsks, allDecryptKeys)
    }

    constructor ()
      ensures View() == INITIAL
    {
      channelKeysByName, channelNameToIndex, radioChannelKeyNames := [], [], {};
      manualChannelPskLines, manualChannelKeyNames := [], {};
      decryptOnlyPsks, extraDecryptPsks, allDecryptKeys := [], [], [DEFAULT_PSK];
    }

    /** The key part of `connect`: whatever was there before, the state is the fresh one. */
    method OnConnect(lines: seq<Line>)
      modifies this
      ensures View() == Connected(lines)
    {
      channelKeysByName := [];
      channelNameToIndex := [];
      radioChannelKeyNames := {};
      manualChannelPskLines := lines;
      manualChannelKeyNames := {};
      decryptOnlyPsks := [];
      extraDecryptPsks := [];
      ghost var start := View();
      ApplyManualChannelPskLines();
      RebuildAllDecryptKeys();
      assert ApplyManual(start) == ApplyManual(INITIAL.(lines := lines)).(all := start.all);
    }

    method UpdateChannelKeys(entries: seq<RadioEntry>)
      modifies this
      ensures View() == Updated(old(View()), entries)
    {
      ForgetRadioNames();
      ghost var cleared := Radio(channelKeysByName, channelNameToIndex, {}, []);
      var radioTopicIndices: OMap<nat> := [];
      for i := 0 to |entries|
        invariant unchanged(this`manualChannelPskLines) && unchanged(this`manualChannelKeyNames)
        invariant unchanged(this`decryptOnlyPsks) && unchanged(this`extraDecryptPsks) && unchanged(this`allDecryptKeys)
        invariant Radio(channelKeysByName, channelNameToIndex, radioChannelKeyNames, radioTopicIndices)
               == RadioFold(cleared, manualChannelKeyNames, entries[..i])
      {
        assert entries[..i + 1][..i] == entries[..i];
        var entry := entries[i];
        var name, psk := Trim(entry.name), ParsePsk(entry.raw);
        if name == "" || psk.None? { continue; }
        if Slot(entry.index).Some? {
          radioTopicIndices := Put(radioTopicIndices, name, Slot(entry.index).value);
          channelNameToIndex := Put(channelNameToIndex, name, Slot(entry.index).value);
        }
        if name in manualChannelKeyNames { continue; }
        var existing := Get(channelKeysByName, name);
        if existing.Some? && IsDefaultPublic(psk.value) && !IsDefaultPublic(existing.value) { continue; }
        channelKeysByName := Put(channelKeysByName, name, psk.value);
        radioChannelKeyNames := radioChannelKeyNames + {name};
      }
      assert entries[..|entries|] == entries;
      ApplyManualChannelPskLines();
      ghost var merged := View();
      for i := 0 to |radioTopicIndices|
        invariant View() == merged.(indices := PutAll(merged.indices, radioTopicIndices[..i]))
      {
        assert radioTopicIndices[..i + 1][..i] == radioTopicIndices[..i];
        channelNameToIndex := Put(channelNameToIndex, radioTopicIndices[i].0, radioTopicIndices[i].1);
      }
      assert radioTopicIndices[..|radioTopicIndices|] == radioTopicIndices;
      RebuildAllDecryptKeys();
    }

    method ForgetRadioNames()
      modifies this`channelKeysByName, this`channelNameToIndex, this`radioChannelKeyNames
      ensures channelKeysByName == Drop(old(channelKeysByName), old(radioChannelKeyNames))
      ensures channelNameToIndex == Drop(old(channelNameToIndex), old(radioChannelKeyNames))
      ensures radioChannelKeyNames == {}
    {
      channelKeysByName, channelNameToIndex := DropNames(radioChannelKeyNames);
      radioChannelKeyNames := {};
    }

    /** The loop that deletes names from both maps, one by one. */
    method DropNames(names: set<string>) returns (keys: OMap<Key>, indices: OMap<nat>)
      ensures keys == Drop(channelKeysByName, names) && indices == Drop(channelNameToIndex, names)
    {
      keys, indices := channelKeysByName, channelNameToIndex;
      var unread := names;
      assert names - unread == {};
      DropNothing(keys);
      DropNothing(indices);
      while unread != {}
        invariant unread <= names
        invariant keys == Drop(channelKeysByName, names - unread) && indices == Drop(channelNameToIndex, names - unread)
        decreases |unread|
      {
        var name :| name in unread;
        DropDrop(channelKeysByName, names - unread, {name});
        DropDrop(channelNameToIndex, names - unread, {name});
        assert names - (unread - {name}) == names - unread + {name};
        keys, indices := Drop(keys, {name}), Drop(indices, {name});
        unread := unread - {name};
      }
      assert names - {} == names;
    }

    method ApplyManualChannelPskLines()
      modifies this`channelKeysByName, this`channelNameToIndex, this`manualChannelKeyNames, this`decryptOnlyPsks
      ensures View() == ApplyManual(old(View()))
    {
      channelKeysByName, channelNameToIndex := DropNames(manualChannelKeyNames);
      manualChannelKeyNames := {};
      decryptOnlyPsks := [];
      ghost var start := Manual(channelKeysByName, channelNameToIndex, {}, []);
      var lines := manualChannelPskLines;
      for i := 0 to |lines|
        invariant Manual(channelKeysByName, channelNameToIndex, manualChannelKeyNames, decryptOnlyPsks)
               == ManualFold(start, lines[..i])
      {
        assert lines[..i + 1][..i] == lines[..i];
        match lines[i]
        case Blank =>
        case Bare(raw) =>
          var psk := ParsePsk(raw);
          if psk.Some? { decryptOnlyPsks := decryptOnlyPsks + [psk.value]; }
        case Named(name, index, raw) =>
          var psk := ParsePsk(raw);
          if psk.None? { continue; }
          channelKeysByName := Put(channelKeysByName, name, psk.value);
          manualChannelKeyNames := manualChannelKeyNames + {name};
          if index.Some? {
            if Slot(index).Some? { channelNameToIndex := Put(channelNameToIndex, name, Slot(index).value); }
          } else if name == "LongFast" {
            channelNameToIndex := Put(channelNameToIndex, name, 0);
          }
      }
      assert lines[..|lines|] == lines;
    }

    method EnsureDecryptKey(psk: Key)
      modifies this
      ensures View() == Ensured(old(View()), psk)
      ensures extraDecryptPsks == old(extraDecryptPsks) + if psk in old(allDecryptKeys) then [] else [psk]
    {
      if psk in allDecryptKeys { return; }
      extraDecryptPsks := extraDecryptPsks + [psk];
      RebuildAllDecryptKeys();
    }

    method RebuildAllDecryptKeys()
      modifies this`allDecryptKeys
      ensures View() == Rebuilt(old(View()))
    {
      var candidates := [DEFAULT_PSK] + extraDecryptPsks + Values(channelKeysByName) + decryptOnlyPsks;
      var keys: seq<Key> := [];
      for i := 0 to |candidates|
        invariant keys == FirstOccurrences(candidates[..i])
      {
        assert candidates[..i + 1][..i] == candidates[..i];
        if candidates[i] !in keys { keys := keys + [candidates[i]]; }
      }
      assert candidates[..|candidates|] == candidates;
      allDecryptKeys := keys;
    }
  }
}
