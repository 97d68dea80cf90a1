/** Small datatypes and text helpers shared by the other modules. */
module Common {
  datatype Option<+T> = None | Some(value: T)

  function Min(a: int, b: int): int { if a <= b then a else b }

  function Max(a: int, b: int): int { if a >= b then a else b }

  /** The list without the first occurrence of `x`. */
  function RemoveOne<T(==)>(list: seq<T>, x: T): seq<T> {
    if list == [] then [] else if list[0] == x then list[1..] else [list[0]] + RemoveOne(list[1..], x)
  }

  lemma {:induction false} RemovesOne<T>(list: seq<T>, x: T)
    ensures multiset(RemoveOne(list, x)) == multiset(list) - multiset{x}
  {
    if list != [] {
      assert list == [list[0]] + list[1..];
      if list[0] != x { RemovesOne(list[1..], x); }
    }
  }
}

/** The JavaScript string operations the modelled code relies on. */
module Text {
  import opened Common

  /** WhiteSpace and LineTerminator of ECMA-262, the characters `trim` removes. */
  predicate IsSpace(c: char) {
    || c == ' '
    || '\U{0009}' <= c <= '\U{000D}'
    || '\U{2000}' <= c <= '\U{200A}'
    || c == '\U{00A0}' || c == '\U{1680}' || c == '\U{2028}' || c == '\U{2029}'
    || c == '\U{202F}' || c == '\U{205F}' || c == '\U{3000}' || c == '\U{FEFF}'
  }

  function TrimStart(s: string): string {
    if s != "" && IsSpace(s[0]) then TrimStart(s[1..]) else s
  }

  function TrimEnd(s: string): string {
    if s != "" && IsSpace(s[|s| - 1]) then TrimEnd(s[..|s| - 1]) else s
  }

  function Trim(s: string): string { TrimEnd(TrimStart(s)) }

  predicate StartsWith(s: string, p: string) { p <= s }

  predicate EndsWith(s: string, p: string) { |p| <= |s| && s[|s| - |p|..] == p }

  function IndexOf(s: string, c: char): (r: int)
    ensures -1 <= r < |s|
    ensures r >= 0 ==> s[r] == c && c !in s[..r]
    ensures r == -1 ==> c !in s
  {
    if s == "" then -1
    else if s[0] == c then 0
    else
      var r := IndexOf(s[1..], c);
      if r == -1 then -1 else r + 1
  }

  function Split(s: string, sep: char): (parts: seq<string>)
    ensures parts != []
    decreases |s|
  {
    var k := IndexOf(s, sep);
    if k == -1 then [s] else [s[..k]] + Split(s[k + 1..], sep)
  }

  /** `split` leaves no separator in a part, and `join` undoes it. */
  lemma {:induction false} SplitParts(s: string, sep: char)
    ensures forall part <- Split(s, sep) :: sep !in part
    ensures Join(Split(s, sep), sep) == s
    decreases |s|
  {
    var k := IndexOf(s, sep);
    if k != -1 {
      SplitParts(s[k + 1..], sep);
      assert s == s[..k] + [sep] + s[k + 1..];
    }
  }

  function Join(parts: seq<string>, sep: char): string
    requires parts != []
  {
    if |parts| == 1 then parts[0] else parts[0] + [sep] + Join(parts[1..], sep)
  }

  lemma SplitFront(part: string, rest: string, sep: char)
    requires sep !in part
    ensures Split(part + [sep] + rest, sep) == [part] + Split(rest, sep)
  {
    var s := part + [sep] + rest;
    assert s[..|part|] == part && s[|part|] == sep && s[|part| + 1..] == rest;
    IndexOfAt(s, sep, |part|);
  }

  /** Joined parts without separators split back to the same parts. */
  lemma {:induction false} SplitJoin(parts: seq<string>, sep: char)
    requires parts != [] && forall part <- parts :: sep !in part
    ensures Split(Join(parts, sep), sep) == parts
  {
    assert parts[0] in parts;
    if |parts| == 1 {
      assert parts == [parts[0]];
    } else {
      SplitJoin(parts[1..], sep);
      SplitFront(parts[0], Join(parts[1..], sep), sep);
      assert [parts[0]] + parts[1..] == parts;
    }
  }

  lemma {:induction false} IndexOfAt(s: string, c: char, k: nat)
    requires k < |s| && s[k] == c && c !in s[..k]
    ensures IndexOf(s, c) == k
  {
    if k > 0 {
      assert s[0] in s[..k];
      assert s[1..][..k - 1] == s[..k][1..];
      IndexOfAt(s[1..], c, k - 1);
    }
  }

  /**
   * `toLowerCase` as far as comparisons with ASCII text can see it: besides the ASCII letters only the
   * Kelvin sign has an ASCII lower-case form.
   */
  function LowerChar(c: char): char {
    if 'A' <= c <= 'Z' then c - 'A' + 'a' else if c == '\U{212A}' then 'k' else c
  }

  function Lower(s: string): string { seq(|s|, i requires 0 <= i < |s| => LowerChar(s[i])) }

  lemma {:induction false} TrimEndPadded(body: string, pad: string)
    requires forall c <- pad :: IsSpace(c)
    requires body != "" && !IsSpace(body[|body| - 1])
    ensures TrimEnd(body + pad) == body
    decreases |pad|
  {
    var s := body + pad;
    if pad == "" {
      assert s == body;
    } else {
      assert IsSpace(pad[|pad| - 1]) && s[|s| - 1] == pad[|pad| - 1];
      assert s[..|s| - 1] == body + pad[..|pad| - 1];
      TrimEndPadded(body, pad[..|pad| - 1]);
    }
  }

  lemma {:induction false} TrimStartPadded(pad: string, body: string)
    requires forall c <- pad :: IsSpace(c)
    requires body != "" ==> !IsSpace(body[0])
    ensures TrimStart(pad + body) == body
    decreases |pad|
  {
    if pad == "" {
      assert pad + body == body;
    } else {
      assert (pad + body)[1..] == pad[1..] + body;
      TrimStartPadded(pad[1..], body);
    }
  }

  /** Text that starts and ends with something other than white space. */
  predicate Solid(s: string) { s != "" && !IsSpace(s[0]) && !IsSpace(s[|s| - 1]) }

  /** Trimming removes exactly the white space around a text that starts and ends with other characters. */
  lemma TrimPadded(left: string, body: string, right: string)
    requires (forall c <- left :: IsSpace(c)) && Solid(body) && forall c <- right :: IsSpace(c)
    ensures Trim(left + body + right) == body
  {
    assert left + body + right == left + (body + right);
    TrimStartPadded(left, body + right);
    TrimEndPadded(body, right);
  }

  /** What `trimStart` removes is white space. */
  lemma {:induction false} LeadingSpace(s: string)
    ensures |TrimStart(s)| <= |s| && s[|s| - |TrimStart(s)|..] == TrimStart(s)
    ensures forall c <- s[..|s| - |TrimStart(s)|] :: IsSpace(c)
  {
    if s != "" && IsSpace(s[0]) {
      LeadingSpace(s[1..]);
      var n := |s| - |TrimStart(s)|;
      assert s[..n] == [s[0]] + s[1..][..n - 1];
    }
  }
}
