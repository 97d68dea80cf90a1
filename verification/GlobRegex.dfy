/**
 * The fragment of ECMAScript regular expressions that the glob compiler produces: its syntax
 * (section 22.2.1 of ECMA-262, with the pattern characters of Annex B.1.2) and its matching by
 * continuations (section 22.2.2), without flags.
 */
module Regex {
  import opened Common

  /** A character matcher: `.`, `[^/]` or one character. */
  datatype Single = Dot | NotSlash | Only(c: char)

  datatype Term = Start | End | One(m: Single) | Star(m: Single) | Group(alts: seq<Alternative>) | Optional(alts: seq<Alternative>)

  datatype Alternative = Alternative(terms: seq<Term>)

  const SYNTAX_CHARACTERS := "^$\\.*+?()[]{}|"

  predicate IsTerminator(c: char) { c in "\n\r\U{2028}\U{2029}" }

  predicate Accepts(m: Single, c: char) {
    match m
    case Dot => !IsTerminator(c)
    case NotSlash => c != '/'
    case Only(d) => c == d
  }

  // ---------------------------------------------------------------- parsing

  /** What was parsed and what is left of the source; anything outside the fragment does not parse. */
  type Parsed<T> = Option<(T, string)>

  function ParseDisjunction(src: string): (r: Parsed<seq<Alternative>>)
    ensures r.Some? ==> |r.value.1| <= |src|
    decreases |src|, 3
  {
    match ParseAlternative(src)
    case None => None
    case Some((ts, rest)) =>
      if rest != "" && rest[0] == '|' then
        match ParseDisjunction(rest[1..])
        case None => None
        case Some((alts, rest')) => Some(([Alternative(ts)] + alts, rest'))
      else Some(([Alternative(ts)], rest))
  }

  function ParseAlternative(src: string): (r: Parsed<seq<Term>>)
    ensures r.Some? ==> |r.value.1| <= |src|
    decreases |src|, 2
  {
    if src == "" || src[0] in "|)" then Some(([], src))
    else
      match ParseTerm(src)
      case None => None
      case Some((t, rest)) =>
        match ParseAlternative(rest)
        case None => None
        case Some((ts, rest')) => Some(([t] + ts, rest'))
  }

  function ParseTerm(src: string): (r: Parsed<Term>)
    requires src != ""
    ensures r.Some? ==> |r.value.1| < |src|
    decreases |src|, 1
  {
    if src[0] == '^' then Some((Start, src[1..]))
    else if src[0] == '$' then Some((End, src[1..]))
    else
      match ParseAtom(src)
      case None => None
      case Some((atom, rest)) => Quantified(atom, rest)
  }

  /** A quantifier after an atom; a second one would make it lazy or be an error. */
  function Quantified(atom: Term, rest: string): (r: Parsed<Term>)
    ensures r.Some? ==> |r.value.1| <= |rest|
  {
    if rest == "" || rest[0] !in "*+?{" then Some((atom, rest))
    else if |rest| > 1 && rest[1] in "*+?{" then None
    else if rest[0] == '*' && atom.One? then Some((Star(atom.m), rest[1..]))
    else if rest[0] == '?' && atom.Group? then Some((Optional(atom.alts), rest[1..]))
    else None
  }

  function ParseAtom(src: string): (r: Parsed<Term>)
    requires src != ""
    ensures r.Some? ==> |r.value.1| < |src|
    decreases |src|, 0
  {
    if src[0] == '.' then Some((One(Dot), src[1..]))
    else if src[0] == '\\' then
      if |src| > 1 && src[1] in SYNTAX_CHARACTERS then Some((One(Only(src[1])), src[2..])) else None
    else if src[0] == '(' then
      if "(?:" <= src then
        match ParseDisjunction(src[3..])
        case None => None
        case Some((alts, rest)) => if rest != "" && rest[0] == ')' then Some((Group(alts), rest[1..])) else None
      else None
    else if src[0] == '[' then
      if "[^/]" <= src then Some((One(NotSlash), src[4..])) else None
    else if src[0] in "^$*+?{|)" then None
    else Some((One(Only(src[0])), src[1..]))
  }

  function Parse(src: string): Option<seq<Alternative>> {
    match ParseDisjunction(src)
    case None => None
    case Some((alts, rest)) => if rest == "" then Some(alts) else None
  }

  // ---------------------------------------------------------------- matching

  function Size(ts: seq<Term>): nat
  {
    if ts == [] then 0 else TermSize(ts[0]) + Size(ts[1..])
  }

  function TermSize(t: Term): nat {
    match t
    case Group(alts) => 1 + AltsSize(alts)
    case Optional(alts) => 1 + AltsSize(alts)
    case _ => 1
  }

  function AltsSize(alts: seq<Alternative>): nat {
    if alts == [] then 0 else 1 + Size(alts[0].terms) + AltsSize(alts[1..])
  }

  lemma {:induction false} SizeConcat(ts: seq<Term>, us: seq<Term>)
    ensures Size(ts + us) == Size(ts) + Size(us)
  {
    if ts == [] {
      assert ts + us == us;
    } else {
      assert (ts + us)[1..] == ts[1..] + us;
      SizeConcat(ts[1..], us);
    }
  }

  lemma {:induction false} AltSize(alts: seq<Alternative>, k: nat)
    requires k < |alts|
    ensures Size(alts[k].terms) < AltsSize(alts)
  {
    if k > 0 { AltSize(alts[1..], k - 1); }
  }

  /** Some way through one of the alternatives and then `rest` leads to a match. */
  ghost predicate MatchAny(alts: seq<Alternative>, rest: seq<Term>, s: string, i: nat)
    requires i <= |s|
    decreases |s| - i, AltsSize(alts) + Size(rest), 1
  {
    exists k ::
      && 0 <= k < |alts|
      && (AltSize(alts, k); SizeConcat(alts[k].terms, rest); Matches(alts[k].terms + rest, s, i))
  }

  /** From position `i` the terms match, one after the other: the rest of the list is the continuation. */
  ghost predicate Matches(ts: seq<Term>, s: string, i: nat)
    requires i <= |s|
    decreases |s| - i, Size(ts), 0
  {
    if ts == [] then true
    else
      var rest := ts[1..];
      assert Size(ts) == TermSize(ts[0]) + Size(rest);
      match ts[0]
      case Start => i == 0 && Matches(rest, s, i)
      case End => i == |s| && Matches(rest, s, i)
      case One(m) => i < |s| && Accepts(m, s[i]) && Matches(rest, s, i + 1)
      case Star(m) => (i < |s| && Accepts(m, s[i]) && Matches(ts, s, i + 1)) || Matches(rest, s, i)
      case Group(alts) => MatchAny(alts, rest, s, i)
      case Optional(alts) => MatchAny(alts, rest, s, i) || Matches(rest, s, i)
  }

  /** `RegExp.prototype.test`: the pattern matches from some position. */
  ghost predicate Test(src: string, s: string) {
    Parse(src).Some? && exists i :: 0 <= i <= |s| && MatchAny(Parse(src).value, [], s, i)
  }

  /** Every character from `i` up to `k` is accepted. */
  ghost predicate Runs(m: Single, s: string, i: nat, k: nat)
    requires i <= k <= |s|
  {
    forall j :: i <= j < k ==> Accepts(m, s[j])
  }

  lemma {:induction false} StarSpan(m: Single, rest: seq<Term>, s: string, i: nat)
    requires i <= |s|
    ensures Matches([Star(m)] + rest, s, i) <==> exists k :: i <= k <= |s| && Runs(m, s, i, k) && Matches(rest, s, k)
    decreases |s| - i
  {
    var ts := [Star(m)] + rest;
    assert ts[1..] == rest && ts[0] == Star(m);
    assert Matches(ts, s, i) <==> (i < |s| && Accepts(m, s[i]) && Matches(ts, s, i + 1)) || Matches(rest, s, i);
    assert Runs(m, s, i, i);
    if i < |s| && Accepts(m, s[i]) {
      StarSpan(m, rest, s, i + 1);
      forall k | i + 1 <= k <= |s| ensures Runs(m, s, i + 1, k) <==> Runs(m, s, i, k) {
      }
      if Matches(ts, s, i + 1) {
        var k :| i + 1 <= k <= |s| && Runs(m, s, i + 1, k) && Matches(rest, s, k);
        assert Runs(m, s, i, k);
      }
    }
  }

  lemma SingleAlternative(terms: seq<Term>, rest: seq<Term>, s: string, i: nat)
    requires i <= |s|
    ensures MatchAny([Alternative(terms)], rest, s, i) <==> Matches(terms + rest, s, i)
  {
    var alts := [Alternative(terms)];
    assert alts[0].terms + rest == terms + rest;
  }

  function Chars(cs: string): seq<Term> { seq(|cs|, i requires 0 <= i < |cs| => One(Only(cs[i]))) }

  lemma {:induction false} CharsMatch(cs: string, rest: seq<Term>, s: string, i: nat)
    requires i <= |s|
    ensures Matches(Chars(cs) + rest, s, i) <==> cs <= s[i..] && Matches(rest, s, i + |cs|)
    decreases |cs|
  {
    if cs == "" {
      assert Chars(cs) + rest == rest;
    } else {
      var ts := Chars(cs) + rest;
      assert ts[1..] == Chars(cs[1..]) + rest;
      if i < |s| && s[i] == cs[0] {
        CharsMatch(cs[1..], rest, s, i + 1);
        assert s[i..] == [s[i]] + s[i + 1..];
        assert cs == [cs[0]] + cs[1..];
      }
    }
  }
}

/** The glob patterns of the source policy and their compilation to a regular expression. */
module Glob {
  import opened Common
  import opened Regex
  import opened Text

  datatype Token = AnyDirs | AnyText | AnyName | AnyChar | OneOf(alts: seq<string>) | Literal(c: char)

  // ---------------------------------------------------------------- the language of a pattern

  /** The token at the start of a pattern and how many characters it takes. */
  function FirstToken(p: string): (r: (Token, nat))
    requires p != ""
    ensures 1 <= r.1 <= |p|
  {
    if "**/" <= p then (AnyDirs, 3)
    else if "**" <= p then (AnyText, 2)
    else if p[0] == '*' then (AnyName, 1)
    else if p[0] == '?' then (AnyChar, 1)
    else if p[0] == '{' && IndexOf(p, '}') != -1 then
      var end := IndexOf(p, '}');
      (OneOf(Split(p[1..end], ',')), end + 1)
    else (Literal(p[0]), 1)
  }

  function Tokens(p: string): seq<Token>
    decreases |p|
  {
    if p == "" then [] else [FirstToken(p).0] + Tokens(p[FirstToken(p).1..])
  }

  /** The texts a token stands for; `dot` says which characters `**` may run over. */
  ghost predicate Stands(t: Token, text: string, dot: char -> bool) {
    match t
    case AnyDirs => text == "" || (text[|text| - 1] == '/' && forall c <- text :: dot(c))
    case AnyText => forall c <- text :: dot(c)
    case AnyName => '/' !in text
    case AnyChar => |text| == 1 && text[0] != '/'
    case OneOf(alts) => text in alts
    case Literal(c) => text == [c]
  }

  /** A path is in the language of the tokens if it splits into texts they stand for. */
  ghost predicate InLanguage(ts: seq<Token>, path: string, dot: char -> bool) {
    if ts == [] then path == ""
    else exists k :: 0 <= k <= |path| && Stands(ts[0], path[..k], dot) && InLanguage(ts[1..], path[k..], dot)
  }

  predicate AnyCharacter(c: char) { true }

  predicate NoTerminator(c: char) { !IsTerminator(c) }

  // ---------------------------------------------------------------- compilation

  predicate NeedsEscape(c: char) { c in "\\.[]()+|^${" }

  /** The escape of brace alternatives: `/[.*+?^${}()|[\]\\]/g`, character by character. */
  function EscapeCharacter(c: char): string { if c in ".*+?^${}()|[]\\" then ['\\', c] else [c] }

  function EscapeAlternative(s: string): string {
    if s == "" then ""
    else EscapeCharacter(s[0]) + EscapeAlternative(s[1..])
  }

  function Join(parts: seq<string>): string
    requires parts != []
  {
    if |parts| == 1 then EscapeAlternative(parts[0]) else EscapeAlternative(parts[0]) + "|" + Join(parts[1..])
  }

  function Emit(t: Token): string {
    match t
    case AnyDirs => "(?:.*/)?"
    case AnyText => ".*"
    case AnyName => "[^/]*"
    case AnyChar => "[^/]"
    case OneOf(alts) => if alts == [] then "" else "(?:" + Join(alts) + ")"
    case Literal(c) => if NeedsEscape(c) then ['\\', c] else [c]
  }

  function EmitAll(ts: seq<Token>): string { if ts == [] then "" else Emit(ts[0]) + EmitAll(ts[1..]) }

  /** The term a token is meant to compile to. */
  function Node(t: Token): Term {
    match t
    case AnyDirs => Optional([Alternative([Star(Dot), One(Only('/'))])])
    case AnyText => Star(Dot)
    case AnyName => Star(NotSlash)
    case AnyChar => One(NotSlash)
    case OneOf(alts) => Group(AltNodes(alts))
    case Literal(c) => One(Only(c))
  }

  function AltNodes(alts: seq<string>): seq<Alternative> {
    if alts == [] then [] else [Alternative(Chars(alts[0]))] + AltNodes(alts[1..])
  }

  function Nodes(ts: seq<Token>): seq<Term> { if ts == [] then [] else [Node(ts[0])] + Nodes(ts[1..]) }

  predicate WellFormed(t: Token) {
    match t
    case OneOf(alts) => alts != []
    case Literal(c) => c !in "*?"
    case _ => true
  }

  lemma {:induction false} TokensWellFormed(p: string)
    ensures forall t <- Tokens(p) :: WellFormed(t)
    decreases |p|
  {
    if p != "" { TokensWellFormed(p[FirstToken(p).1..]); }
  }

  // ---------------------------------------------------------------- the source parses back

  predicate EndsAtom(src: string) { src == "" || src[0] !in "*+?{" }

  predicate EndsAlternative(src: string) { src != "" && src[0] in "|)" }

  lemma CharacterParses(c: char, rest: string)
    requires EndsAtom(rest)
    ensures LeadsWith(EscapeCharacter(c) + rest, One(Only(c)), rest)
  {
    var src := EscapeCharacter(c) + rest;
    if c in ".*+?^${}()|[]\\" {
      assert src == ['\\', c] + rest && src[2..] == rest;
    } else {
      assert src == [c] + rest && src[1..] == rest;
    }
    assert ParseAtom(src) == Some((One(Only(c)), rest));
  }

  /** Escaped text parses to its characters, up to the end of the alternative. */
  lemma {:induction false} TextParses(s: string, rest: string)
    requires EndsAlternative(rest)
    ensures EndsAtom(EscapeAlternative(s) + rest)
    ensures ParseAlternative(EscapeAlternative(s) + rest) == Some((Chars(s), rest))
    decreases |s|
  {
    if s == "" {
      assert EscapeAlternative(s) + rest == rest;
      assert Chars(s) == [];
    } else {
      TextParses(s[1..], rest);
      var tail := EscapeAlternative(s[1..]) + rest;
      CharacterParses(s[0], tail);
      assert EscapeAlternative(s) + rest == EscapeCharacter(s[0]) + tail;
      ParseCons(EscapeCharacter(s[0]) + tail, One(Only(s[0])), tail, Chars(s[1..]), rest);
      assert [One(Only(s[0]))] + Chars(s[1..]) == Chars(s);
    }
  }

  lemma ParseLastAlternative(src: string, ts: seq<Term>, rest: string)
    requires ParseAlternative(src) == Some((ts, rest)) && rest != "" && rest[0] == ')'
    ensures ParseDisjunction(src) == Some(([Alternative(ts)], rest))
  {
  }

  lemma ParseNextAlternative(src: string, ts: seq<Term>, more: string, alts: seq<Alternative>, rest: string)
    requires ParseAlternative(src) == Some((ts, "|" + more)) && ParseDisjunction(more) == Some((alts, rest))
    ensures ParseDisjunction(src) == Some(([Alternative(ts)] + alts, rest))
  {
    assert ("|" + more)[1..] == more;
  }

  /** The alternatives of a brace set parse to themselves, up to the closing parenthesis. */
  lemma {:induction false} AlternativesParse(alts: seq<string>, rest: string)
    requires alts != [] && rest != "" && rest[0] == ')'
    ensures ParseDisjunction(Join(alts) + rest) == Some((AltNodes(alts), rest))
    decreases |alts|
  {
    var src, head := Join(alts) + rest, Alternative(Chars(alts[0]));
    if |alts| == 1 {
      assert src == EscapeAlternative(alts[0]) + rest;
      TextParses(alts[0], rest);
      ParseLastAlternative(src, Chars(alts[0]), rest);
      assert alts[1..] == [] && AltNodes(alts[1..]) == [];
      assert [head] + [] == [head];
      assert AltNodes(alts) == [head];
    } else {
      var more := Join(alts[1..]) + rest;
      TextParses(alts[0], "|" + more);
      assert src == EscapeAlternative(alts[0]) + ("|" + more);
      AlternativesParse(alts[1..], rest);
      ParseNextAlternative(src, Chars(alts[0]), more, AltNodes(alts[1..]), rest);
    }
  }

  lemma ParseCons(src: string, t: Term, rest: string, ts: seq<Term>, rest': string)
    requires src != "" && !EndsAlternative(src)
    requires ParseTerm(src) == Some((t, rest)) && ParseAlternative(rest) == Some((ts, rest'))
    ensures ParseAlternative(src) == Some(([t] + ts, rest'))
  {
  }

  /** The source starts with a term that parses to `t`, before `rest`. */
  predicate LeadsWith(src: string, t: Term, rest: string) {
    src != "" && !EndsAlternative(src) && EndsAtom(src) && ParseTerm(src) == Some((t, rest))
  }

  /** A text in front of two others: grouping, and what dropping it leaves. */
  lemma Front(a: string, b: string, rest: string)
    ensures (a + b) + rest == a + (b + rest)
    ensures ((a + b) + rest)[|a|..] == b + rest && a <= (a + b) + rest
  {
  }

  lemma NameParses(rest: string)
    requires EndsAtom(rest)
    ensures LeadsWith("[^/]" + rest, One(NotSlash), rest)
    ensures LeadsWith("[^/]*" + rest, Star(NotSlash), rest)
  {
    var one, many := "[^/]" + rest, "[^/]*" + rest;
    assert "[^/]*" == "[^/]" + "*";
    Front("[^/]", "*", rest);
    assert one[4..] == rest && many[4..] == "*" + rest && ("*" + rest)[1..] == rest;
    assert "[^/]" <= one && "[^/]" <= many;
    assert ParseAtom(one) == Some((One(NotSlash), rest));
    assert ParseAtom(many) == Some((One(NotSlash), "*" + rest));
  }

  lemma TextTokenParses(rest: string)
    requires EndsAtom(rest)
    ensures LeadsWith(".*" + rest, Star(Dot), rest)
  {
    var src := ".*" + rest;
    assert ".*" == "." + "*";
    Front(".", "*", rest);
    assert src[1..] == "*" + rest && ("*" + rest)[1..] == rest;
    assert ParseAtom(src) == Some((One(Dot), "*" + rest));
  }

  lemma OneOfParses(alts: seq<string>, rest: string)
    requires alts != [] && EndsAtom(rest)
    ensures LeadsWith(Emit(OneOf(alts)) + rest, Node(OneOf(alts)), rest)
  {
    var src := Emit(OneOf(alts)) + rest;
    var inner := Join(alts) + (")" + rest);
    assert src == "(?:" + inner && src[3..] == inner && "(?:" <= src;
    AlternativesParse(alts, ")" + rest);
    assert (")" + rest)[1..] == rest;
    assert ParseAtom(src) == Some((Node(OneOf(alts)), rest));
  }

  lemma LiteralParses(c: char, rest: string)
    requires c !in "*?" && EndsAtom(rest)
    ensures LeadsWith(Emit(Literal(c)) + rest, One(Only(c)), rest)
  {
    var src := Emit(Literal(c)) + rest;
    if NeedsEscape(c) {
      assert src == ['\\', c] + rest && src[2..] == rest;
    } else {
      assert src == [c] + rest && src[1..] == rest;
    }
    assert ParseAtom(src) == Some((One(Only(c)), rest));
  }

  lemma DirsInner(after: string)
    ensures ParseDisjunction(".*/)" + after) == Some(([Alternative([Star(Dot), One(Only('/'))])], ")" + after))
  {
    var inner, slash, close := ".*/)" + after, "/)" + after, ")" + after;
    assert "/)" == "/" + ")" && ".*/)" == ".*" + "/)";
    Front("/", ")", after);
    Front(".*", "/)", after);
    assert slash[1..] == close && inner == ".*" + slash;
    TextTokenParses(slash);
    assert ParseAtom(slash) == Some((One(Only('/')), close));
    assert ParseAlternative(close) == Some(([], close));
    ParseCons(slash, One(Only('/')), close, [], close);
    assert [One(Only('/'))] + [] == [One(Only('/'))];
    ParseCons(inner, Star(Dot), slash, [One(Only('/'))], close);
    assert [Star(Dot)] + [One(Only('/'))] == [Star(Dot), One(Only('/'))];
  }

  lemma DirsParse(rest: string)
    requires EndsAtom(rest)
    ensures LeadsWith("(?:.*/)?" + rest, Node(AnyDirs), rest)
  {
    var src, after := "(?:.*/)?" + rest, "?" + rest;
    assert "(?:.*/)?" == "(?:" + (".*/)" + "?");
    Front("(?:", ".*/)" + "?", rest);
    Front(".*/)", "?", rest);
    assert src[3..] == ".*/)" + after && "(?:" <= src && (")" + after)[1..] == after && after[1..] == rest;
    DirsInner(after);
    assert ParseAtom(src) == Some((Group([Alternative([Star(Dot), One(Only('/'))])]), after));
  }

  /** What a token emits parses to its node, whatever source follows. */
  lemma TokenParses(t: Token, rest: string)
    requires WellFormed(t) && EndsAtom(rest)
    ensures LeadsWith(Emit(t) + rest, Node(t), rest)
  {
    match t
    case AnyDirs => DirsParse(rest);
    case AnyText => TextTokenParses(rest);
    case AnyName => NameParses(rest);
    case AnyChar => NameParses(rest);
    case OneOf(alts) => OneOfParses(alts, rest);
    case Literal(c) => LiteralParses(c, rest);
  }

  lemma {:induction false} TokensParse(ts: seq<Token>)
    requires forall t <- ts :: WellFormed(t)
    ensures EndsAtom(EmitAll(ts) + "$")
    ensures ParseAlternative(EmitAll(ts) + "$") == Some((Nodes(ts) + [End], ""))
  {
    if ts == [] {
      assert EmitAll(ts) + "$" == "$" && "$"[1..] == "";
      assert ParseTerm("$") == Some((End, ""));
      ParseCons("$", End, "", [], "");
      assert Nodes(ts) + [End] == [End] + [];
    } else {
      TokensParse(ts[1..]);
      var rest := EmitAll(ts[1..]) + "$";
      TokenParses(ts[0], rest);
      assert EmitAll(ts) + "$" == Emit(ts[0]) + rest;
      ParseCons(Emit(ts[0]) + rest, Node(ts[0]), rest, Nodes(ts[1..]) + [End], "");
      assert [Node(ts[0])] + (Nodes(ts[1..]) + [End]) == Nodes(ts) + [End];
    }
  }

  /** The whole compiled source. */
  function Compiled(p: string): string { "^" + EmitAll(Tokens(p)) + "$" }

  lemma CompiledParses(p: string)
    ensures Parse(Compiled(p)) == Some([Alternative([Start] + Nodes(Tokens(p)) + [End])])
  {
    TokensWellFormed(p);
    TokensParse(Tokens(p));
    var rest := EmitAll(Tokens(p)) + "$";
    assert Compiled(p) == "^" + rest && Compiled(p)[1..] == rest;
    assert [Start] + (Nodes(Tokens(p)) + [End]) == [Start] + Nodes(Tokens(p)) + [End];
    ParseCons(Compiled(p), Start, rest, Nodes(Tokens(p)) + [End], "");
  }

  // ---------------------------------------------------------------- the terms match the language

  /** From `i`, the text up to some `k` belongs to the token and the continuation matches from `k`. */
  ghost predicate Splits(t: Token, rest: seq<Term>, s: string, i: nat)
    requires i <= |s|
  {
    exists k :: i <= k <= |s| && Stands(t, s[i..k], NoTerminator) && Matches(rest, s, k)
  }

  lemma NodeMatches(t: Token, rest: seq<Term>, s: string, i: nat)
    requires i <= |s|
    ensures Matches([Node(t)] + rest, s, i) <==> Splits(t, rest, s, i)
  {
    var ts := [Node(t)] + rest;
    assert ts[1..] == rest && ts[0] == Node(t);
    match t
    case AnyDirs => DirsMatch(rest, s, i);
    case AnyText => TextMatches(rest, s, i);
    case AnyName => NameMatches(rest, s, i);
    case AnyChar => SingleMatches(t, rest, s, i);
    case OneOf(alts) => OneOfMatches(alts, rest, s, i);
    case Literal(c) => SingleMatches(t, rest, s, i);
  }

  lemma TextMatches(rest: seq<Term>, s: string, i: nat)
    requires i <= |s|
    ensures Matches([Star(Dot)] + rest, s, i) <==> Splits(AnyText, rest, s, i)
  {
    StarSpan(Dot, rest, s, i);
    forall k | i <= k <= |s| ensures Runs(Dot, s, i, k) <==> Stands(AnyText, s[i..k], NoTerminator) {
      SpanChars(s, i, k);
    }
  }

  lemma NameMatches(rest: seq<Term>, s: string, i: nat)
    requires i <= |s|
    ensures Matches([Star(NotSlash)] + rest, s, i) <==> Splits(AnyName, rest, s, i)
  {
    StarSpan(NotSlash, rest, s, i);
    forall k | i <= k <= |s| ensures Runs(NotSlash, s, i, k) <==> Stands(AnyName, s[i..k], NoTerminator) {
      SpanChars(s, i, k);
    }
  }

  /** The characters of a span, by position and by membership. */
  lemma SpanChars(s: string, i: nat, k: nat)
    requires i <= k <= |s|
    ensures forall c <- s[i..k] :: exists j :: i <= j < k && s[j] == c
    ensures forall j :: i <= j < k ==> s[j] in s[i..k]
  {
    forall c <- s[i..k] ensures exists j :: i <= j < k && s[j] == c {
      var m :| 0 <= m < k - i && s[i..k][m] == c;
      assert s[i + m] == c;
    }
    forall j | i <= j < k ensures s[j] in s[i..k] {
      assert s[i..k][j - i] == s[j];
    }
  }

  lemma SingleMatches(t: Token, rest: seq<Term>, s: string, i: nat)
    requires i <= |s| && (t.AnyChar? || t.Literal?)
    ensures Matches([Node(t)] + rest, s, i) <==> Splits(t, rest, s, i)
  {
    var ts := [Node(t)] + rest;
    assert ts[1..] == rest && ts[0] == Node(t);
    if i < |s| { assert s[i..i + 1] == [s[i]]; }
    forall k | i <= k <= |s| && Stands(t, s[i..k], NoTerminator) ensures k == i + 1 {
      assert |s[i..k]| == 1;
    }
  }

  lemma SlashMatches(rest: seq<Term>, s: string, k: nat)
    requires k <= |s|
    ensures Matches([One(Only('/'))] + rest, s, k) <==> k < |s| && s[k] == '/' && Matches(rest, s, k + 1)
  {
    assert ([One(Only('/'))] + rest)[1..] == rest;
  }

  lemma DirsText(s: string, i: nat, k: nat)
    requires i <= k < |s|
    ensures Runs(Dot, s, i, k) && s[k] == '/' <==> Stands(AnyDirs, s[i..k + 1], NoTerminator)
  {
    SpanChars(s, i, k + 1);
    assert s[i..k + 1][k - i] == s[k];
  }

  lemma DirsMatch(rest: seq<Term>, s: string, i: nat)
    requires i <= |s|
    ensures Matches([Node(AnyDirs)] + rest, s, i) <==> Splits(AnyDirs, rest, s, i)
  {
    var tail := [One(Only('/'))] + rest;
    var terms := [Star(Dot), One(Only('/'))];
    var ts := [Optional([Alternative(terms)])] + rest;
    assert ts[1..] == rest && ts[0] == Node(AnyDirs);
    assert terms + rest == [Star(Dot)] + tail;
    SingleAlternative(terms, rest, s, i);
    StarSpan(Dot, tail, s, i);
    assert Stands(AnyDirs, s[i..i], NoTerminator);
    if Matches([Star(Dot)] + tail, s, i) {
      var k :| i <= k <= |s| && Runs(Dot, s, i, k) && Matches(tail, s, k);
      SlashMatches(rest, s, k);
      DirsText(s, i, k);
      assert Splits(AnyDirs, rest, s, i);
    }
    if Splits(AnyDirs, rest, s, i) {
      var k :| i <= k <= |s| && Stands(AnyDirs, s[i..k], NoTerminator) && Matches(rest, s, k);
      if k > i {
        DirsText(s, i, k - 1);
        SlashMatches(rest, s, k - 1);
        assert Matches([Star(Dot)] + tail, s, i);
      }
    }
  }

  lemma {:induction false} AltNodesLength(alts: seq<string>)
    ensures |AltNodes(alts)| == |alts|
  {
    if alts != [] { AltNodesLength(alts[1..]); }
  }

  lemma {:induction false} AltNodesAt(alts: seq<string>, a: nat)
    requires a < |alts|
    ensures a < |AltNodes(alts)| && AltNodes(alts)[a] == Alternative(Chars(alts[a]))
  {
    if a > 0 { AltNodesAt(alts[1..], a - 1); }
  }

  lemma OneOfOnly(alts: seq<string>, rest: seq<Term>, s: string, i: nat)
    requires i <= |s| && MatchAny(AltNodes(alts), rest, s, i)
    ensures Splits(OneOf(alts), rest, s, i)
  {
    var nodes := AltNodes(alts);
    AltNodesLength(alts);
    var a :| 0 <= a < |nodes| && Matches(nodes[a].terms + rest, s, i);
    AltNodesAt(alts, a);
    CharsMatch(alts[a], rest, s, i);
    assert s[i..i + |alts[a]|] == alts[a];
    assert Stands(OneOf(alts), s[i..i + |alts[a]|], NoTerminator);
  }

  lemma OneOfAll(alts: seq<string>, rest: seq<Term>, s: string, i: nat)
    requires i <= |s| && Splits(OneOf(alts), rest, s, i)
    ensures MatchAny(AltNodes(alts), rest, s, i)
  {
    var nodes := AltNodes(alts);
    AltNodesLength(alts);
    var k :| i <= k <= |s| && Stands(OneOf(alts), s[i..k], NoTerminator) && Matches(rest, s, k);
    var a :| 0 <= a < |alts| && alts[a] == s[i..k];
    assert s[i..k] <= s[i..];
    AltNodesAt(alts, a);
    CharsMatch(alts[a], rest, s, i);
    assert Matches(nodes[a].terms + rest, s, i);
  }

  lemma OneOfMatches(alts: seq<string>, rest: seq<Term>, s: string, i: nat)
    requires i <= |s|
    ensures Matches([Node(OneOf(alts))] + rest, s, i) <==> Splits(OneOf(alts), rest, s, i)
  {
    var ts := [Node(OneOf(alts))] + rest;
    assert ts[1..] == rest && ts[0] == Group(AltNodes(alts));
    assert Matches(ts, s, i) <==> MatchAny(AltNodes(alts), rest, s, i);
    if MatchAny(AltNodes(alts), rest, s, i) { OneOfOnly(alts, rest, s, i); }
    if Splits(OneOf(alts), rest, s, i) { OneOfAll(alts, rest, s, i); }
  }

  /** The text from `i` to `k` belongs to the token, the rest of `s` from `k` to the others. */
  ghost predicate Cut(t: Token, ts: seq<Token>, s: string, i: nat, k: nat)
    requires i <= k <= |s|
  {
    Stands(t, s[i..k], NoTerminator) && InLanguage(ts, s[k..], NoTerminator)
  }

  lemma LanguageCons(t: Token, ts: seq<Token>, path: string)
    ensures InLanguage([t] + ts, path, NoTerminator) <==> HasCut(t, ts, path, 0)
  {
    assert ([t] + ts)[1..] == ts;
    forall m: nat | m <= |path| ensures path[0..m] == path[..m] {
    }
    if InLanguage([t] + ts, path, NoTerminator) {
      var m :| 0 <= m <= |path| && Stands(t, path[..m], NoTerminator) && InLanguage(ts, path[m..], NoTerminator);
      assert Cut(t, ts, path, 0, m);
    }
  }

  lemma CutShift(t: Token, ts: seq<Token>, s: string, i: nat, m: nat)
    requires i + m <= |s|
    ensures Cut(t, ts, s[i..], 0, m) <==> Cut(t, ts, s, i, i + m)
  {
    assert s[i..][0..m] == s[i..i + m] && s[i..][m..] == s[i + m..];
  }

  ghost predicate HasCut(t: Token, ts: seq<Token>, s: string, i: nat)
    requires i <= |s|
  {
    exists k: nat :: i <= k <= |s| && Cut(t, ts, s, i, k)
  }

  /** Cutting the rest of `s` from `i` is cutting `s` from `i`. */
  lemma HasCutShift(t: Token, ts: seq<Token>, s: string, i: nat)
    requires i <= |s|
    ensures HasCut(t, ts, s[i..], 0) <==> HasCut(t, ts, s, i)
  {
    if HasCut(t, ts, s[i..], 0) {
      var m: nat :| 0 <= m <= |s[i..]| && Cut(t, ts, s[i..], 0, m);
      CutShift(t, ts, s, i, m);
    }
    if HasCut(t, ts, s, i) {
      var k: nat :| i <= k <= |s| && Cut(t, ts, s, i, k);
      CutShift(t, ts, s, i, k - i);
    }
  }

  lemma {:induction false} NodesMatch(ts: seq<Token>, s: string, i: nat)
    requires i <= |s|
    ensures Matches(Nodes(ts) + [End], s, i) <==> InLanguage(ts, s[i..], NoTerminator)
    decreases |ts|
  {
    if ts == [] {
      assert Nodes(ts) + [End] == [End] && [End][1..] == [];
    } else {
      var rest := Nodes(ts[1..]) + [End];
      assert Nodes(ts) + [End] == [Node(ts[0])] + rest;
      assert ts == [ts[0]] + ts[1..];
      NodeMatches(ts[0], rest, s, i);
      LanguageCons(ts[0], ts[1..], s[i..]);
      HasCutShift(ts[0], ts[1..], s, i);
      forall k | i <= k <= |s| ensures Matches(rest, s, k) <==> InLanguage(ts[1..], s[k..], NoTerminator) {
        NodesMatch(ts[1..], s, k);
      }
      SplitsIsCut(ts[0], ts[1..], rest, s, i);
    }
  }

  lemma SplitsIsCut(t: Token, ts: seq<Token>, rest: seq<Term>, s: string, i: nat)
    requires i <= |s| && forall k :: i <= k <= |s| ==> (Matches(rest, s, k) <==> InLanguage(ts, s[k..], NoTerminator))
    ensures Splits(t, rest, s, i) <==> HasCut(t, ts, s, i)
  {
    if Splits(t, rest, s, i) {
      var k :| i <= k <= |s| && Stands(t, s[i..k], NoTerminator) && Matches(rest, s, k);
      assert Cut(t, ts, s, i, k);
    }
  }

  lemma StartMatches(rest: seq<Term>, s: string, i: nat)
    requires i <= |s|
    ensures Matches([Start] + rest, s, i) <==> i == 0 && Matches(rest, s, 0)
  {
    assert ([Start] + rest)[1..] == rest;
  }

  /**
   * Compilation preserves meaning for every pattern and every path: the compiled source parses, and
   * it accepts exactly the language of the tokens, `**` running over all but line terminators.
   */
  lemma CompiledMeaning(p: string, path: string)
    ensures Test(Compiled(p), path) <==> InLanguage(Tokens(p), path, NoTerminator)
  {
    CompiledParses(p);
    var rest := Nodes(Tokens(p)) + [End];
    var terms := [Start] + Nodes(Tokens(p)) + [End];
    var alts := [Alternative(terms)];
    assert terms + [] == [Start] + rest;
    NodesMatch(Tokens(p), path, 0);
    assert path[0..] == path;
    forall i | 0 <= i <= |path| ensures MatchAny(alts, [], path, i) <==> i == 0 && Matches(rest, path, 0) {
      SingleAlternative(terms, [], path, i);
      StartMatches(rest, path, i);
    }
    assert Test(Compiled(p), path) <==> exists i :: 0 <= i <= |path| && MatchAny(alts, [], path, i);
    assert MatchAny(alts, [], path, 0) <==> Matches(rest, path, 0);
  }

  /** Without line terminators in the path, `**` runs over anything. */
  lemma {:induction false} TerminatorFree(ts: seq<Token>, path: string)
    requires forall c <- path :: NoTerminator(c)
    ensures InLanguage(ts, path, NoTerminator) <==> InLanguage(ts, path, AnyCharacter)
    decreases |ts|
  {
    if ts != [] {
      forall k | 0 <= k <= |path|
        ensures Stands(ts[0], path[..k], NoTerminator) <==> Stands(ts[0], path[..k], AnyCharacter)
        ensures InLanguage(ts[1..], path[k..], NoTerminator) <==> InLanguage(ts[1..], path[k..], AnyCharacter)
      {
        TerminatorFree(ts[1..], path[k..]);
      }
    }
  }

  // ---------------------------------------------------------------- the compiler

  function Forward(s: string): string { seq(|s|, i requires 0 <= i < |s| => if s[i] == '\\' then '/' else s[i]) }

  /** What compiling the pattern from index `i` emits. */
  function EmitFrom(pattern: string, i: nat): string
    requires i <= |pattern|
  {
    EmitAll(Tokens(pattern[i..]))
  }

  lemma EmitCons(t: Token, ts: seq<Token>)
    ensures EmitAll([t] + ts) == Emit(t) + EmitAll(ts)
  {
    assert ([t] + ts)[1..] == ts;
  }

  lemma EmitNext(pattern: string, i: nat, piece: string, taken: nat)
    requires i < |pattern| && piece == Emit(FirstToken(pattern[i..]).0) && taken == FirstToken(pattern[i..]).1
    ensures taken > 0 && i + taken <= |pattern| && EmitFrom(pattern, i) == piece + EmitFrom(pattern, i + taken)
  {
    var rest := pattern[i..];
    assert rest[taken..] == pattern[i + taken..];
    EmitCons(FirstToken(rest).0, Tokens(rest[taken..]));
  }

  /** What the loop has emitted is the compiled source up to what the rest of the pattern will emit. */
  predicate Emitted(pattern: string, i: nat, out: string) {
    i <= |pattern| && out + EmitFrom(pattern, i) == "^" + EmitFrom(pattern, 0)
  }

  lemma Regroup(out: string, piece: string, rest: string, next: string, whole: string)
    requires out + rest == whole && rest == piece + next
    ensures (out + piece) + next == whole
  {
  }

  lemma EmittedStep(pattern: string, i: nat, out: string, piece: string, taken: nat)
    requires i + taken <= |pattern| && Emitted(pattern, i, out)
    requires EmitFrom(pattern, i) == piece + EmitFrom(pattern, i + taken)
    ensures Emitted(pattern, i + taken, out + piece)
  {
    Regroup(out, piece, EmitFrom(pattern, i), EmitFrom(pattern, i + taken), "^" + EmitFrom(pattern, 0));
  }

  lemma EmittedEnd(pattern: string, out: string)
    requires Emitted(pattern, |pattern|, out)
    ensures out + "$" == Compiled(pattern)
  {
    assert pattern[|pattern|..] == "" && pattern[0..] == pattern;
    assert out + "" == out;
  }

  method GlobToRegExp(pattern: string) returns (out: string)
    ensures out == Compiled(pattern)
  {
    var i := 0;
    out := "^";
    while i < |pattern|
      invariant Emitted(pattern, i, out)
      decreases |pattern| - i
    {
      out, i := CompileStep(pattern, i, out);
    }
    EmittedEnd(pattern, out);
    out := out + "$";
  }

  /** One turn of the compile loop. */
  method CompileStep(pattern: string, i: nat, out: string) returns (out': string, i': nat)
    requires i < |pattern| && Emitted(pattern, i, out)
    ensures i < i' && Emitted(pattern, i', out')
  {
    var piece, taken := CompileToken(pattern, i);
    EmittedStep(pattern, i, out, piece, taken);
    return out + piece, i + taken;
  }

  /** What is appended for the token at index `i`, and how many characters it takes. */
  method CompileToken(pattern: string, i: nat) returns (piece: string, taken: nat)
    requires i < |pattern|
    ensures taken > 0 && i + taken <= |pattern| && EmitFrom(pattern, i) == piece + EmitFrom(pattern, i + taken)
  {
    piece, taken := CompileNext(pattern, i);
    EmitNext(pattern, i, piece, taken);
  }

  /** The body of the compile loop: what it appends at index `i`, and by how much the index advances. */
  method CompileNext(pattern: string, i: nat) returns (piece: string, taken: nat)
    requires i < |pattern|
    ensures piece == Emit(FirstToken(pattern[i..]).0) && taken == FirstToken(pattern[i..]).1
  {
    ghost var rest := pattern[i..];
    var ch := pattern[i];
    if ch == '*' && i + 1 < |pattern| && pattern[i + 1] == '*' {
      assert rest[..2] == "**";
      if i + 2 < |pattern| && pattern[i + 2] == '/' {
        assert rest[..3] == "**/";
        return "(?:.*/)?", 3;
      }
      return ".*", 2;
    }
    if ch == '*' { return "[^/]*", 1; }
    if ch == '?' { return "[^/]", 1; }
    if ch == '{' {
      var end := IndexOf(pattern[i..], '}');
      if end == -1 { return "\\{", 1; }
      var inner := pattern[i + 1..i + end];
      assert inner == rest[1..end];
      return "(?:" + Join(Split(inner, ',')) + ")", end + 1;
    }
    if ch in "\\.[]()+|^$" { return ['\\', ch], 1; }
    return [ch], 1;
  }

  /** `matchSimpleGlob` decides membership of the forward-slash path in the pattern's language. */
  lemma MatchSimpleGlobMeaning(relPath: string, pattern: string)
    requires forall c <- relPath :: NoTerminator(c)
    ensures Test(Compiled(Forward(pattern)), Forward(relPath))
       <==> InLanguage(Tokens(Forward(pattern)), Forward(relPath), AnyCharacter)
  {
    CompiledMeaning(Forward(pattern), Forward(relPath));
    forall c <- Forward(relPath) ensures NoTerminator(c) {
      var i :| 0 <= i < |relPath| && Forward(relPath)[i] == c;
      assert relPath[i] in relPath;
    }
    TerminatorFree(Tokens(Forward(pattern)), Forward(relPath));
  }

  // ---------------------------------------------------------------- what each piece of a pattern accepts

  /** A piece of text in front of a pattern that is read as one token matches before the rest. */
  lemma PieceFront(x: string, t: Token, p: string, path: string)
    requires x != "" && FirstToken(x + p) == (t, |x|)
    ensures Test(Compiled(x + p), path)
       <==> exists k :: 0 <= k <= |path| && Stands(t, path[..k], NoTerminator) && Test(Compiled(p), path[k..])
  {
    assert (x + p)[|x|..] == p;
    CompiledMeaning(x + p, path);
    forall k | 0 <= k <= |path|
      ensures Test(Compiled(p), path[k..]) <==> InLanguage(Tokens(p), path[k..], NoTerminator)
    {
      CompiledMeaning(p, path[k..]);
    }
    assert ([t] + Tokens(p))[1..] == Tokens(p);
  }

  /** The empty pattern accepts the empty path alone. */
  lemma NothingMatches(path: string)
    ensures Test(Compiled(""), path) <==> path == ""
  {
    CompiledMeaning("", path);
  }

  /** `path[..k]` is free of line terminators. */
  predicate OneLine(path: string, k: nat)
    requires k <= |path|
  {
    forall c <- path[..k] :: !IsTerminator(c)
  }

  /** `**` and a slash stand for any number of directories, none included. */
  lemma DirsFront(p: string, path: string)
    ensures Test(Compiled("**/" + p), path)
       <==> || Test(Compiled(p), path)
            || exists k :: 0 < k <= |path| && path[k - 1] == '/' && OneLine(path, k) && Test(Compiled(p), path[k..])
  {
    assert "**/" <= "**/" + p;
    PieceFront("**/", AnyDirs, p, path);
    assert path[0..] == path && path[..0] == "";
    forall k | 0 < k <= |path|
      ensures Stands(AnyDirs, path[..k], NoTerminator) <==> path[k - 1] == '/' && OneLine(path, k)
    {
      assert path[..k][k - 1] == path[k - 1];
    }
  }

  /** Otherwise `**` stands for any text within a line. */
  lemma TextFront(p: string, path: string)
    requires p == "" || p[0] != '/'
    ensures Test(Compiled("**" + p), path)
       <==> exists k :: 0 <= k <= |path| && OneLine(path, k) && Test(Compiled(p), path[k..])
  {
    var q := "**" + p;
    assert "**" <= q;
    assert p != "" ==> q[2] == p[0];
    assert !("**/" <= q);
    PieceFront("**", AnyText, p, path);
  }

  /** A lone `*` stands for any text without a slash. */
  lemma NameFront(p: string, path: string)
    requires p == "" || p[0] != '*'
    ensures Test(Compiled("*" + p), path)
       <==> exists k :: 0 <= k <= |path| && '/' !in path[..k] && Test(Compiled(p), path[k..])
  {
    var q := "*" + p;
    assert p != "" ==> q[1] == p[0];
    assert !("**" <= q) && !("**/" <= q);
    PieceFront("*", AnyName, p, path);
  }

  /** `?` stands for one character, any but a slash. */
  lemma CharFront(p: string, path: string)
    ensures Test(Compiled("?" + p), path) <==> path != "" && path[0] != '/' && Test(Compiled(p), path[1..])
  {
    assert ("?" + p)[0] == '?';
    PieceFront("?", AnyChar, p, path);
    if path != "" { assert path[..1] == [path[0]]; }
  }

  /** A brace set stands for one of the texts between its commas. */
  lemma BracesFront(inner: string, p: string, path: string)
    requires '}' !in inner
    ensures Test(Compiled("{" + inner + "}" + p), path)
       <==> exists a <- Split(inner, ',') :: a <= path && Test(Compiled(p), path[|a|..])
  {
    var x, alts := "{" + inner + "}", Split(inner, ',');
    var q := x + p;
    assert q[..|x| - 1] == "{" + inner && q[|x| - 1] == '}';
    IndexOfAt(q, '}', |x| - 1);
    assert q[1..|x| - 1] == inner;
    PieceFront(x, OneOf(alts), p, path);
    forall k | 0 <= k <= |path| && path[..k] in alts ensures |path[..k]| == k && path[..k] <= path {
    }
    forall a | a in alts && a <= path ensures path[..|a|] == a {
    }
  }

  /** Any other character stands for itself, and so does a brace that is never closed. */
  lemma LiteralFront(c: char, p: string, path: string)
    requires c !in "*?" && (c == '{' ==> '}' !in p)
    ensures Test(Compiled([c] + p), path) <==> path != "" && path[0] == c && Test(Compiled(p), path[1..])
  {
    var q := [c] + p;
    assert q[0] == c && (c == '{' ==> '}' !in q);
    PieceFront([c], Literal(c), p, path);
    if path != "" { assert path[..1] == [path[0]]; }
  }

  /** Both separators count as one: texts look alike forward exactly if they differ only between `\` and `/`. */
  lemma ForwardAlike(s: string, t: string)
    ensures '\\' !in Forward(s)
    ensures Forward(s) == Forward(t)
       <==> |s| == |t| && forall i :: 0 <= i < |s| ==> s[i] == t[i] || (s[i] in "\\/" && t[i] in "\\/")
  {
    if Forward(s) == Forward(t) {
      assert |s| == |Forward(s)| == |Forward(t)| == |t|;
      forall i | 0 <= i < |s| ensures s[i] == t[i] || (s[i] in "\\/" && t[i] in "\\/") {
        assert Forward(s)[i] == Forward(t)[i];
      }
    }
  }

  /** Plain text in front of a pattern is a prefix of the paths it accepts. */
  lemma {:induction false} PlainFront(dir: string, p: string, path: string)
    requires forall i :: 0 <= i < |dir| ==> dir[i] !in "*?{"
    ensures Test(Compiled(dir + p), path) <==> dir <= path && Test(Compiled(p), path[|dir|..])
    decreases |dir|
  {
    if dir == "" {
      assert dir + p == p && path[0..] == path;
    } else {
      assert dir + p == [dir[0]] + (dir[1..] + p);
      LiteralFront(dir[0], dir[1..] + p, path);
      if path != "" && path[0] == dir[0] {
        PlainFront(dir[1..], p, path[1..]);
        PrefixTail(dir, path);
      }
    }
  }

  lemma PrefixTail(s: string, t: string)
    requires s != "" && t != "" && s[0] == t[0]
    ensures s[1..] <= t[1..] <==> s <= t
    ensures s <= t ==> t[1..][|s| - 1..] == t[|s|..]
  {
    assert s == [s[0]] + s[1..] && t == [t[0]] + t[1..];
  }

  /** A directory, `**` and a slash: the rest may match directly inside the directory or in any below it. */
  lemma DirectoryFront(dir: string, p: string, path: string)
    requires forall i :: 0 <= i < |dir| ==> dir[i] !in "*?{"
    ensures Test(Compiled(p), path) ==> Test(Compiled(dir + ("**/" + p)), dir + path)
    ensures Test(Compiled(dir + ("**/" + p)), path) ==> dir <= path
  {
    PlainFront(dir, "**/" + p, dir + path);
    PlainFront(dir, "**/" + p, path);
    assert (dir + path)[|dir|..] == path;
    DirsFront(p, path);
  }
}
