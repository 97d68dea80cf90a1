/** The rewriter that switches off decommissioned TCP hubs in a Reticulum configuration text. */
module ReticulumConfig {
  import opened Common
  import opened Text

  /** One `[[...]]` interface section: the lines it spans and the last value of each field of interest. */
  datatype Block = Block(
    name: string, startLine: nat, endLine: nat,
    ifaceType: Option<string>, enabled: Option<bool>, host: Option<string>, port: Option<int>)

  datatype Line = Skipped | Header(name: string) | Field(key: string, value: string) | Other

  // ---------------------------------------------------------------- reading one line

  /** `s.slice(n, -n)`. */
  function Inner(s: string, n: nat): string { if |s| >= 2 * n then s[n..|s| - n] else "" }

  predicate Quoted(v: string, quote: char) { v != "" && v[0] == quote && v[|v| - 1] == quote }

  function Unquote(v: string): string { if Quoted(v, '"') || Quoted(v, '\'') then Inner(v, 1) else v }

  function ParseField(line: string): Option<(string, string)> {
    var eq := IndexOf(line, '=');
    if eq <= 0 then None else Some((Lower(Trim(line[..eq])), Unquote(Trim(line[eq + 1..]))))
  }

  function ParseEnabled(raw: string): bool { Lower(Trim(raw)) in ["yes", "true", "1"] }

  predicate Comment(line: string) { line == "" || line[0] in "#;" }

  predicate IsHeader(line: string) { StartsWith(line, "[[") && EndsWith(line, "]]") }

  function FieldLine(line: string): Line {
    match ParseField(line)
    case None => Other
    case Some((key, value)) => Field(key, value)
  }

  function Classify(raw: string): Line {
    var line := Trim(raw);
    if Comment(line) then Skipped
    else if IsHeader(line) then Header(Trim(Inner(line, 2)))
    else FieldLine(line)
  }

  predicate IsDigit(c: char) { '0' <= c <= '9' }

  function Digits(s: string, acc: nat): nat {
    if s != "" && IsDigit(s[0]) then Digits(s[1..], acc * 10 + (s[0] as int - '0' as int)) else acc
  }

  /** `Number.parseInt(s, 10)`, `None` for `NaN`. */
  function ParseInt(s: string): Option<int> {
    var t := TrimStart(s);
    var signed := t != "" && t[0] in "+-";
    var body := if signed then t[1..] else t;
    if body == "" || !IsDigit(body[0]) then None
    else
      var n: int := Digits(body, 0);
      Some(if signed && t[0] == '-' then -n else n)
  }

  predicate EnabledKey(key: string) { key == "enabled" || key == "interface_enabled" }

  predicate EnabledLine(line: Line) { line.Field? && EnabledKey(line.key) }

  function Classified(lines: seq<string>): (r: seq<Line>)
    ensures |r| == |lines|
  {
    seq(|lines|, k requires 0 <= k < |lines| => Classify(lines[k]))
  }

  // ---------------------------------------------------------------- reading the blocks

  function Opened(name: string, i: nat): Block { Block(name, i, i, None, None, None, None) }

  function Assign(b: Block, key: string, value: string): Block {
    if key == "type" then b.(ifaceType := Some(value))
    else if key == "name" then (if Trim(value) != "" then b.(name := Trim(value)) else b)
    else if EnabledKey(key) then b.(enabled := Some(ParseEnabled(value)))
    else if key == "target_host" then b.(host := Some(value))
    else if key == "target_port" then b.(port := ParseInt(value))
    else b
  }

  /** The blocks closed so far and the block being read. */
  datatype Scan = Scan(blocks: seq<Block>, current: Option<Block>)

  function Flush(s: Scan): seq<Block> { if s.current.Some? then s.blocks + [s.current.value] else s.blocks }

  function ScanLine(s: Scan, line: Line, i: nat): Scan {
    match line
    case Skipped => s
    case Header(name) => Scan(Flush(s), Some(Opened(name, i)))
    case Field(key, value) =>
      if s.current.None? then s else s.(current := Some(Assign(s.current.value.(endLine := i), key, value)))
    case Other => if s.current.None? then s else s.(current := Some(s.current.value.(endLine := i)))
  }

  function ScanTo(lines: seq<Line>, n: nat): Scan
    requires n <= |lines|
  {
    if n == 0 then Scan([], None) else ScanLine(ScanTo(lines, n - 1), lines[n - 1], n - 1)
  }

  function Blocks(lines: seq<Line>): seq<Block> { Flush(ScanTo(lines, |lines|)) }

  const HUB_HOST := "amsterdam.connect.reticulum.network"
  const HUB_PORT := 4965

  function NormalizeHost(host: string): string {
    var t := Trim(host);
    if StartsWith(t, "[") && EndsWith(t, "]") then Lower(Trim(Inner(t, 1))) else Lower(t)
  }

  predicate IsDecommissioned(host: string, port: int) { port == HUB_PORT && NormalizeHost(host) == HUB_HOST }

  /** An enabled TCP client block that points at a decommissioned hub. */
  predicate Flagged(b: Block) {
    && b.ifaceType.Some? && Lower(b.ifaceType.value) in ["tcpclientinterface", "tcp"]
    && b.enabled == Some(true)
    && b.host.Some? && b.host.value != "" && b.port.Some?
    && IsDecommissioned(b.host.value, b.port.value)
  }

  // ---------------------------------------------------------------- what the rewrite should be

  /** The header line a line belongs to, -1 before the first header. */
  function Owner(lines: seq<Line>, k: int): (r: int)
    requires -1 <= k < |lines|
    ensures -1 <= r <= k
  {
    if k == -1 then -1 else if lines[k].Header? then k else Owner(lines, k - 1)
  }

  function FlaggedStarts(blocks: seq<Block>): set<int> { set b <- blocks | Flagged(b) :: b.startLine }

  /** Line `k` is an enabled field of one of the blocks that start at `starts`. */
  predicate Affected(lines: seq<Line>, starts: set<int>, k: nat)
    requires k < |lines|
  {
    EnabledLine(lines[k]) && Owner(lines, k) in starts
  }

  function Indent(raw: string): (r: string)
    ensures forall c <- r :: IsSpace(c)
    ensures r <= raw
  {
    LeadingSpace(raw);
    raw[..|raw| - |TrimStart(raw)|]
  }

  function Disabled(raw: string, key: string): string { Indent(raw) + (key + " = No") }

  function Rewrite(raws: seq<string>, starts: set<int>): (r: seq<string>)
    ensures |r| == |raws|
  {
    var lines := Classified(raws);
    seq(|raws|, k requires 0 <= k < |raws| => if Affected(lines, starts, k) then Disabled(raws[k], lines[k].key) else raws[k])
  }

  /** The same on lines already read. */
  function SwitchOff(lines: seq<Line>, starts: set<int>): (r: seq<Line>)
    ensures |r| == |lines|
  {
    seq(|lines|, k requires 0 <= k < |lines| => if Affected(lines, starts, k) then Field(lines[k].key, "No") else lines[k])
  }

  function DisableBlock(b: Block): Block { if Flagged(b) then b.(enabled := Some(false)) else b }

  function DisableAll(blocks: seq<Block>): (r: seq<Block>)
    ensures |r| == |blocks|
  {
    seq(|blocks|, k requires 0 <= k < |blocks| => DisableBlock(blocks[k]))
  }

  function FlaggedNames(blocks: seq<Block>): seq<string> {
    if blocks == [] then []
    else
      var n := |blocks| - 1;
      FlaggedNames(blocks[..n]) + (if Flagged(blocks[n]) then [blocks[n].name] else [])
  }

  function Lines(content: string): seq<string> { Split(content, '\n') }

  function BlocksOf(content: string): seq<Block> { Blocks(Classified(Lines(content))) }

  function NewLines(content: string): seq<string> { Rewrite(Lines(content), FlaggedStarts(BlocksOf(content))) }

  function Next(content: string): string { Join(NewLines(content), '\n') }

  function DisabledNames(content: string): seq<string> { FlaggedNames(BlocksOf(content)) }

  // ---------------------------------------------------------------- a rewritten line

  lemma AssignmentText(key: string)
    requires EnabledKey(key)
    ensures var text := key + " = No";
      && text[0] in "ei" && text[|text| - 1] == 'o'
      && '\n' !in text
  {
  }

  lemma DisabledTrims(raw: string, key: string)
    requires EnabledKey(key)
    ensures Trim(Disabled(raw, key)) == key + " = No"
  {
    AssignmentText(key);
    TrimPadded(Indent(raw), key + " = No", "");
    assert Indent(raw) + (key + " = No") + "" == Disabled(raw, key);
  }

  lemma DisabledOneLine(raw: string, key: string)
    requires EnabledKey(key) && '\n' !in raw
    ensures '\n' !in Disabled(raw, key)
  {
    AssignmentText(key);
  }

  lemma KeyTrims(key: string)
    requires EnabledKey(key)
    ensures Trim(key + " ") == key && Lower(key) == key
  {
    assert (key + " ")[..|key|] == key;
    assert TrimEnd(key) == key;
    assert TrimEnd(key + " ") == key;
    assert TrimStart(key + " ") == key + " ";
  }

  lemma NoParses(key: string)
    requires EnabledKey(key)
    ensures ParseField(key + " = No") == Some((key, "No"))
  {
    var line, k := key + " = No", |key| + 1;
    var left := key + " ";
    assert " = No" == " " + ("=" + " No");
    assert line == left + ("=" + " No");
    assert line[..k] == left && line[k] == '=' && line[k + 1..] == " No";
    assert '=' !in left;
    IndexOfAt(line, '=', k);
    TrimPadded(" ", "No", "");
    assert " " + "No" + "" == " No";
    KeyTrims(key);
  }

  /** A rewritten line is still an `enabled` field with the same key, and now says no. */
  lemma DisabledReads(raw: string, key: string)
    requires EnabledKey(key)
    ensures Classify(Disabled(raw, key)) == Field(key, "No")
  {
    DisabledTrims(raw, key);
    AssignmentText(key);
    NoParses(key);
  }

  lemma NoIsOff()
    ensures !ParseEnabled("No")
  {
    assert TrimStart("No") == "No" && TrimEnd("No") == "No";
    assert Lower("No")[0] == 'n';
  }

  lemma RewriteReads(raws: seq<string>, starts: set<int>)
    ensures Classified(Rewrite(raws, starts)) == SwitchOff(Classified(raws), starts)
  {
    var lines := Classified(raws);
    forall k | 0 <= k < |raws| ensures Classify(Rewrite(raws, starts)[k]) == SwitchOff(lines, starts)[k] {
      if Affected(lines, starts, k) { DisabledReads(raws[k], lines[k].key); }
    }
  }

  // ---------------------------------------------------------------- the blocks of a text

  /** Of the first `n` lines, those the block owns are exactly the ones from its header to its last line. */
  predicate Spans(lines: seq<Line>, b: Block, n: nat)
    requires n <= |lines|
  {
    && b.startLine <= b.endLine < n
    && forall k :: 0 <= k < n && !lines[k].Skipped? ==> (b.startLine <= k <= b.endLine <==> Owner(lines, k) == b.startLine)
  }

  predicate Ascending(blocks: seq<Block>) {
    forall i, j :: 0 <= i < j < |blocks| ==> blocks[i].startLine < blocks[j].startLine
  }

  predicate ScanInv(lines: seq<Line>, n: nat)
    requires n <= |lines|
  {
    var s := ScanTo(lines, n);
    && (forall b <- Flush(s) :: Spans(lines, b, n))
    && Ascending(Flush(s))
    && Owner(lines, n - 1) == (if s.current.Some? then s.current.value.startLine else -1)
    && (s.current.None? ==> s.blocks == [])
  }

  lemma {:induction false} ScanSpans(lines: seq<Line>, n: nat)
    requires n <= |lines|
    ensures ScanInv(lines, n)
  {
    if n > 0 {
      ScanSpans(lines, n - 1);
      if lines[n - 1].Header? { HeaderSpans(lines, n); } else { BodySpans(lines, n); }
    }
  }

  lemma HeaderSpans(lines: seq<Line>, n: nat)
    requires 0 < n <= |lines| && ScanInv(lines, n - 1) && lines[n - 1].Header?
    ensures ScanInv(lines, n)
  {
    var s, s' := ScanTo(lines, n - 1), ScanTo(lines, n);
    assert Flush(s') == Flush(s) + [s'.current.value];
    forall b | b in Flush(s) ensures Spans(lines, b, n) {
      assert Spans(lines, b, n - 1);
    }
    forall j | 0 <= j < |Flush(s)| ensures Flush(s)[j].startLine < n - 1 {
      assert Flush(s)[j] in Flush(s);
    }
  }

  lemma BodyAscends(blocks: seq<Block>, b: Block, b': Block)
    requires Ascending(blocks + [b]) && b'.startLine == b.startLine
    ensures Ascending(blocks + [b'])
  {
    forall i, j | 0 <= i < j < |blocks| + 1 ensures (blocks + [b'])[i].startLine < (blocks + [b'])[j].startLine {
      assert (blocks + [b])[i].startLine < (blocks + [b])[j].startLine;
    }
  }

  /** All lines from a header up to a line it owns are its own. */
  lemma {:induction false} OwnerBetween(lines: seq<Line>, k: nat, m: nat)
    requires k <= m < |lines| && Owner(lines, m) <= k
    ensures Owner(lines, k) == Owner(lines, m)
  {
    if k < m { OwnerBetween(lines, k, m - 1); }
  }

  /** Reading one more line that is no header keeps the span of the block being read. */
  lemma CurrentSpans(lines: seq<Line>, b: Block, b': Block, n: nat)
    requires 0 < n <= |lines| && !lines[n - 1].Header? && Spans(lines, b, n - 1) && Owner(lines, n - 1) == b.startLine
    requires b'.startLine == b.startLine && b'.endLine == if lines[n - 1].Skipped? then b.endLine else n - 1
    ensures Spans(lines, b', n)
  {
    forall k | b.startLine <= k < n ensures Owner(lines, k) == b.startLine { OwnerBetween(lines, k, n - 1); }
  }

  lemma ClosedSpans(lines: seq<Line>, blocks: seq<Block>, b: Block, c: Block, n: nat)
    requires 0 < n <= |lines| && Owner(lines, n - 1) == b.startLine
    requires Ascending(blocks + [b]) && c in blocks && Spans(lines, c, n - 1)
    ensures Spans(lines, c, n)
  {
    var j :| 0 <= j < |blocks| && blocks[j] == c;
    assert (blocks + [b])[j].startLine < (blocks + [b])[|blocks|].startLine;
  }

  lemma BodySpans(lines: seq<Line>, n: nat)
    requires 0 < n <= |lines| && ScanInv(lines, n - 1) && !lines[n - 1].Header?
    ensures ScanInv(lines, n)
  {
    var s, s' := ScanTo(lines, n - 1), ScanTo(lines, n);
    assert Owner(lines, n - 1) == Owner(lines, n - 2);
    if s.current.Some? {
      var b, b' := s.current.value, s'.current.value;
      assert Flush(s) == s.blocks + [b] && Flush(s') == s.blocks + [b'];
      assert b in Flush(s);
      CurrentSpans(lines, b, b', n);
      BodyAscends(s.blocks, b, b');
      forall c | c in s.blocks ensures Spans(lines, c, n) {
        assert c in Flush(s);
        ClosedSpans(lines, s.blocks, b, c, n);
      }
    }
  }

  // ---------------------------------------------------------------- what a block says

  /** The value of the last field with one of the keys, after line `from` and before line `n`. */
  function LastValue(lines: seq<Line>, from: nat, n: nat, keys: set<string>): Option<string>
    requires n <= |lines|
  {
    if n <= from + 1 then None
    else if lines[n - 1].Field? && lines[n - 1].key in keys then Some(lines[n - 1].value)
    else LastValue(lines, from, n - 1, keys)
  }

  /** The last name that is not blank, or else the one in the header. */
  function LastName(lines: seq<Line>, from: nat, n: nat): string
    requires from < n <= |lines| && lines[from].Header?
  {
    if n == from + 1 then lines[from].name
    else if lines[n - 1].Field? && lines[n - 1].key == "name" && Trim(lines[n - 1].value) != "" then Trim(lines[n - 1].value)
    else LastName(lines, from, n - 1)
  }

  function EnabledOf(value: Option<string>): Option<bool> { if value.Some? then Some(ParseEnabled(value.value)) else None }

  function PortOf(value: Option<string>): Option<int> { if value.Some? then ParseInt(value.value) else None }

  /** The block from header line `from` up to line `n`, by the last value of each field. */
  function BlockUpTo(lines: seq<Line>, from: nat, n: nat, end: nat): Block
    requires from < n <= |lines| && lines[from].Header?
  {
    Block(
      LastName(lines, from, n), from, end, LastValue(lines, from, n, {"type"}),
      EnabledOf(LastValue(lines, from, n, {"enabled", "interface_enabled"})),
      LastValue(lines, from, n, {"target_host"}), PortOf(LastValue(lines, from, n, {"target_port"})))
  }

  /** The block says what the last fields between its header and its last line say. */
  predicate SaysLast(lines: seq<Line>, b: Block) {
    && b.startLine <= b.endLine < |lines| && lines[b.startLine].Header?
    && b == BlockUpTo(lines, b.startLine, b.endLine + 1, b.endLine)
  }

  predicate SaysLastUpTo(lines: seq<Line>, b: Block, n: nat)
    requires n <= |lines|
  {
    && b.startLine <= b.endLine < n && lines[b.startLine].Header?
    && b == BlockUpTo(lines, b.startLine, n, b.endLine)
  }

  predicate ScanSays(lines: seq<Line>, n: nat)
    requires n <= |lines|
  {
    var s := ScanTo(lines, n);
    && (forall b <- Flush(s) :: SaysLast(lines, b))
    && (s.current.Some? ==> SaysLastUpTo(lines, s.current.value, n))
  }

  /** One more field line: exactly the value of its key changes. */
  lemma AssignSaysLast(lines: seq<Line>, b: Block, n: nat)
    requires n < |lines| && SaysLastUpTo(lines, b, n) && lines[n].Field?
    ensures Assign(b.(endLine := n), lines[n].key, lines[n].value) == BlockUpTo(lines, b.startLine, n + 1, n)
  {
  }

  lemma ScanSaysStep(lines: seq<Line>, n: nat)
    requires n < |lines| && ScanSays(lines, n)
    ensures ScanSays(lines, n + 1)
  {
    var s, s' := ScanTo(lines, n), ScanTo(lines, n + 1);
    assert s' == ScanLine(s, lines[n], n);
    if lines[n].Header? {
      assert SaysLast(lines, s'.current.value);
    } else if s.current.Some? {
      var b, b' := s.current.value, s'.current.value;
      assert Flush(s) == s.blocks + [b] && Flush(s') == s.blocks + [b'];
      assert b in Flush(s);
      if lines[n].Field? { AssignSaysLast(lines, b, n); }
      forall c | c in s.blocks ensures SaysLast(lines, c) { assert c in Flush(s); }
    }
  }

  lemma {:induction false} ScanSaysLast(lines: seq<Line>, n: nat)
    requires n <= |lines|
    ensures ScanSays(lines, n)
  {
    if n > 0 {
      ScanSaysLast(lines, n - 1);
      ScanSaysStep(lines, n - 1);
    }
  }

  /** Every block of a text says, field by field, what its last line with that key says. */
  lemma BlocksSayLast(content: string)
    ensures forall b <- BlocksOf(content) :: SaysLast(Classified(Lines(content)), b)
  {
    ScanSaysLast(Classified(Lines(content)), |Lines(content)|);
  }

  // ---------------------------------------------------------------- reading the rewritten text

  /** What a block looks like when the enabled fields of the blocks in `starts` say no. */
  function Mask(b: Block, starts: set<int>): Block {
    if b.startLine in starts && b.enabled.Some? then b.(enabled := Some(false)) else b
  }

  function MaskAll(blocks: seq<Block>, starts: set<int>): (r: seq<Block>)
    ensures |r| == |blocks|
  {
    seq(|blocks|, k requires 0 <= k < |blocks| => Mask(blocks[k], starts))
  }

  function MaskScan(s: Scan, starts: set<int>): Scan {
    Scan(MaskAll(s.blocks, starts), if s.current.Some? then Some(Mask(s.current.value, starts)) else None)
  }

  lemma MaskFlush(s: Scan, starts: set<int>)
    ensures MaskAll(Flush(s), starts) == Flush(MaskScan(s, starts))
  {
  }

  /** Reading a line commutes with masking, if an enabled line of a masked block is switched off. */
  lemma MaskStep(s: Scan, line: Line, line': Line, i: nat, starts: set<int>)
    requires line' == if s.current.Some? && s.current.value.startLine in starts && EnabledLine(line)
      then Field(line.key, "No") else line
    ensures ScanLine(MaskScan(s, starts), line', i) == MaskScan(ScanLine(s, line, i), starts)
  {
    MaskFlush(s, starts);
    NoIsOff();
  }

  /** A line is switched off exactly if it is an enabled field read into a block of `starts`. */
  lemma SwitchedLine(lines: seq<Line>, starts: set<int>, k: nat)
    requires k < |lines| && -1 !in starts
    ensures var s := ScanTo(lines, k);
      SwitchOff(lines, starts)[k] == if s.current.Some? && s.current.value.startLine in starts && EnabledLine(lines[k])
        then Field(lines[k].key, "No") else lines[k]
  {
    ScanSpans(lines, k);
    assert EnabledLine(lines[k]) ==> Owner(lines, k) == Owner(lines, k - 1);
  }

  lemma {:induction false} ScanCommutes(lines: seq<Line>, starts: set<int>, n: nat)
    requires n <= |lines| && -1 !in starts
    ensures ScanTo(SwitchOff(lines, starts), n) == MaskScan(ScanTo(lines, n), starts)
  {
    if n > 0 {
      ScanCommutes(lines, starts, n - 1);
      SwitchedLine(lines, starts, n - 1);
      MaskStep(ScanTo(lines, n - 1), lines[n - 1], SwitchOff(lines, starts)[n - 1], n - 1, starts);
    }
  }

  /** For the flagged blocks, masking by start line is disabling. */
  lemma MaskIsDisable(blocks: seq<Block>)
    requires Ascending(blocks)
    ensures MaskAll(blocks, FlaggedStarts(blocks)) == DisableAll(blocks)
  {
    var starts := FlaggedStarts(blocks);
    forall k | 0 <= k < |blocks| ensures Mask(blocks[k], starts) == DisableBlock(blocks[k]) {
      if blocks[k].startLine in starts {
        var b :| b in blocks && Flagged(b) && b.startLine == blocks[k].startLine;
        var j :| 0 <= j < |blocks| && blocks[j] == b;
        assert j == k;
      }
    }
  }

  lemma NewLinesSplit(content: string)
    ensures Lines(Next(content)) == NewLines(content)
  {
    SplitParts(content, '\n');
    var raws, starts := Lines(content), FlaggedStarts(BlocksOf(content));
    forall line | line in NewLines(content) ensures '\n' !in line {
      var k :| 0 <= k < |raws| && NewLines(content)[k] == line;
      assert raws[k] in raws;
      if Affected(Classified(raws), starts, k) { DisabledOneLine(raws[k], Classified(raws)[k].key); }
    }
    SplitJoin(NewLines(content), '\n');
  }

  /**
   * Rewriting commutes with parsing: the output has the blocks of the input, line for line and field
   * for field, except that the flagged ones are off.
   */
  lemma RewriteCommutesWithParsing(content: string)
    ensures BlocksOf(Next(content)) == DisableAll(BlocksOf(content))
  {
    var raws := Lines(content);
    var lines, starts := Classified(raws), FlaggedStarts(BlocksOf(content));
    NewLinesSplit(content);
    RewriteReads(raws, starts);
    ScanSpans(lines, |lines|);
    ScanCommutes(lines, starts, |lines|);
    MaskFlush(ScanTo(lines, |lines|), starts);
    MaskIsDisable(BlocksOf(content));
  }

  /** Line `k` is an enabled field between the header and the last line of a flagged block. */
  predicate InFlagged(lines: seq<Line>, k: nat)
    requires k < |lines|
  {
    EnabledLine(lines[k]) && exists b <- Blocks(lines) :: Flagged(b) && b.startLine <= k <= b.endLine
  }

  lemma AffectedInFlagged(lines: seq<Line>, k: nat)
    requires k < |lines|
    ensures Affected(lines, FlaggedStarts(Blocks(lines)), k) <==> InFlagged(lines, k)
  {
    ScanSpans(lines, |lines|);
    forall b | b in Blocks(lines) && EnabledLine(lines[k])
      ensures b.startLine <= k <= b.endLine <==> Owner(lines, k) == b.startLine
    {
      assert Spans(lines, b, |lines|);
    }
  }

  /** Lines keep their number and place; exactly the enabled fields inside flagged blocks are replaced. */
  lemma OtherLinesKept(content: string)
    ensures var raws, lines, next := Lines(content), Classified(Lines(content)), Lines(Next(content));
      && |next| == |raws|
      && forall k :: 0 <= k < |raws| ==> next[k] == if InFlagged(lines, k) then Disabled(raws[k], lines[k].key) else raws[k]
  {
    NewLinesSplit(content);
    forall k | 0 <= k < |Lines(content)| {
      AffectedInFlagged(Classified(Lines(content)), k);
    }
  }

  // ---------------------------------------------------------------- running it again

  lemma {:induction false} NothingFlagged(blocks: seq<Block>)
    ensures FlaggedNames(DisableAll(blocks)) == [] && FlaggedStarts(DisableAll(blocks)) == {}
  {
    var off := DisableAll(blocks);
    forall b | b in off ensures !Flagged(b) {
      var k :| 0 <= k < |off| && off[k] == b;
    }
    if blocks != [] {
      var n := |blocks| - 1;
      NothingFlagged(blocks[..n]);
      assert off[..n] == DisableAll(blocks[..n]);
    }
  }

  /** How the flagged blocks grow by one block. */
  lemma LastFlagged(blocks: seq<Block>, b: Block)
    ensures FlaggedStarts(blocks + [b]) == FlaggedStarts(blocks) + if Flagged(b) then {b.startLine as int} else {}
    ensures FlaggedNames(blocks + [b]) == FlaggedNames(blocks) + if Flagged(b) then [b.name] else []
  {
    var all := blocks + [b];
    assert all[..|blocks|] == blocks;
    forall x ensures x in FlaggedStarts(all) <==> x in FlaggedStarts(blocks) || (Flagged(b) && x == b.startLine) {
      if Flagged(b) && x == b.startLine { assert b in all; }
    }
  }

  lemma {:induction false} NamesFlagged(blocks: seq<Block>)
    ensures FlaggedNames(blocks) == [] <==> FlaggedStarts(blocks) == {}
  {
    if blocks != [] {
      var n := |blocks| - 1;
      NamesFlagged(blocks[..n]);
      assert blocks == blocks[..n] + [blocks[n]];
      LastFlagged(blocks[..n], blocks[n]);
    }
  }

  /** Names are reported block by block, in the order of the text. */
  lemma {:induction false} NamesInOrder(blocks: seq<Block>, more: seq<Block>)
    ensures FlaggedNames(blocks + more) == FlaggedNames(blocks) + FlaggedNames(more)
    decreases |more|
  {
    if more == [] {
      assert blocks + more == blocks;
    } else {
      var n := |more| - 1;
      NamesInOrder(blocks, more[..n]);
      assert blocks + more == (blocks + more[..n]) + [more[n]];
      LastFlagged(blocks + more[..n], more[n]);
    }
  }

  lemma NothingStarted(raws: seq<string>)
    ensures Rewrite(raws, {}) == raws
  {
  }

  /** A second run disables nothing and returns the same text. */
  lemma SecondRunIdle(content: string)
    ensures DisabledNames(Next(content)) == [] && Next(Next(content)) == Next(content)
  {
    RewriteCommutesWithParsing(content);
    NothingFlagged(BlocksOf(content));
    NothingStarted(Lines(Next(content)));
    SplitParts(Next(content), '\n');
  }

  /** The text changes exactly when a name is reported. */
  lemma ChangedIffReported(content: string)
    ensures Next(content) != content <==> DisabledNames(content) != []
  {
    var blocks := BlocksOf(content);
    NamesFlagged(blocks);
    if DisabledNames(content) == [] {
      NothingStarted(Lines(content));
      SplitParts(content, '\n');
    } else {
      RewriteCommutesWithParsing(content);
      NothingFlagged(blocks);
    }
  }

  // ---------------------------------------------------------------- the code

  method ParseBlocks(lines: seq<string>) returns (blocks: seq<Block>)
    ensures blocks == Blocks(Classified(lines))
  {
    blocks := [];
    var current: Option<Block> := None;
    for i := 0 to |lines|
      invariant Scan(blocks, current) == ScanTo(Classified(lines), i)
    {
      assert ScanTo(Classified(lines), i + 1) == ScanLine(Scan(blocks, current), Classify(lines[i]), i);
      var line := Trim(lines[i]);
      if Comment(line) { continue; }
      if IsHeader(line) {
        if current.Some? { blocks := blocks + [current.value]; }
        current := Some(Opened(Trim(Inner(line, 2)), i));
        continue;
      }
      if current.None? { continue; }
      current := Some(current.value.(endLine := i));
      var parsed := ParseField(line);
      if parsed.None? { continue; }
      current := Some(AssignField(current.value, parsed.value.0, parsed.value.1));
    }
    if current.Some? { blocks := blocks + [current.value]; }
  }

  /** The field assignments in the order of the source: one guard after the other. */
  function AssignField(b0: Block, key: string, value: string): (r: Block)
    ensures r == Assign(b0, key, value)
  {
    var b1 := if key == "type" then b0.(ifaceType := Some(value)) else b0;
    var b2 := if key == "name" && Trim(value) != "" then b1.(name := Trim(value)) else b1;
    var b3 := if key == "enabled" || key == "interface_enabled" then b2.(enabled := Some(ParseEnabled(value))) else b2;
    var b4 := if key == "target_host" then b3.(host := Some(value)) else b3;
    if key == "target_port" then b4.(port := ParseInt(value)) else b4
  }

  method Disable(content: string) returns (next: string, disabledNames: seq<string>)
    ensures next == Next(content) && disabledNames == DisabledNames(content)
  {
    var lines := Lines(content);
    var blocks := ParseBlocks(lines);
    ScanSpans(Classified(lines), |lines|);
    disabledNames := [];
    var out := lines;
    NothingStarted(lines);
    for j := 0 to |blocks|
      invariant disabledNames == FlaggedNames(blocks[..j])
      invariant out == Rewrite(lines, FlaggedStarts(blocks[..j]))
    {
      var b := blocks[j];
      OneMore(blocks, j);
      if !Flagged(b) { continue; }
      disabledNames := disabledNames + [b.name];
      assert b in blocks;
      out := DisableSpan(lines, out, b, FlaggedStarts(blocks[..j]));
    }
    assert blocks[..|blocks|] == blocks;
    next := Join(out, '\n');
  }

  lemma OneMore(blocks: seq<Block>, j: nat)
    requires j < |blocks| && Ascending(blocks)
    ensures var b, starts := blocks[j], FlaggedStarts(blocks[..j]);
      && b.startLine !in starts
      && FlaggedStarts(blocks[..j + 1]) == (if Flagged(b) then starts + {b.startLine as int} else starts)
      && FlaggedNames(blocks[..j + 1]) == FlaggedNames(blocks[..j]) + (if Flagged(b) then [b.name] else [])
  {
    assert blocks[..j + 1] == blocks[..j] + [blocks[j]];
    LastFlagged(blocks[..j], blocks[j]);
  }

  /** The inner loop: replace the enabled fields from the block's header to its last line. */
  method DisableSpan(ghost lines: seq<string>, before: seq<string>, b: Block, ghost starts: set<int>) returns (out: seq<string>)
    requires Spans(Classified(lines), b, |lines|) && b.startLine !in starts
    requires before == Rewrite(lines, starts)
    ensures out == Rewrite(lines, starts + {b.startLine as int})
  {
    out := before;
    ghost var after := Rewrite(lines, starts + {b.startLine as int});
    for i := b.startLine to b.endLine + 1
      invariant |out| == |lines|
      invariant forall k :: 0 <= k < |lines| ==> out[k] == if b.startLine <= k < i then after[k] else before[k]
    {
      SpanLine(lines, b, starts, i);
      var line := DisableLine(out[i]);
      out := out[i := line];
    }
    forall k | 0 <= k < |lines| && !(b.startLine <= k <= b.endLine) ensures before[k] == after[k] {
      OutsideSpan(lines, b, starts, k);
    }
  }

  lemma SpanLine(lines: seq<string>, b: Block, starts: set<int>, k: nat)
    requires Spans(Classified(lines), b, |lines|) && b.startLine !in starts && b.startLine <= k <= b.endLine
    ensures Rewrite(lines, starts)[k] == lines[k]
    ensures Rewrite(lines, starts + {b.startLine as int})[k] ==
      if EnabledLine(Classify(lines[k])) then Disabled(lines[k], Classify(lines[k]).key) else lines[k]
  {
  }

  lemma OutsideSpan(lines: seq<string>, b: Block, starts: set<int>, k: nat)
    requires Spans(Classified(lines), b, |lines|) && k < |lines| && !(b.startLine <= k <= b.endLine)
    ensures Rewrite(lines, starts + {b.startLine as int})[k] == Rewrite(lines, starts)[k]
  {
  }

  /** The body of the inner loop; a header never reads as an enabled field. */
  method DisableLine(line: string) returns (r: string)
    ensures r == if EnabledLine(Classify(line)) then Disabled(line, Classify(line).key) else line
  {
    var trimmed := Trim(line);
    if IsHeader(trimmed) { HeaderIsNoEnabledField(trimmed); }
    if Comment(trimmed) { return line; }
    var parsed := ParseField(trimmed);
    if parsed.None? { return line; }
    if parsed.value.0 != "interface_enabled" && parsed.value.0 != "enabled" { return line; }
    return Indent(line) + (parsed.value.0 + " = No");
  }

  lemma HeaderIsNoEnabledField(line: string)
    requires IsHeader(line)
    ensures ParseField(line).Some? ==> !EnabledKey(ParseField(line).value.0)
  {
    var eq := IndexOf(line, '=');
    if eq > 0 {
      var key := line[..eq];
      assert key[0] == '[';
      assert TrimStart(key) == key;
      TrimEndKeeps(key);
      assert Lower(Trim(key))[0] == '[';
    }
  }

  lemma {:induction false} TrimEndKeeps(s: string)
    requires s != "" && !IsSpace(s[0])
    ensures TrimEnd(s) != "" && TrimEnd(s)[0] == s[0]
  {
    if IsSpace(s[|s| - 1]) { TrimEndKeeps(s[..|s| - 1]); }
  }

  // ---------------------------------------------------------------- numbers

  /** The decimal numeral of a number. */
  function Decimal(n: nat): (s: string)
    ensures s != "" && forall i :: 0 <= i < |s| ==> '0' <= s[i] <= '9'
  {
    var last := [('0' as int + n % 10) as char];
    if n < 10 then last else Decimal(n / 10) + last
  }

  /** Reading digits resumes where it left off. */
  lemma {:induction false} DigitsResume(s: string, rest: string, acc: nat)
    requires forall i :: 0 <= i < |s| ==> '0' <= s[i] <= '9'
    ensures Digits(s + rest, acc) == Digits(rest, Digits(s, acc))
    decreases |s|
  {
    if s == "" {
      assert s + rest == rest;
    } else {
      assert (s + rest)[1..] == s[1..] + rest;
      DigitsResume(s[1..], rest, acc * 10 + (s[0] as int - '0' as int));
    }
  }

  lemma {:induction false} DecimalDigits(n: nat)
    ensures Digits(Decimal(n), 0) == n
  {
    var last := [('0' as int + n % 10) as char];
    assert last[1..] == "";
    if n >= 10 {
      DecimalDigits(n / 10);
      DigitsResume(Decimal(n / 10), last, 0);
    }
  }

  predicate DigitFirst(s: string) { s != "" && '0' <= s[0] <= '9' }

  /** Reading a numeral, with or without a sign, after white space and before anything that is no digit. */
  lemma ParsesNumeral(pad: string, n: nat, rest: string)
    requires (forall c <- pad :: IsSpace(c)) && !DigitFirst(rest)
    ensures ParseInt(pad + (Decimal(n) + rest)) == Some(n)
    ensures ParseInt(pad + ("+" + (Decimal(n) + rest))) == Some(n)
    ensures var r := ParseInt(pad + ("-" + (Decimal(n) + rest))); r.Some? && r.value == 0 - n
  {
    var body := Decimal(n) + rest;
    DigitsResume(Decimal(n), rest, 0);
    DecimalDigits(n);
    TrimStartPadded(pad, body);
    TrimStartPadded(pad, "+" + body);
    TrimStartPadded(pad, "-" + body);
    assert ("+" + body)[1..] == body && ("-" + body)[1..] == body;
  }

  /** Without a digit after the white space and at most one sign there is no number. */
  lemma ParsesNothing(pad: string, rest: string)
    requires (forall c <- pad :: IsSpace(c)) && !DigitFirst(rest)
    ensures ParseInt(pad + ("+" + rest)) == ParseInt(pad + ("-" + rest)) == None
    ensures (rest != "" ==> !IsSpace(rest[0]) && rest[0] !in "+-") ==> ParseInt(pad + rest) == None
  {
    TrimStartPadded(pad, "+" + rest);
    TrimStartPadded(pad, "-" + rest);
    assert ("+" + rest)[1..] == rest && ("-" + rest)[1..] == rest;
    if rest != "" ==> !IsSpace(rest[0]) && rest[0] !in "+-" { TrimStartPadded(pad, rest); }
  }

  // ---------------------------------------------------------------- a text and its blocks

  predicate AllSpace(s: string) { forall c <- s :: IsSpace(c) }

  /** Blank lines and comments are skipped. */
  lemma ReadsComment(pad: string, text: string, c: char)
    requires AllSpace(pad) && Solid(text) && text[0] in "#;"
    ensures Classify(pad + text + "") == Skipped
  {
    TrimPadded(pad, text, "");
  }

  /** A header line, indented or not, names its block. */
  lemma ReadsHeader(left: string, name: string, right: string)
    requires AllSpace(left) && AllSpace(right)
    ensures Classify(left + ("[[" + name + "]]") + right) == Header(Trim(name))
  {
    var text := "[[" + name + "]]";
    TrimPadded(left, text, right);
    assert text[|text| - 2..] == "]]" && text[2..|text| - 2] == name;
  }

  /** Values may be quoted; one pair of quotes of the same kind is taken off. */
  lemma QuotesDropped(v: string)
    ensures Unquote("\"" + v + "\"") == v && Unquote("'" + v + "'") == v
    ensures v != "" && (v[0] !in "\"'" || v[|v| - 1] != v[0]) ==> Unquote(v) == v
  {
    assert ("\"" + v + "\"")[1..|v| + 1] == v;
    assert ("'" + v + "'")[1..|v| + 1] == v;
  }

  /** A key, an equals sign and a value, with white space around the sign. */
  function FieldText(key: string, gap: string, gap': string, value: string): string { (key + gap) + ("=" + (gap' + value)) }

  lemma FieldTextSolid(key: string, gap: string, gap': string, value: string)
    requires Solid(key) && Solid(value)
    ensures Solid(FieldText(key, gap, gap', value)) && FieldText(key, gap, gap', value)[0] == key[0]
  {
    var text := FieldText(key, gap, gap', value);
    assert text[0] == key[0] && text[|text| - 1] == value[|value| - 1];
  }

  lemma FieldTextSplits(key: string, gap: string, gap': string, value: string)
    requires '=' !in key && AllSpace(gap)
    ensures var text, eq := FieldText(key, gap, gap', value), |key + gap|;
      IndexOf(text, '=') == eq && text[..eq] == key + gap && text[eq + 1..] == gap' + value
  {
    var text, eq := FieldText(key, gap, gap', value), |key + gap|;
    assert text[..eq] == key + gap && text[eq] == '=';
    assert '=' !in gap;
    IndexOfAt(text, '=', eq);
  }

  lemma FieldTextParses(key: string, gap: string, gap': string, value: string)
    requires AllSpace(gap) && AllSpace(gap') && Solid(key) && '=' !in key && Solid(value)
    ensures ParseField(FieldText(key, gap, gap', value)) == Some((Lower(key), Unquote(value)))
  {
    FieldTextSplits(key, gap, gap', value);
    TrimPadded("", key, gap);
    assert "" + key + gap == key + gap;
    TrimPadded(gap', value, "");
    assert gap' + value + "" == gap' + value;
  }

  /** It reads as that field, whatever the spacing, the indentation and the case of the key. */
  lemma ReadsField(left: string, key: string, gap: string, gap': string, value: string, right: string)
    requires AllSpace(left) && AllSpace(gap) && AllSpace(gap') && AllSpace(right)
    requires Solid(key) && '=' !in key && key[0] !in "#;[" && Solid(value)
    ensures Classify(left + FieldText(key, gap, gap', value) + right) == Field(Lower(key), Unquote(value))
  {
    var text := FieldText(key, gap, gap', value);
    FieldTextSolid(key, gap, gap', value);
    FieldTextParses(key, gap, gap', value);
    TrimPadded(left, text, right);
    assert !IsHeader(text);
  }

  /** A value that reads as written: one solid, unquoted piece of a line. */
  predicate Plain(v: string) { Solid(v) && '\n' !in v && v[0] !in "\"'" }

  function Heading(name: string): string { "[[" + name + "]]" }

  function Entry(key: string, value: string): string { "  " + FieldText(key, " ", " ", value) }

  /** A configuration text with one interface. */
  function Interface(name: string, kind: string, on: string, host: string, port: string): seq<string> {
    [Heading(name), Entry("type", kind), Entry("enabled", on), Entry("target_host", host), Entry("target_port", port)]
  }

  function InterfaceText(name: string, kind: string, on: string, host: string, port: string): string {
    Join(Interface(name, kind, on, host, port), '\n')
  }

  lemma {:induction false} LowerKeeps(s: string)
    requires forall i :: 0 <= i < |s| ==> !('A' <= s[i] <= 'Z') && s[i] != '\U{212A}'
    ensures Lower(s) == s
  {
  }

  predicate EntryKey(key: string) { key in ["type", "enabled", "target_host", "target_port"] }

  lemma EntryKeyReads(key: string)
    requires EntryKey(key)
    ensures Solid(key) && '=' !in key && '\n' !in key && key[0] !in "#;[" && Lower(key) == key
  {
    LowerKeeps(key);
  }

  lemma ReadsEntry(key: string, value: string)
    requires EntryKey(key) && Plain(value)
    ensures Classify(Entry(key, value)) == Field(key, value)
  {
    EntryKeyReads(key);
    ReadsField("  ", key, " ", " ", value, "");
    QuotesDropped(value);
    assert "  " + FieldText(key, " ", " ", value) + "" == Entry(key, value);
  }

  lemma ReadsHeading(name: string)
    ensures Classify(Heading(name)) == Header(Trim(name))
  {
    ReadsHeader("", name, "");
    assert "" + ("[[" + name + "]]") + "" == Heading(name);
  }

  lemma DigitPlain(c: char)
    requires '0' <= c <= '9'
    ensures !IsSpace(c) && c != '\n' && c !in "\"'"
  {
  }

  lemma DecimalPlain(n: nat)
    ensures Plain(Decimal(n))
  {
    var d := Decimal(n);
    DigitPlain(d[0]);
    DigitPlain(d[|d| - 1]);
  }

  lemma DecimalParses(n: nat)
    ensures ParseInt(Decimal(n)) == Some(n)
  {
    ParsesNumeral("", n, "");
    assert "" + (Decimal(n) + "") == Decimal(n);
  }

  function InterfaceLines(name: string, kind: string, on: string, host: string, port: string): seq<Line> {
    [Header(name), Field("type", kind), Field("enabled", on), Field("target_host", host), Field("target_port", port)]
  }

  lemma EntryOneLine(key: string, value: string)
    requires EntryKey(key) && Plain(value)
    ensures '\n' !in Entry(key, value)
  {
    EntryKeyReads(key);
  }

  lemma SplitsInterface(name: string, kind: string, on: string, host: string, port: string)
    requires '\n' !in name && Plain(kind) && Plain(on) && Plain(host) && Plain(port)
    ensures Lines(InterfaceText(name, kind, on, host, port)) == Interface(name, kind, on, host, port)
  {
    var raws := Interface(name, kind, on, host, port);
    EntryOneLine("type", kind);
    EntryOneLine("enabled", on);
    EntryOneLine("target_host", host);
    EntryOneLine("target_port", port);
    assert '\n' !in raws[0];
    SplitJoin(raws, '\n');
  }

  lemma ReadsInterfaceAt(name: string, kind: string, on: string, host: string, port: string, k: nat)
    requires Plain(kind) && Plain(on) && Plain(host) && Plain(port) && k < 5
    ensures Classify(Interface(name, kind, on, host, port)[k]) == InterfaceLines(Trim(name), kind, on, host, port)[k]
  {
    if k == 0 {
      ReadsHeading(name);
    } else if k == 1 {
      ReadsEntry("type", kind);
    } else if k == 2 {
      ReadsEntry("enabled", on);
    } else if k == 3 {
      ReadsEntry("target_host", host);
    } else {
      ReadsEntry("target_port", port);
    }
  }

  /** The lines of an interface read as its header and its four fields. */
  lemma ReadsInterface(name: string, kind: string, on: string, host: string, port: string)
    requires Plain(kind) && Plain(on) && Plain(host) && Plain(port)
    ensures Classified(Interface(name, kind, on, host, port)) == InterfaceLines(Trim(name), kind, on, host, port)
  {
    forall k: nat | k < 5
      ensures Classify(Interface(name, kind, on, host, port)[k]) == InterfaceLines(Trim(name), kind, on, host, port)[k]
    {
      ReadsInterfaceAt(name, kind, on, host, port, k);
    }
  }

  /** Its one block says what the fields say. */
  lemma InterfaceBlock(name: string, kind: string, on: string, host: string, n: nat)
    ensures Blocks(InterfaceLines(name, kind, on, host, Decimal(n)))
      == [Block(name, 0, 4, Some(kind), Some(ParseEnabled(on)), Some(host), Some(n))]
  {
    var lines := InterfaceLines(name, kind, on, host, Decimal(n));
    DecimalParses(n);
    var b := Opened(name, 0);
    assert ScanTo(lines, 1) == Scan([], Some(b));
    var b1 := b.(endLine := 1, ifaceType := Some(kind));
    assert ScanTo(lines, 2) == Scan([], Some(b1));
    var b2 := b1.(endLine := 2, enabled := Some(ParseEnabled(on)));
    assert ScanTo(lines, 3) == Scan([], Some(b2));
    var b3 := b2.(endLine := 3, host := Some(host));
    assert ScanTo(lines, 4) == Scan([], Some(b3));
    assert ScanTo(lines, 5) == Scan([], Some(b3.(endLine := 4, port := Some(n))));
  }

  /** A host counts without regard to case, to the white space around it and to one pair of brackets. */
  lemma ReadsHost(left: string, host: string, right: string, left': string, right': string)
    requires AllSpace(left) && AllSpace(right) && AllSpace(left') && AllSpace(right')
    requires Solid(host) && host[0] != '['
    ensures NormalizeHost(left + host + right) == Lower(host)
    ensures NormalizeHost(left' + ("[" + (left + host + right) + "]") + right') == Lower(host)
  {
    TrimPadded(left, host, right);
    var inner := left + host + right;
    var text := "[" + inner + "]";
    TrimPadded(left', text, right');
    assert text[1..|text| - 1] == inner && text[|text| - 1..] == "]";
  }

  /** The interface the rewrite is after. */
  predicate Hub(kind: string, on: string, host: string, n: nat) {
    && Lower(kind) in ["tcpclientinterface", "tcp"] && Lower(on) in ["yes", "true", "1"]
    && Lower(host) == "amsterdam.connect.reticulum.network" && n == 4965
  }

  lemma ReadsOn(on: string)
    requires Solid(on)
    ensures ParseEnabled(on) <==> Lower(on) in ["yes", "true", "1"]
  {
    TrimPadded("", on, "");
    assert "" + on + "" == on;
  }

  lemma ReadsHubHost(host: string, n: nat)
    requires Solid(host) && host[0] != '['
    ensures IsDecommissioned(host, n) <==> Lower(host) == "amsterdam.connect.reticulum.network" && n == 4965
  {
    ReadsHost("", host, "", "", "");
    assert "" + host + "" == host;
  }

  lemma FlagsHub(name: string, kind: string, on: string, host: string, n: nat)
    requires Plain(on) && Plain(host) && host[0] != '['
    ensures Flagged(Block(name, 0, 4, Some(kind), Some(ParseEnabled(on)), Some(host), Some(n))) <==> Hub(kind, on, host, n)
  {
    ReadsOn(on);
    ReadsHubHost(host, n);
  }

  lemma OneBlock(b: Block)
    ensures FlaggedNames([b]) == if Flagged(b) then [b.name] else []
    ensures FlaggedStarts([b]) == if Flagged(b) then {b.startLine as int} else {}
  {
    assert [] + [b] == [b];
    LastFlagged([], b);
  }

  lemma DisabledEntry(on: string)
    requires Plain(on)
    ensures Disabled(Entry("enabled", on), "enabled") == Entry("enabled", "No")
  {
    var text := "enabled = " + on;
    var raw := Entry("enabled", on);
    assert raw == "  " + text;
    TrimStartPadded("  ", text);
    assert Indent(raw) == "  ";
  }

  /** Exactly the `enabled` line of the interface is rewritten when its block is flagged. */
  lemma RewritesInterface(name: string, kind: string, on: string, host: string, port: string, starts: set<int>)
    requires Plain(kind) && Plain(on) && Plain(host) && Plain(port)
    ensures Rewrite(Interface(name, kind, on, host, port), starts)
      == Interface(name, kind, if 0 in starts then "No" else on, host, port)
  {
    var raws := Interface(name, kind, on, host, port);
    ReadsInterface(name, kind, on, host, port);
    DisabledEntry(on);
    var lines := InterfaceLines(Trim(name), kind, on, host, port);
    assert Classified(raws) == lines;
    assert Owner(lines, 0) == 0 && Owner(lines, 1) == 0 && Owner(lines, 2) == 0;
    forall k: nat | k < 5
      ensures Rewrite(raws, starts)[k] == Interface(name, kind, if 0 in starts then "No" else on, host, port)[k]
    {
      assert Affected(lines, starts, k) <==> k == 2 && 0 in starts;
    }
  }

  /**
   * An interface written out in full, whatever its name: it is reported and its `enabled` line turned
   * off exactly if it is an enabled TCP client of the hub, and otherwise the text stays as it is.
   */
  lemma HubSwitchedOff(name: string, kind: string, on: string, host: string, n: nat)
    requires '\n' !in name && Plain(kind) && Plain(on) && Plain(host) && host[0] != '['
    ensures var text := InterfaceText(name, kind, on, host, Decimal(n));
      && DisabledNames(text) == (if Hub(kind, on, host, n) then [Trim(name)] else [])
      && Next(text) == (if Hub(kind, on, host, n) then InterfaceText(name, kind, "No", host, Decimal(n)) else text)
  {
    var port := Decimal(n);
    DecimalPlain(n);
    var text := InterfaceText(name, kind, on, host, port);
    SplitsInterface(name, kind, on, host, port);
    ReadsInterface(name, kind, on, host, port);
    InterfaceBlock(Trim(name), kind, on, host, n);
    var b := Block(Trim(name), 0, 4, Some(kind), Some(ParseEnabled(on)), Some(host), Some(n));
    assert BlocksOf(text) == [b];
    FlagsHub(Trim(name), kind, on, host, n);
    OneBlock(b);
    RewritesInterface(name, kind, on, host, port, FlaggedStarts([b]));
  }
}
