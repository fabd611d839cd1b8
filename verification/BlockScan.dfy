// What the scanner reads from a block scalar, as a function of the unread text
// (crates/yamluna-scanner/src/scanner.rs, `scan_block_scalar` and its helpers).
module BlockScan {
  import opened CharTraits
  import opened Input
  import opened Results
  import opened FlowScan

  datatype Chomping = Strip | Clip | Keep

  // A block header behind its `|` or `>`: the indicators and how many characters they take.
  datatype Header = Header(chomping: Chomping, increment: nat, len: nat)

  function ChompingOf(c: char): Chomping {
    if c == '+' then Keep else if c == '-' then Strip else Clip
  }

  function ReadHeader(s: string): (r: Result<Header, ScanError>)
    ensures r.Ok? ==> r.value.increment <= 9
  {
    var p := Peek(s);
    if p == '+' || p == '-' then
      var d := PeekNth(s, 1);
      if !IsDigit(d) then Ok(Header(ChompingOf(p), 0, 1))
      else if d == '0' then Err(ZeroIndentIndicator)
      else Ok(Header(ChompingOf(p), d as int - '0' as int, 2))
    else if IsDigit(p) then
      if p == '0' then Err(ZeroIndentIndicator)
      else
        var q := PeekNth(s, 1);
        Ok(Header(ChompingOf(q), p as int - '0' as int, if q == '+' || q == '-' then 2 else 1))
    else Ok(Header(Clip, 0, 0))
  }

  // The number of empty lines passed over, and where the content line after them begins.
  datatype Indented = Indented(breaks: nat, c: Cursor)

  // `skip_block_scalar_indent`: eats up to `indent` spaces of each line, and whole empty lines.
  function SkipIndent(c: Cursor, indent: nat): (r: Indented)
    ensures |r.c.s| <= |c.s|
    decreases |c.s|
  {
    if c.s == [] then Indented(0, c)
    else if c.col < indent && c.s[0] == ' ' then SkipIndent(Skip(c, 1), indent)
    else if IsBreak(c.s[0]) then
      var r := SkipIndent(SkipBreak(c), indent);
      Indented(r.breaks + 1, r.c)
    else Indented(0, c)
  }

  datatype FirstIndented = FirstIndented(max: nat, breaks: nat, c: Cursor)

  // `skip_block_scalar_first_line_indent`: the widest indentation up to the first content line.
  function SkipFirstIndent(c: Cursor, max: nat): (r: FirstIndented)
    ensures |r.c.s| <= |c.s|
    decreases |c.s|
  {
    if c.s != [] && c.s[0] == ' ' then SkipFirstIndent(Skip(c, 1), max)
    else
      var m := if c.col > max then c.col else max;
      if c.s != [] && IsBreak(c.s[0]) then
        var r := SkipFirstIndent(SkipBreak(c), m);
        FirstIndented(r.max, r.breaks + 1, r.c)
      else FirstIndented(m, 0, c)
  }

  function Max(a: int, b: int): int {
    if a > b then a else b
  }

  // The indentation settled on, `max` being the widest seen and `outer` the scanner's own.
  function FirstIndent(max: nat, outer: int): nat
    requires outer >= -1
  {
    var m := Max(max, outer + 1);
    if outer > 0 then Max(m, 1) else m
  }

  function Newlines(n: nat): (s: string)
    ensures |s| == n
    ensures forall k :: 0 <= k < n ==> s[k] == '\n'
  {
    seq(n, _ => '\n')
  }

  // What a content line puts in front of itself: the breaks since the line before it, folded
  // when neither line starts with white space. `first` says there is no line before it.
  function Separator(literal: bool, first: bool, leadingBlank: bool, trailingBlank: bool, breaks: nat): string {
    if first then Newlines(breaks)
    else if !literal && !leadingBlank && !trailingBlank then
      if breaks == 0 then " " else Newlines(breaks)
    else "\n" + Newlines(breaks)
  }

  // The loop over content lines, `c` standing where one may begin.
  function BlockLines(c: Cursor, indent: nat, literal: bool, chomping: Chomping,
                      str: string, first: bool, breaks: nat, leadingBlank: bool): (r: Scanned)
    decreases |c.s|
  {
    if c.col == indent && !IsZ(Peek(c.s)) && !(indent == 0 && NextIsDocumentEnd(c.s)) then
      var blank := IsBlank(Peek(c.s));
      var n := LeadingNonBreakz(c.s);
      var line := str + Separator(literal, first, leadingBlank, blank, breaks) + c.s[..n];
      var d := Skip(c, n);
      if IsZ(Peek(d.s)) then Chomp(d, indent, chomping, line, true, 0)
      else
        var next := SkipIndent(SkipBreak(d), indent);
        BlockLines(next.c, indent, literal, chomping, line, false, next.breaks, blank)
    else Chomp(c, indent, chomping, str, first, breaks)
  }

  // The tail of the value: `noBreak` when no break is pending behind the last line.
  function Chomp(c: Cursor, indent: nat, chomping: Chomping, str: string, noBreak: bool, breaks: nat): Scanned {
    var atEnd := IsZ(Peek(c.s)) && c.col >= (if indent > 1 then indent else 1);
    var clipped :=
      if chomping == Strip then str
      else str + (if noBreak then [] else "\n") + (if atEnd then "\n" else []);
    Scanned(if chomping == Keep then clipped + Newlines(breaks) else clipped, c)
  }

  // The whole of `scan_block_scalar`, `c` standing on the `|` or `>` and `outer` being the
  // scanner's indentation.
  function ScanBlock(c: Cursor, literal: bool, outer: int): ScanResult
    requires outer >= -1
  {
    var h := ReadHeader(Drop(c.s, 1));
    if h.Err? then Err(h.error)
    else ScanBlockRest(Skip(Skip(c, 1), h.value.len), literal, outer, h.value, c.line)
  }

  // What follows the indicators, up to the end of the header line.
  function ScanBlockRest(d: Cursor, literal: bool, outer: int, h: Header, startLine: nat): ScanResult
    requires outer >= -1
  {
    var eol := SkipWsToEol(d.s, true);
    var e := Skip(d, eol.count);
    if !eol.ok then Err(CommentNeedsSpace)
    else if !IsBreakz(Peek(e.s)) then Err(ExpectedLineBreak)
    else
      var hasBreak := IsBreak(Peek(e.s));
      var f := if hasBreak then SkipBreak(e) else e;
      if Peek(f.s) == '\t' then Err(ContentStartsWithTab)
      else ScanBlockBody(f, literal, outer, h, hasBreak, startLine)
  }

  function ScanBlockBody(f: Cursor, literal: bool, outer: int, h: Header, hasBreak: bool, startLine: nat): ScanResult
    requires outer >= -1
  {
    var fixed := if h.increment == 0 then 0 else if outer >= 0 then outer + h.increment else h.increment;
    var lead := SkipFirstIndent(f, 0);
    var indent := if fixed > 0 then fixed else FirstIndent(lead.max, outer);
    var at := if fixed > 0 then SkipIndent(f, fixed) else Indented(lead.breaks, lead.c);
    var g := at.c;
    if IsZ(Peek(g.s)) then
      Ok(Scanned(
           if h.chomping == Strip || g.line == startLine then []
           else if h.chomping == Keep && at.breaks > 0 then Newlines(at.breaks)
           else if hasBreak then "\n" else [],
           g))
    else if g.col < indent && g.col > outer then Err(WronglyIndentedLine)
    else Ok(BlockLines(g, indent, literal, h.chomping, [], true, at.breaks, false))
  }
}
