// What the scanner reads from a quoted scalar, as a function of the unread text
// (crates/yamluna-scanner/src/scanner.rs, `scan_flow_scalar` and its helpers).
module FlowScan {
  import opened CharTraits
  import opened Input
  import opened Results
  import Hex

  // The scanner's reading position: the unread text, its column and its line.
  datatype Cursor = Cursor(s: string, col: nat, line: nat)

  datatype ScanError =
    | UnexpectedDocumentIndicator
    | UnexpectedEndOfStream
    | InvalidIndentation
    | TabAsIndentation
    | UnknownEscape
    | ExpectedHex
    | InvalidCodePoint
    | InvalidTrailingContent
    | CommentNeedsSpace
    | ZeroIndentIndicator
    | ExpectedLineBreak
    | ContentStartsWithTab
    | WronglyIndentedLine
    | DashBeforeFlowIndicator
    | TabInPlainScalar
    | EmptyPlainScalar

  // A scalar's value and where reading stopped.
  datatype Scanned = Scanned(value: string, end: Cursor)

  type ScanResult = Result<Scanned, ScanError>

  // Consumes `n` characters of one line.
  function Skip(c: Cursor, n: nat): Cursor {
    Cursor(Drop(c.s, n), c.col + n, c.line)
  }

  // Consumes a line break: CR, LF or both. The caller has seen one.
  function SkipBreak(c: Cursor): (r: Cursor)
    ensures c.s != [] ==> |r.s| < |c.s|
    ensures r.col == 0 && r.line == c.line + 1
  {
    var n := if Peek(c.s) == '\r' && PeekNth(c.s, 1) == '\n' then 2 else 1;
    Cursor(Drop(c.s, n), 0, c.line + 1)
  }

  // ------------------------------------------------------------------ escapes

  datatype Escape = Escape(c: char, len: nat)

  // The characters whose escape is a single letter.
  function NamedEscapeValue(e: char): Option<char> {
    if e == '0' then Some('\0')
    else if e == 'a' then Some('\U{7}')
    else if e == 'b' then Some('\U{8}')
    else if e == 't' || e == '\t' then Some('\t')
    else if e == 'n' then Some('\n')
    else if e == 'v' then Some('\U{b}')
    else if e == 'f' then Some('\U{c}')
    else if e == 'r' then Some('\r')
    else if e == 'e' then Some('\U{1b}')
    else if e == ' ' then Some(' ')
    else if e == '"' then Some('"')
    else if e == '/' then Some('/')
    else if e == '\\' then Some('\\')
    else if e == 'N' then Some('\U{85}')
    else if e == '_' then Some('\U{a0}')
    else if e == 'L' then Some('\U{2028}')
    else if e == 'P' then Some('\U{2029}')
    else None
  }

  function CodeLength(e: char): nat {
    if e == 'x' then 2 else if e == 'u' then 4 else if e == 'U' then 8 else 0
  }

  predicate AllHex(s: string) {
    forall k | 0 <= k < |s| :: IsHex(s[k])
  }

  // The escape sequence `s` starts with, and how many characters it takes.
  function ResolveEscape(s: string): (r: Result<Escape, ScanError>)
    ensures r.Ok? ==> 2 <= r.value.len <= |s| || |s| < 2
  {
    var e := PeekNth(s, 1);
    var named := NamedEscapeValue(e);
    var n := CodeLength(e);
    if named.Some? then Ok(Escape(named.value, 2))
    else if n == 0 then Err(UnknownEscape)
    else if |s| < 2 + n || !AllHex(s[2..2 + n]) then Err(ExpectedHex)
    else
      var u := Hex.Value(s[2..2 + n]);
      if IsScalarValue(u) then Ok(Escape(u as char, 2 + n)) else Err(InvalidCodePoint)
  }

  // ------------------------------------------------------------------ the reading loop

  // What is appended to the value once a run of white space and line breaks is over.
  function JoinBreaks(lead: bool, leadingBreak: string, trailingBreaks: string, ws: string): string {
    if !lead then ws
    else if leadingBreak == [] then trailingBreaks
    else if trailingBreaks == [] then " "
    else trailingBreaks
  }

  // One turn of the outer loop: the checks made where a word may start, then the word.
  function FlowLine(c: Cursor, single: bool, indent: int, acc: string): (r: ScanResult)
    decreases |c.s|, 2
  {
    if c.col == 0 && NextIsDocumentIndicator(c.s) then Err(UnexpectedDocumentIndicator)
    else if IsZ(Peek(c.s)) then Err(UnexpectedEndOfStream)
    else if c.col < indent then Err(InvalidIndentation)
    else FlowText(c, single, indent, acc)
  }

  // Reads non-blank characters up to white space or the closing quote.
  function FlowText(c: Cursor, single: bool, indent: int, acc: string): (r: ScanResult)
    decreases |c.s|, 1
  {
    var p := Peek(c.s);
    if IsBlankOrBreakz(p) then FlowBlanks(c, single, indent, acc, false, [], [], [])
    else if single && p == '\'' then
      if PeekNth(c.s, 1) == '\'' then FlowText(Skip(c, 2), single, indent, acc + ['\''])
      else Ok(Scanned(acc, c))
    else if !single && p == '"' then Ok(Scanned(acc, c))
    else if !single && p == '\\' then
      if IsBreak(PeekNth(c.s, 1)) then
        var d := SkipBreak(Skip(c, 1));
        if Peek(d.s) == '"' then Ok(Scanned(acc, d))
        else FlowBlanks(d, single, indent, acc, true, [], [], [])
      else
        var e := ResolveEscape(c.s);
        if e.Err? then Err(e.error)
        else FlowText(Skip(c, e.value.len), single, indent, acc + [e.value.c])
    else FlowText(Skip(c, 1), single, indent, acc + [p])
  }

  // Reads white space and line breaks. `lead` is set once a line break has been met.
  function FlowBlanks(c: Cursor, single: bool, indent: int, acc: string,
                      lead: bool, leadingBreak: string, trailingBreaks: string, ws: string)
    : (r: ScanResult)
    decreases |c.s|, if IsBlankOrBreakz(Peek(c.s)) then 0 else 3
  {
    var p := Peek(c.s);
    if IsBlank(p) then
      if !lead then FlowBlanks(Skip(c, 1), single, indent, acc, lead, leadingBreak, trailingBreaks, ws + [p])
      else if p == '\t' && c.col < indent then Err(TabAsIndentation)
      else FlowBlanks(Skip(c, 1), single, indent, acc, lead, leadingBreak, trailingBreaks, ws)
    else if IsBreak(p) then
      if lead then FlowBlanks(SkipBreak(c), single, indent, acc, lead, leadingBreak, trailingBreaks + ['\n'], ws)
      else FlowBlanks(SkipBreak(c), single, indent, acc, true, leadingBreak + ['\n'], trailingBreaks, [])
    else if IsZ(p) then Err(UnexpectedEndOfStream)
    else FlowLine(c, single, indent, acc + JoinBreaks(lead, leadingBreak, trailingBreaks, ws))
  }

  // ------------------------------------------------------------------ after the closing quote

  // Whether `c` may follow a quoted scalar, `sameLine` telling whether it spans one line only.
  predicate TrailingOk(c: char, flowLevel: nat, sameLine: bool) {
    || (flowLevel > 0 && (c == ',' || c == '}' || c == ']'))
    || IsBreakz(c)
    || (c == ':' && (flowLevel > 0 || sameLine))
  }

  // What follows once `value` has been read and `c` stands on the closing quote.
  function FinishFlow(value: string, c: Cursor, startLine: nat, flowLevel: nat): ScanResult {
    var d := Skip(c, 1);
    var eol := SkipWsToEol(d.s, true);
    var e := Skip(d, eol.count);
    if !eol.ok then Err(CommentNeedsSpace)
    else if TrailingOk(Peek(e.s), flowLevel, startLine == c.line) then Ok(Scanned(value, e))
    else Err(InvalidTrailingContent)
  }

  // The whole of `scan_flow_scalar`, `c` standing on the opening quote.
  function ScanFlow(c: Cursor, single: bool, indent: int, flowLevel: nat): ScanResult {
    var r := FlowLine(Skip(c, 1), single, indent, []);
    if r.Err? then Err(r.error)
    else FinishFlow(r.value.value, r.value.end, c.line, flowLevel)
  }
}
