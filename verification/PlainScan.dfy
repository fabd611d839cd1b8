// What the scanner reads from a plain scalar, as a function of the unread text
// (crates/yamluna-scanner/src/scanner.rs, `scan_plain_scalar`).
module PlainScan {
  import opened CharTraits
  import opened Input
  import opened Results
  import opened FlowScan

  // The loop's variables: the position, `leading_whitespace`, the value so far and the three
  // buffers of white space that may still turn out to be inside the scalar.
  datatype PlainState = PlainState(
    c: Cursor, lw: bool, str: string, leadingBreak: string, trailingBreaks: string, ws: string)

  // Whether the next character belongs to the word being read.
  predicate InWord(s: string, flow: bool) {
    !IsBlankOrBreakz(Peek(s)) && NextCanBePlainScalar(s, flow)
  }

  function PlainEnd(st: PlainState): ScanResult {
    if st.str == [] then Err(EmptyPlainScalar) else Ok(Scanned(st.str, st.c))
  }

  // The buffers flushed into the value in front of a new word.
  function Flushed(st: PlainState): PlainState {
    st.(lw := false, leadingBreak := [], trailingBreaks := [], ws := [],
        str := st.str + JoinBreaks(st.lw, st.leadingBreak, st.trailingBreaks, st.ws))
  }

  // One turn of the outer loop. `indent` is the column a continuation line must reach.
  function PlainTop(st: PlainState, indent: int, flow: bool): (r: ScanResult)
    decreases |st.c.s|, 3
  {
    var s := st.c.s;
    if (st.c.col == 0 && NextIsDocumentIndicator(s)) || Peek(s) == '#' then PlainEnd(st)
    else if flow && Peek(s) == '-' && IsFlow(PeekNth(s, 1)) then Err(DashBeforeFlowIndicator)
    else if InWord(s, flow) then PlainWord(Flushed(st), indent, flow)
    else PlainAfter(st, indent, flow)
  }

  function PlainWord(st: PlainState, indent: int, flow: bool): (r: ScanResult)
    decreases |st.c.s|, 2
  {
    if InWord(st.c.s, flow) then
      PlainWord(st.(c := Skip(st.c, 1), lw := false, str := st.str + [Peek(st.c.s)]), indent, flow)
    else PlainAfter(st, indent, flow)
  }

  function PlainAfter(st: PlainState, indent: int, flow: bool): (r: ScanResult)
    decreases |st.c.s|, 1
  {
    var p := Peek(st.c.s);
    if IsBlank(p) || IsBreak(p) then PlainBlanks(st, indent, flow) else PlainEnd(st)
  }

  function PlainBlanks(st: PlainState, indent: int, flow: bool): (r: ScanResult)
    decreases |st.c.s|, if IsBlank(Peek(st.c.s)) || IsBreak(Peek(st.c.s)) then 0 else 4
  {
    var p := Peek(st.c.s);
    if IsBlank(p) then
      if !st.lw then PlainBlanks(st.(c := Skip(st.c, 1), ws := st.ws + [p]), indent, flow)
      else if st.c.col < indent && p == '\t' then
        var eol := SkipWsToEol(st.c.s, true);
        var d := Skip(st.c, eol.count);
        if !eol.ok then Err(CommentNeedsSpace)
        else if !IsBreakz(Peek(d.s)) then Err(TabInPlainScalar)
        else PlainBlanks(st.(c := d), indent, flow)
      else PlainBlanks(st.(c := Skip(st.c, 1)), indent, flow)
    else if IsBreak(p) then
      if st.lw then
        PlainBlanks(st.(c := SkipBreak(st.c), trailingBreaks := st.trailingBreaks + ['\n']), indent, flow)
      else
        PlainBlanks(st.(c := SkipBreak(st.c), lw := true, ws := [], leadingBreak := st.leadingBreak + ['\n']),
                    indent, flow)
    else if !flow && st.c.col < indent then PlainEnd(st)
    else PlainTop(st, indent, flow)
  }

  // The whole of `scan_plain_scalar`, `outer` being the scanner's indentation.
  function ScanPlain(c: Cursor, lw: bool, outer: int, flow: bool): ScanResult {
    if flow && c.col < outer + 1 then Err(InvalidIndentation)
    else PlainTop(PlainState(c, lw, [], [], [], []), outer + 1, flow)
  }
}
