// What a plain scalar stands for, said of the words and the white space it is made of, and the scanner's
// reading of it (YAML 1.2, section 7.3.3; crates/yamluna-scanner/src/scanner.rs).
module PlainValue {
  import opened CharTraits
  import opened Input
  import opened Results
  import opened FlowScan
  import opened PlainScan
  import opened GapText

  predicate Indicator(c: char) {
    c == ',' || c == '[' || c == ']' || c == '{' || c == '}'
  }

  // A character of a word: no white space, in a flow collection no indicator, and a `:` only in front
  // of what may follow it.
  predicate PlainChar(c: char, next: char, flow: bool) {
    && !IsBlankOrBreakz(c)
    && (flow ==> !Indicator(c))
    && (c == ':' ==> !IsBlankOrBreakz(next) && (flow ==> !Indicator(next)))
  }

  predicate WordFormed(w: string, after: string, flow: bool) {
    w != "" ==> PlainChar(w[0], if |w| > 1 then w[1] else Peek(after), flow) && WordFormed(w[1..], after, flow)
  }

  function WordThen(w: string, text: string): string {
    w + text
  }

  // White space between words, or behind the last of them; `after` is the text behind it.
  predicate GapFormed(g: Gap, after: string) {
    match g
    case Spaces(ws) => ws != "" && AllBlank(ws)
    case Folded(before, first, empties, lead) =>
      AllBlank(before) && Apart(first, EmptiesText(empties) + (lead + after)) && EmptiesFit(empties, lead + after) && AllBlank(lead)
    case Escaped(_, _, _) => false
  }

  // The scalar goes on behind the gap, and no tab indents its next line; `col` is where the gap begins.
  predicate GapFits(g: Gap, col: nat, indent: int, flow: bool) {
    (!flow ==> ColumnAfter(g, col) >= indent) && (g.Folded? ==> TabsFit(g.lead, indent))
  }

  function ColumnAfter(g: Gap, col: nat): nat {
    if g.Folded? then |g.lead| else col + |g.Text()|
  }

  function LineAfter(g: Gap, line: nat): nat {
    if g.Folded? then line + 1 + |g.empties| else line
  }

  // Where a word may start: no comment, no document marker, and no `-` that a flow indicator follows.
  predicate StartFits(w: string, after: string, col: nat, flow: bool) {
    && w != "" && w[0] != '#'
    && !(col == 0 && NextIsDocumentIndicator(WordThen(w, after)))
    && (flow ==> w != "-" || !Indicator(Peek(after)))
  }

  // The last word, with the white space behind it and what ends the scalar; or a word, a gap, and more.
  datatype Plain =
    | Last(word: string, trail: Option<Gap>, stop: string)
    | More(word: string, gap: Gap, rest: Plain)
  {
    // What stands behind the first word.
    function After(): string
      decreases this, 0
    {
      match this
      case Last(_, trail, stop) => if trail.None? then stop else GapThen(trail.value, stop)
      case More(_, gap, rest) => GapThen(gap, rest.Text())
    }

    function Text(): string
      decreases this, 1
    {
      WordThen(word, After())
    }

    // The words, with what the white space between them stands for.
    function Value(): string {
      if Last? then word else word + (gap.Value() + rest.Value())
    }

    // The text is these words, read from column `col` on, `indent` being what the next lines must reach.
    predicate Fits(col: nat, indent: int, flow: bool) {
      && WordFormed(word, After(), flow)
      && StartFits(word, After(), col, flow)
      && match this
         case Last(_, trail, stop) => Ends(trail, stop, col + |word|, indent, flow)
         case More(_, gap, rest) =>
           && GapFormed(gap, rest.Text()) && GapFits(gap, col + |word|, indent, flow)
           && rest.Fits(ColumnAfter(gap, col + |word|), indent, flow)
    }

    function End(col: nat, line: nat): Cursor {
      match this
      case Last(_, trail, stop) =>
        if trail.None? then Cursor(stop, col + |word|, line)
        else Cursor(stop, ColumnAfter(trail.value, col + |word|), LineAfter(trail.value, line))
      case More(_, gap, rest) => rest.End(ColumnAfter(gap, col + |word|), LineAfter(gap, line))
    }
  }

  // What no word begins with, or ends at: a `:` that separates, in a flow collection an indicator, the end.
  predicate Cuts(stop: string, flow: bool) {
    || IsZ(Peek(stop))
    || (Peek(stop) == ':' && (IsBlankOrBreakz(PeekNth(stop, 1)) || (flow && Indicator(PeekNth(stop, 1)))))
    || (flow && Indicator(Peek(stop)))
  }

  // What ends a scalar: what cuts a word; behind white space also a comment; on a line of its own also
  // a document marker, and in block context anything left of the indentation.
  predicate Ends(trail: Option<Gap>, stop: string, col: nat, indent: int, flow: bool) {
    if trail.None? then Cuts(stop, flow)
    else
      var g := trail.value;
      && GapFormed(g, stop) && !IsBlankOrBreak(Peek(stop)) && (g.Folded? ==> TabsFit(g.lead, indent))
      && (Cuts(stop, flow) || Peek(stop) == '#' || (ColumnAfter(g, col) == 0 && NextIsDocumentIndicator(stop))
          || (!flow && ColumnAfter(g, col) < indent))
      // a lone `-` in front of a flow indicator is an error
      && !(flow && Peek(stop) == '-' && Indicator(PeekNth(stop, 1)))
  }

  predicate IsBlankOrBreak(c: char) {
    IsBlank(c) || IsBreak(c)
  }

  // ------------------------------------------------------------------ reading words

  lemma CharRead(c: char, s: string, flow: bool)
    requires s != "" && s[0] == c
    ensures PlainChar(c, PeekNth(s, 1), flow) <==> InWord(s, flow)
  {
  }

  lemma CutRead(stop: string, flow: bool)
    requires !IsBlankOrBreak(Peek(stop))
    ensures Cuts(stop, flow) <==> !InWord(stop, flow)
  {
  }

  lemma {:induction false} WordRead(st: PlainState, w: string, after: string, indent: int, flow: bool)
    requires WordFormed(w, after, flow) && st.c.s == WordThen(w, after) && !st.lw
    ensures PlainWord(st, indent, flow)
         == PlainWord(st.(c := Cursor(after, st.c.col + |w|, st.c.line), str := st.str + w), indent, flow)
    decreases |w|
  {
    if w == "" {
      assert WordThen(w, after) == after && st.str + w == st.str;
    } else {
      assert PeekNth(st.c.s, 1) == if |w| > 1 then w[1] else Peek(after);
      CharRead(w[0], st.c.s, flow);
      assert st.c.s[1..] == WordThen(w[1..], after);
      var next := st.(c := Skip(st.c, 1), str := st.str + [w[0]]);
      hide InWord, PlainChar, WordThen;
      WordRead(next, w[1..], after, indent, flow);
      assert (st.str + [w[0]]) + w[1..] == st.str + w;
    }
  }

  // A word from where one may start: what the buffers stand for is put in front of it.
  lemma StartRead(st: PlainState, w: string, after: string, indent: int, flow: bool)
    requires WordFormed(w, after, flow) && StartFits(w, after, st.c.col, flow) && st.c.s == WordThen(w, after)
    requires IsBlankOrBreak(Peek(after)) || Cuts(after, flow)
    ensures var joined := st.str + JoinBreaks(st.lw, st.leadingBreak, st.trailingBreaks, st.ws);
            var d := Cursor(after, st.c.col + |w|, st.c.line);
            PlainTop(st, indent, flow) == PlainAfter(PlainState(d, false, joined + w, [], [], []), indent, flow)
  {
    var joined := st.str + JoinBreaks(st.lw, st.leadingBreak, st.trailingBreaks, st.ws);
    var next := PlainState(Cursor(after, st.c.col + |w|, st.c.line), false, joined + w, [], [], []);
    assert Flushed(st) == PlainState(st.c, false, joined, [], [], []);
    WordRead(Flushed(st), w, after, indent, flow);
    AfterWord(next, indent, flow);
    TopRead(st, w, after, indent, flow);
  }

  lemma AfterWord(st: PlainState, indent: int, flow: bool)
    requires IsBlankOrBreak(Peek(st.c.s)) || Cuts(st.c.s, flow)
    ensures PlainWord(st, indent, flow) == PlainAfter(st, indent, flow)
  {
    if !IsBlankOrBreak(Peek(st.c.s)) {
      CutRead(st.c.s, flow);
    }
    hide PlainAfter;
  }

  lemma TopRead(st: PlainState, w: string, after: string, indent: int, flow: bool)
    requires WordFormed(w, after, flow) && StartFits(w, after, st.c.col, flow) && st.c.s == WordThen(w, after)
    ensures PlainTop(st, indent, flow) == PlainWord(Flushed(st), indent, flow)
  {
    var next := if |w| > 1 then w[1] else Peek(after);
    assert Peek(st.c.s) == w[0] && PeekNth(st.c.s, 1) == next;
    CharRead(w[0], st.c.s, flow);
    assert flow && w[0] == '-' && |w| > 1 ==> PlainChar(w[1], if |w| > 2 then w[2] else Peek(after), flow) by {
      if |w| > 1 {
        assert WordFormed(w[1..], after, flow);
        assert w[1..][0] == w[1] && (|w| > 2 ==> w[1..][1] == w[2]);
      }
    }
    assert w[0] == '-' && |w| == 1 ==> w == "-";
    hide PlainWord, PlainAfter, Flushed, NextIsDocumentIndicator, WordThen, InWord, WordFormed;
  }

  // ------------------------------------------------------------------ reading gaps

  lemma {:induction false} SpacesRead(st: PlainState, b: string, rest: string, indent: int, flow: bool)
    requires AllBlank(b) && st.c.s == b + rest && !st.lw
    ensures PlainBlanks(st, indent, flow)
         == PlainBlanks(st.(c := Cursor(rest, st.c.col + |b|, st.c.line), ws := st.ws + b), indent, flow)
    decreases |b|
  {
    if b == "" {
      assert st.c.s == rest && st.ws + b == st.ws;
    } else {
      assert st.c.s[1..] == b[1..] + rest;
      SpacesRead(st.(c := Skip(st.c, 1), ws := st.ws + [b[0]]), b[1..], rest, indent, flow);
      assert (st.ws + [b[0]]) + b[1..] == st.ws + b;
    }
  }

  // White space at the start of a line, with no tab that indents.
  lemma {:induction false} LeadRead(st: PlainState, b: string, rest: string, indent: int, flow: bool)
    requires AllBlank(b) && st.c.s == b + rest && st.lw
    requires forall k | 0 <= k < |b| && b[k] == '\t' :: st.c.col + k >= indent
    ensures PlainBlanks(st, indent, flow) == PlainBlanks(st.(c := Cursor(rest, st.c.col + |b|, st.c.line)), indent, flow)
    decreases |b|
  {
    if b == "" {
      assert st.c.s == rest;
    } else {
      assert st.c.s[1..] == b[1..] + rest;
      forall k | 0 <= k < |b[1..]| && b[1..][k] == '\t' ensures st.c.col + 1 + k >= indent {
        assert b[k + 1] == '\t';
      }
      LeadRead(st.(c := Skip(st.c, 1)), b[1..], rest, indent, flow);
    }
  }

  lemma {:induction false} AllWs(b: string, rest: string)
    requires AllBlank(b) && !IsBlank(Peek(rest)) && Peek(rest) != '#'
    ensures var eol := SkipWsToEol(b + rest, true); eol.ok && eol.count == |b|
    ensures LeadingWs(b + rest, true) == |b|
  {
    if b == "" {
      assert b + rest == rest;
    } else {
      assert (b + rest)[1..] == b[1..] + rest;
      AllWs(b[1..], rest);
      assert PeekNth(b + rest, |b|) == PeekNth(b[1..] + rest, |b| - 1);
    }
  }

  lemma TabLine(st: PlainState, b: string, rest: string, indent: int, flow: bool)
    requires AllBlank(b) && b != "" && st.c.s == b + rest && st.lw && IsBreak(Peek(rest)) && b[0] == '\t' && st.c.col < indent
    ensures PlainBlanks(st, indent, flow) == PlainBlanks(st.(c := Cursor(rest, st.c.col + |b|, st.c.line)), indent, flow)
  {
    AllWs(b, rest);
    assert Skip(st.c, |b|) == Cursor(rest, st.c.col + |b|, st.c.line) by { assert st.c.s[|b|..] == rest; }
    hide SkipWsToEol, AllBlank, Skip;
  }

  // On an empty line a tab indents nothing.
  lemma {:induction false} EmptyRead(st: PlainState, b: string, rest: string, indent: int, flow: bool)
    requires AllBlank(b) && st.c.s == b + rest && st.lw && IsBreak(Peek(rest))
    ensures PlainBlanks(st, indent, flow) == PlainBlanks(st.(c := Cursor(rest, st.c.col + |b|, st.c.line)), indent, flow)
    decreases |b|
  {
    if b == "" {
      assert st.c.s == rest;
    } else if b[0] == '\t' && st.c.col < indent {
      TabLine(st, b, rest, indent, flow);
    } else {
      assert st.c.s[1..] == b[1..] + rest;
      EmptyRead(st.(c := Skip(st.c, 1)), b[1..], rest, indent, flow);
    }
  }

  lemma {:induction false} EmptiesRead(st: PlainState, empties: seq<Empty>, rest: string, indent: int, flow: bool)
    requires EmptiesFit(empties, rest) && st.c.s == EmptiesText(empties) + rest && st.c.col == 0 && st.lw
    ensures PlainBlanks(st, indent, flow)
         == PlainBlanks(st.(c := Cursor(rest, 0, st.c.line + |empties|), trailingBreaks := st.trailingBreaks + Feeds(|empties|)),
                        indent, flow)
    decreases |empties|
  {
    EmptiesSplit(empties, rest);
    OneFeed(st.trailingBreaks, |empties|);
    hide *;
    if empties != [] {
      var e := empties[0];
      var next := EmptiesText(empties[1..]) + rest;
      LineRead(st, e, next, e.end.Text() + next, indent, flow);
      EmptiesRead(st.(c := Cursor(next, 0, st.c.line + 1), trailingBreaks := st.trailingBreaks + ['\n']), empties[1..], rest, indent, flow);
    }
  }

  lemma LineRead(st: PlainState, e: Empty, next: string, line: string, indent: int, flow: bool)
    requires AllBlank(e.blanks) && GapText.Apart(e.end, next) && line == e.end.Text() + next && st.c.s == e.blanks + line && st.lw
    ensures PlainBlanks(st, indent, flow)
         == PlainBlanks(st.(c := Cursor(next, 0, st.c.line + 1), trailingBreaks := st.trailingBreaks + ['\n']), indent, flow)
  {
    hide AllBlank;
    BreakRead(Cursor(line, st.c.col + |e.blanks|, st.c.line), e.end, next);
    EmptyRead(st, e.blanks, line, indent, flow);
  }

  // The state behind a gap.
  function Behind(st: PlainState, g: Gap, after: string): PlainState
    requires !g.Escaped?
  {
    var c := Cursor(after, ColumnAfter(g, st.c.col), LineAfter(g, st.c.line));
    if g.Spaces? then PlainState(c, false, st.str, [], [], g.ws)
    else PlainState(c, true, st.str, ['\n'], Feeds(|g.empties|), [])
  }

  lemma BehindJoins(st: PlainState, g: Gap, after: string)
    requires !g.Escaped?
    ensures var b := Behind(st, g, after); JoinBreaks(b.lw, b.leadingBreak, b.trailingBreaks, b.ws) == g.Value()
  {
    assert Feeds(0) == [];
  }

  predicate Clear(st: PlainState) {
    !st.lw && st.leadingBreak == [] && st.trailingBreaks == [] && st.ws == []
  }

  // What comes of the state behind a gap.
  function Landed(st: PlainState, indent: int, flow: bool): ScanResult {
    if !flow && st.c.col < indent then PlainEnd(st) else PlainTop(st, indent, flow)
  }

  lemma GapRead(st: PlainState, g: Gap, after: string, indent: int, flow: bool)
    requires Clear(st) && GapFormed(g, after) && st.c.s == GapThen(g, after) && !IsBlankOrBreak(Peek(after))
    requires g.Folded? ==> TabsFit(g.lead, indent)
    ensures PlainAfter(st, indent, flow) == Landed(Behind(st, g, after), indent, flow)
    ensures IsBlankOrBreak(Peek(st.c.s))
  {
    if g.Spaces? {
      assert Peek(st.c.s) == g.ws[0];
      SpacesRead(st, g.ws, after, indent, flow);
      assert [] + g.ws == g.ws;
      LandedAt(Behind(st, g, after), indent, flow);
      hide PlainTop, PlainEnd, PlainBlanks, GapThen;
    } else {
      Joined(g.before, g.first.Text(), EmptiesText(g.empties), g.lead, after);
      var more := EmptiesText(g.empties) + (g.lead + after);
      var line := g.first.Text() + more;
      assert st.c.s == g.before + line;
      LandedAt(Behind(st, g, after), indent, flow);
      hide EmptiesFit, EmptiesText, Landed, GapThen, Feeds;
      FirstRead(st, g.before, g.first, more, line, indent, flow);
      LinesRead(st, g, after, g.lead + after, more, indent, flow);
    }
  }

  lemma Joined(a: string, b: string, c: string, d: string, e: string)
    ensures (a + (b + (c + d))) + e == a + (b + (c + (d + e)))
  {
    assert (c + d) + e == c + (d + e);
    assert (b + (c + d)) + e == b + ((c + d) + e);
    assert (a + (b + (c + d))) + e == a + ((b + (c + d)) + e);
  }

  lemma LandedAt(st: PlainState, indent: int, flow: bool)
    requires !IsBlankOrBreak(Peek(st.c.s))
    ensures PlainBlanks(st, indent, flow) == Landed(st, indent, flow)
  {
    hide PlainTop, PlainEnd;
  }

  // The first break of a gap, with the white space in front of it dropped.
  lemma FirstRead(st: PlainState, before: string, first: Break, more: string, line: string, indent: int, flow: bool)
    requires Clear(st) && AllBlank(before) && GapText.Apart(first, more) && line == first.Text() + more && st.c.s == before + line
    ensures IsBlankOrBreak(Peek(st.c.s))
    ensures PlainAfter(st, indent, flow)
         == PlainBlanks(PlainState(Cursor(more, 0, st.c.line + 1), true, st.str, ['\n'], [], []), indent, flow)
  {
    assert IsBlankOrBreak(Peek(st.c.s)) by { assert st.c.s[0] == if before == "" then line[0] else before[0]; }
    SpacesRead(st, before, line, indent, flow);
    BreakRead(Cursor(line, st.c.col + |before|, st.c.line), first, more);
    assert [] + ['\n'] == ['\n'];
  }

  // The empty lines, and the white space the next line begins with.
  lemma LinesRead(st: PlainState, g: Gap, after: string, text: string, more: string, indent: int, flow: bool)
    requires g.Folded? && AllBlank(g.lead) && TabsFit(g.lead, indent) && EmptiesFit(g.empties, text)
    requires text == g.lead + after && more == EmptiesText(g.empties) + text
    ensures PlainBlanks(PlainState(Cursor(more, 0, st.c.line + 1), true, st.str, ['\n'], [], []), indent, flow)
         == PlainBlanks(Behind(st, g, after), indent, flow)
  {
    hide PlainBlanks, EmptiesFit, EmptiesText, AllBlank, Feeds;
    var a := PlainState(Cursor(more, 0, st.c.line + 1), true, st.str, ['\n'], [], []);
    EmptiesRead(a, g.empties, text, indent, flow);
    assert [] + Feeds(|g.empties|) == Feeds(|g.empties|);
    var b := PlainState(Cursor(text, 0, st.c.line + 1 + |g.empties|), true, st.str, ['\n'], Feeds(|g.empties|), []);
    LeadRead(b, g.lead, after, indent, flow);
  }

  // ------------------------------------------------------------------ the whole scalar

  lemma EndRead(st: PlainState, indent: int, flow: bool)
    requires !IsBlankOrBreak(Peek(st.c.s)) && st.str != []
    requires Cuts(st.c.s, flow) || Peek(st.c.s) == '#' || (st.c.col == 0 && NextIsDocumentIndicator(st.c.s)) || (!flow && st.c.col < indent)
    requires !(flow && Peek(st.c.s) == '-' && Indicator(PeekNth(st.c.s, 1)))
    ensures Landed(st, indent, flow) == Ok(Scanned(st.str, st.c))
  {
    CutRead(st.c.s, flow);
    assert PlainAfter(st, indent, flow) == PlainEnd(st);
    hide InWord, Cuts, NextIsDocumentIndicator, PlainBlanks, PlainWord, PlainAfter;
  }

  lemma CutEnds(st: PlainState, indent: int, flow: bool)
    requires Cuts(st.c.s, flow) && st.str != []
    ensures PlainAfter(st, indent, flow) == Ok(Scanned(st.str, st.c)) && !IsBlankOrBreak(Peek(st.c.s))
  {
  }

  // From where a word may start, the words are read to their end.
  lemma {:induction false} WordsRead(st: PlainState, p: Plain, indent: int, flow: bool)
    requires p.Fits(st.c.col, indent, flow) && st.c.s == p.Text()
    ensures var joined := st.str + JoinBreaks(st.lw, st.leadingBreak, st.trailingBreaks, st.ws);
            PlainTop(st, indent, flow) == Ok(Scanned(joined + p.Value(), p.End(st.c.col, st.c.line)))
    decreases p
  {
    var joined := st.str + JoinBreaks(st.lw, st.leadingBreak, st.trailingBreaks, st.ws);
    var d := PlainState(Cursor(p.After(), st.c.col + |p.word|, st.c.line), false, joined + p.word, [], [], []);
    Continues(p, st.c.col, indent, flow);
    assert p.word != "" && joined + p.word != [];
    hide JoinBreaks;
    if p.More? {
      var e := Behind(d, p.gap, p.rest.Text());
      hide PlainTop, PlainAfter, PlainBlanks, JoinBreaks, WordFormed, StartFits, GapFormed, GapFits, WordThen, GapThen;
      StartRead(st, p.word, p.After(), indent, flow);
      GapRead(d, p.gap, p.rest.Text(), indent, flow);
      GoesOn(e, p, d, indent, flow);
      BehindJoins(d, p.gap, p.rest.Text());
      WordsRead(e, p.rest, indent, flow);
      Grouped(joined, p.word, p.gap.Value(), p.rest.Value());
    } else {
      hide PlainTop, PlainAfter, PlainBlanks, JoinBreaks, WordFormed, StartFits, GapFormed, GapFits, WordThen, GapThen;
      StartRead(st, p.word, p.After(), indent, flow);
      LastRead(d, p, st.c.col, st.c.line, indent, flow);
    }
  }

  // Behind a word comes white space, or what cuts it.
  lemma Continues(p: Plain, col: nat, indent: int, flow: bool)
    requires p.Fits(col, indent, flow)
    ensures IsBlankOrBreak(Peek(p.After())) || Cuts(p.After(), flow)
    ensures p.More? ==> !IsBlankOrBreak(Peek(p.rest.Text()))
  {
    if p.More? {
      GapFirst(p.gap, p.rest.Text());
      var w := p.rest.word;
      assert WordFormed(w, p.rest.After(), flow) && w != "";
      assert Peek(p.rest.Text()) == w[0];
    } else if p.trail.Some? {
      GapFirst(p.trail.value, p.stop);
    }
  }

  lemma GapFirst(g: Gap, after: string)
    requires GapFormed(g, after)
    ensures IsBlankOrBreak(Peek(GapThen(g, after)))
  {
    assert Peek(GapThen(g, after)) == g.Text()[0];
    if g.Folded? {
      assert g.Text()[0] == if g.before != "" then g.before[0] else g.first.Text()[0];
    }
  }

  lemma GoesOn(e: PlainState, p: Plain, d: PlainState, indent: int, flow: bool)
    requires p.More? && GapFits(p.gap, d.c.col, indent, flow) && !p.gap.Escaped? && e == Behind(d, p.gap, p.rest.Text())
    ensures Landed(e, indent, flow) == PlainTop(e, indent, flow)
  {
    hide PlainTop;
  }

  lemma Grouped(a: string, b: string, c: string, d: string)
    ensures a + (b + (c + d)) == ((a + b) + c) + d
  {
  }

  lemma LastRead(d: PlainState, p: Plain, col: nat, line: nat, indent: int, flow: bool)
    requires p.Last? && Clear(d) && d.str != [] && d.c == Cursor(p.After(), col + |p.word|, line)
    requires Ends(p.trail, p.stop, col + |p.word|, indent, flow)
    ensures PlainAfter(d, indent, flow) == Ok(Scanned(d.str, p.End(col, line)))
  {
    if p.trail.None? {
      CutEnds(d, indent, flow);
    } else {
      GapRead(d, p.trail.value, p.stop, indent, flow);
      EndRead(Behind(d, p.trail.value, p.stop), indent, flow);
    }
  }

  // A plain scalar, whatever its words, blanks, breaks and empty lines, and wherever it ends, is read as
  // the value of its words and gaps, up to where it ends.
  lemma PlainRead(c: Cursor, lw: bool, p: Plain, outer: int, flow: bool)
    requires flow ==> c.col > outer
    requires p.Fits(c.col, outer + 1, flow) && c.s == p.Text()
    ensures ScanPlain(c, lw, outer, flow) == Ok(Scanned(p.Value(), p.End(c.col, c.line)))
  {
    var st := PlainState(c, lw, [], [], [], []);
    hide Plain.Fits, Plain.Text, Plain.Value, Plain.End, PlainTop;
    WordsRead(st, p, outer + 1, flow);
    assert [] + JoinBreaks(lw, [], [], []) == [];
    assert [] + p.Value() == p.Value();
  }
}
