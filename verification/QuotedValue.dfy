// What a quoted scalar stands for, said of the words and the white space it is made of, and the
// scanner's reading of it (YAML 1.2, sections 5.7 and 7.3; crates/yamluna-scanner/src/scanner.rs).
module QuotedValue {
  import opened CharTraits
  import opened Input
  import opened Results
  import opened FlowScan
  import opened GapText
  import Hex

  // ------------------------------------------------------------------ words

  datatype Atom =
    | Raw(c: char)
    | Doubled
    | Named(letter: char)
    | Code(mark: char, digits: string)

  function AtomText(a: Atom): (s: string)
    ensures s != ""
  {
    match a
    case Raw(c) => [c]
    case Doubled => "''"
    case Named(letter) => ['\\', letter]
    case Code(mark, digits) => ['\\', mark] + digits
  }

  function WordText(w: seq<Atom>): string {
    if w == [] then "" else AtomText(w[0]) + WordText(w[1..])
  }

  // The code points of the escapes of one letter.
  function LetterCode(letter: char): Option<nat> {
    match letter
    case '0' => Some(0x00)
    case 'a' => Some(0x07)
    case 'b' => Some(0x08)
    case 't' => Some(0x09)
    case '\t' => Some(0x09)
    case 'n' => Some(0x0A)
    case 'v' => Some(0x0B)
    case 'f' => Some(0x0C)
    case 'r' => Some(0x0D)
    case 'e' => Some(0x1B)
    case ' ' => Some(0x20)
    case '"' => Some(0x22)
    case '/' => Some(0x2F)
    case '\\' => Some(0x5C)
    case 'N' => Some(0x85)
    case '_' => Some(0xA0)
    case 'L' => Some(0x2028)
    case 'P' => Some(0x2029)
    case _ => None
  }

  function Digit(c: char): nat {
    match c
    case '1' => 1 case '2' => 2 case '3' => 3 case '4' => 4 case '5' => 5
    case '6' => 6 case '7' => 7 case '8' => 8 case '9' => 9
    case 'a' => 10 case 'A' => 10
    case 'b' => 11 case 'B' => 11
    case 'c' => 12 case 'C' => 12
    case 'd' => 13 case 'D' => 13
    case 'e' => 14 case 'E' => 14
    case 'f' => 15 case 'F' => 15
    case _ => 0
  }

  // A hexadecimal number, each digit at its place.
  function Number(digits: string): nat {
    if digits == "" then 0 else Digit(digits[0]) * Hex.Pow16(|digits| - 1) + Number(digits[1..])
  }

  function AtomValue(a: Atom): Option<char> {
    match a
    case Raw(c) => Some(c)
    case Doubled => Some('\'')
    case Named(letter) =>
      var code := LetterCode(letter);
      if code.Some? && IsScalarValue(code.value) then Some(code.value as char) else None
    case Code(_, digits) => if IsScalarValue(Number(digits)) then Some(Number(digits) as char) else None
  }

  // Every escape of the word stands for a character.
  predicate WordFits(w: seq<Atom>) {
    w != [] ==> AtomValue(w[0]).Some? && WordFits(w[1..])
  }

  function WordValue(w: seq<Atom>): string
    requires WordFits(w)
  {
    if w == [] then "" else [AtomValue(w[0]).value] + WordValue(w[1..])
  }

  function Width(mark: char): nat {
    match mark
    case 'x' => 2
    case 'u' => 4
    case 'U' => 8
    case _ => 0
  }

  predicate AtomFormed(a: Atom, single: bool) {
    match a
    case Raw(c) => !IsBlankOrBreakz(c) && if single then c != '\'' else c != '"' && c != '\\'
    case Doubled => single
    case Named(letter) => !single && !IsBreak(letter) && Width(letter) == 0
    case Code(mark, digits) => !single && Width(mark) > 0 && |digits| == Width(mark) && AllHex(digits)
  }

  predicate WordFormed(w: seq<Atom>, single: bool) {
    w != [] ==> AtomFormed(w[0], single) && WordFormed(w[1..], single)
  }

  // ------------------------------------------------------------------ the text between the quotes

  function WordThen(w: seq<Atom>, text: string): string {
    WordText(w) + text
  }

  datatype Quoted = Last(word: seq<Atom>) | More(word: seq<Atom>, gap: Gap, rest: Quoted) {
    // The text, up to and with what stands behind it.
    function Text(close: string): string {
      WordThen(word, if Last? then close else GapThen(gap, rest.Text(close)))
    }

    // Every escape stands for a character.
    predicate Spelled() {
      WordFits(word) && (More? ==> rest.Spelled())
    }

    // The words, with what the white space between them stands for.
    function Value(): string
      requires Spelled()
    {
      if Last? then WordValue(word) else WordValue(word) + (gap.Value() + rest.Value())
    }

    // Words and gaps are what they are by the characters around them; `close` is the quote and all behind it.
    predicate Formed(single: bool, close: string) {
      && WordFormed(word, single)
      && (More? ==>
            && GapFormed(gap, single, rest.Text(close))
            && (rest.word == [] ==> rest.Last? || rest.gap.Escaped?)
            && rest.Formed(single, close))
    }
  }

  predicate GapFormed(g: Gap, single: bool, after: string) {
    match g
    case Spaces(ws) => ws != "" && AllBlank(ws)
    case Folded(before, first, empties, lead) =>
      AllBlank(before) && Apart(first, EmptiesText(empties) + (lead + after)) && EmptiesFit(empties, lead + after) && AllBlank(lead)
    case Escaped(first, empties, lead) =>
      !single && Apart(first, EmptiesText(empties) + (lead + after)) && EmptiesFit(empties, lead + after) && AllBlank(lead)
  }

  // Where a word may start: not left of the indentation, and with no document marker in the first column.
  predicate StartFits(col: nat, indent: int, s: string) {
    col >= indent && !(col == 0 && NextIsDocumentIndicator(s))
  }

  predicate EmptiesIndented(empties: seq<Empty>, indent: int) {
    forall i | 0 <= i < |empties| :: TabsFit(empties[i].blanks, indent)
  }

  predicate GapFits(g: Gap, indent: int) {
    g.Spaces? || (EmptiesIndented(g.empties, indent) && TabsFit(g.lead, indent))
  }

  function ColumnAfter(g: Gap, col: nat): nat {
    if g.Spaces? then col + |g.ws| else |g.lead|
  }

  function LineAfter(g: Gap, line: nat): nat {
    if g.Spaces? then line else line + 1 + |g.empties|
  }

  // The closing quote stands right behind an escaped break.
  predicate ClosedThere(g: Gap, rest: Quoted) {
    g.Escaped? && g.empties == [] && g.lead == "" && rest == Last([])
  }

  // Every word, from column `col` on, starts where one may.
  predicate Fits(q: Quoted, col: nat, indent: int, close: string) {
    && StartFits(col, indent, q.Text(close))
    && WordFits(q.word)
    && (q.More? ==>
          && GapFits(q.gap, indent)
          && (ClosedThere(q.gap, q.rest) || Fits(q.rest, ColumnAfter(q.gap, col + |WordText(q.word)|), indent, close)))
  }

  // Where the text ends.
  function End(q: Quoted, c: Cursor, close: string): Cursor {
    var d := c.col + |WordText(q.word)|;
    if q.Last? then Cursor(close, d, c.line)
    else End(q.rest, Cursor(q.rest.Text(close), ColumnAfter(q.gap, d), LineAfter(q.gap, c.line)), close)
  }

  // ------------------------------------------------------------------ numbers

  lemma {:induction false} NumberSnoc(s: string)
    requires s != ""
    ensures Number(s) == 16 * Number(s[..|s| - 1]) + Digit(s[|s| - 1])
  {
    var n := |s| - 1;
    if n > 0 {
      NumberSnoc(s[1..]);
      assert s[1..][..n - 1] == s[..n][1..];
      Shifted(Digit(s[0]), n);
    }
  }

  lemma Shifted(d: nat, n: nat)
    requires n > 0
    ensures d * Hex.Pow16(n) == 16 * (d * Hex.Pow16(n - 1))
  {
    var p := Hex.Pow16(n - 1);
    assert Hex.Pow16(n) == 16 * p;
    assert d * (16 * p) == 16 * (d * p);
  }

  // The scanner, shifting digit by digit, comes to the number.
  lemma {:induction false} NumberRead(s: string)
    requires AllHex(s)
    ensures Hex.Value(s) == Number(s)
  {
    if s != "" {
      NumberSnoc(s);
      NumberRead(s[..|s| - 1]);
      SameDigit(s[|s| - 1]);
      hide Digit, AsHex, Number;
    }
  }

  lemma SameDigit(c: char)
    requires IsHex(c)
    ensures Digit(c) == AsHex(c)
  {
  }

  // ------------------------------------------------------------------ reading words

  lemma LetterRead(letter: char)
    requires !IsBreak(letter) && Width(letter) == 0
    ensures CodeLength(letter) == 0
    ensures var v := AtomValue(Named(letter)); NamedEscapeValue(letter) == v
  {
  }

  lemma EscapeRead(a: Atom, rest: string)
    requires a.Named? || a.Code?
    requires AtomFormed(a, false)
    ensures var r := ResolveEscape(AtomText(a) + rest);
            if AtomValue(a).Some? then r == Ok(Escape(AtomValue(a).value, |AtomText(a)|)) else r.Err?
  {
    var s := AtomText(a) + rest;
    if a.Named? {
      LetterRead(a.letter);
      assert PeekNth(s, 1) == a.letter;
    } else {
      var n := Width(a.mark);
      NumberRead(a.digits);
      assert PeekNth(s, 1) == a.mark && CodeLength(a.mark) == n && NamedEscapeValue(a.mark) == None;
      assert s[2..2 + n] == a.digits;
    }
  }

  lemma AtomRead(c: Cursor, a: Atom, rest: string, single: bool, indent: int, acc: string)
    requires AtomFormed(a, single) && c.s == AtomText(a) + rest
    ensures var r := FlowText(c, single, indent, acc);
            if AtomValue(a).Some? then
              r == FlowText(Cursor(rest, c.col + |AtomText(a)|, c.line), single, indent, acc + [AtomValue(a).value])
            else r.Err?
  {
    if a.Raw? {
      assert c.s[1..] == rest;
    } else if a.Doubled? {
      assert c.s[2..] == rest;
    } else {
      EscapeRead(a, rest);
      assert !IsBreak(PeekNth(c.s, 1)) && Peek(c.s) == '\\';
      hide ResolveEscape, LetterCode, NamedEscapeValue, Digit, Number, IsScalarValue, AtomValue;
      assert c.s[|AtomText(a)|..] == rest;
    }
  }

  lemma {:induction false} WordRead(c: Cursor, w: seq<Atom>, rest: string, single: bool, indent: int, acc: string)
    requires WordFormed(w, single) && c.s == WordText(w) + rest
    ensures var r := FlowText(c, single, indent, acc);
            if WordFits(w) then r == FlowText(Cursor(rest, c.col + |WordText(w)|, c.line), single, indent, acc + WordValue(w))
            else r.Err?
    decreases |w|
  {
    hide AtomFormed, AtomText, AtomValue, FlowText;
    if w == [] {
      assert c.s == rest && acc + WordValue(w) == acc;
    } else {
      var more := WordText(w[1..]) + rest;
      assert c.s == AtomText(w[0]) + more;
      AtomRead(c, w[0], more, single, indent, acc);
      if AtomValue(w[0]).Some? {
        var v := AtomValue(w[0]).value;
        WordRead(Cursor(more, c.col + |AtomText(w[0])|, c.line), w[1..], rest, single, indent, acc + [v]);
        if WordFits(w) {
          assert (acc + [v]) + WordValue(w[1..]) == acc + WordValue(w);
        }
      }
    }
  }

  // ------------------------------------------------------------------ reading gaps

  // White space on one line.
  lemma {:induction false} SpacesRead(c: Cursor, b: string, rest: string, single: bool, indent: int, acc: string, ws: string)
    requires AllBlank(b) && c.s == b + rest
    ensures FlowBlanks(c, single, indent, acc, false, [], [], ws)
         == FlowBlanks(Cursor(rest, c.col + |b|, c.line), single, indent, acc, false, [], [], ws + b)
    decreases |b|
  {
    if b == "" {
      assert c.s == rest && ws + b == ws;
    } else {
      assert c.s[1..] == b[1..] + rest;
      SpacesRead(Skip(c, 1), b[1..], rest, single, indent, acc, ws + [b[0]]);
      assert (ws + [b[0]]) + b[1..] == ws + b;
    }
  }

  predicate TabsFrom(b: string, col: nat, indent: int) {
    forall k | 0 <= k < |b| && b[k] == '\t' :: col + k >= indent
  }

  lemma TabsNext(b: string, col: nat, indent: int)
    requires b != ""
    ensures TabsFrom(b, col, indent) <==> (b[0] == '\t' ==> col >= indent) && TabsFrom(b[1..], col + 1, indent)
  {
    if (b[0] == '\t' ==> col >= indent) && TabsFrom(b[1..], col + 1, indent) {
      forall k | 0 <= k < |b| && b[k] == '\t' ensures col + k >= indent {
        assert k > 0 ==> b[1..][k - 1] == b[k];
      }
    }
    if TabsFrom(b, col, indent) {
      forall k | 0 <= k < |b[1..]| && b[1..][k] == '\t' ensures col + 1 + k >= indent {
        assert b[k + 1] == '\t';
      }
    }
  }

  // White space at the start of a line.
  lemma {:induction false} LeadRead(c: Cursor, b: string, rest: string, single: bool, indent: int, acc: string, first: string, more: string)
    requires AllBlank(b) && c.s == b + rest
    ensures var r := FlowBlanks(c, single, indent, acc, true, first, more, []);
            if TabsFrom(b, c.col, indent) then
              r == FlowBlanks(Cursor(rest, c.col + |b|, c.line), single, indent, acc, true, first, more, [])
            else r.Err?
    decreases |b|
  {
    if b == "" {
      assert c.s == rest;
    } else {
      TabsNext(b, c.col, indent);
      hide TabsFrom;
      assert c.s[1..] == b[1..] + rest;
      LeadRead(Skip(c, 1), b[1..], rest, single, indent, acc, first, more);
    }
  }

  lemma FeedsAfter(n: nat)
    requires n > 0
    ensures Feeds(n) == ['\n'] + Feeds(n - 1)
  {
  }

  // Empty lines, each a line feed.
  lemma {:induction false} EmptiesRead(c: Cursor, empties: seq<Empty>, rest: string, single: bool, indent: int, acc: string,
                                       first: string, more: string)
    requires EmptiesFit(empties, rest) && c.s == EmptiesText(empties) + rest && c.col == 0
    ensures var r := FlowBlanks(c, single, indent, acc, true, first, more, []);
            if EmptiesIndented(empties, indent) then
              r == FlowBlanks(Cursor(rest, 0, c.line + |empties|), single, indent, acc, true, first, more + Feeds(|empties|), [])
            else r.Err?
    decreases |empties|
  {
    if empties == [] {
      assert c.s == rest && more + Feeds(0) == more;
    } else {
      var e := empties[0];
      var next := EmptiesText(empties[1..]) + rest;
      assert c.s == e.blanks + (e.end.Text() + next);
      assert EmptiesFit(empties[1..], rest);
      hide EmptiesFit, EmptiesText;
      EmptyRead(c, e, next, e.end.Text() + next, single, indent, acc, first, more);
      IndentedNext(empties, indent);
      if TabsFit(e.blanks, indent) {
        hide FlowBlanks, EmptiesIndented, TabsFit, AllBlank;
        EmptiesRead(Cursor(next, 0, c.line + 1), empties[1..], rest, single, indent, acc, first, more + ['\n']);
        OneFeed(more, |empties|);
      }
    }
  }

  lemma EmptyRead(c: Cursor, e: Empty, next: string, line: string, single: bool, indent: int, acc: string, first: string, more: string)
    requires AllBlank(e.blanks) && GapText.Apart(e.end, next) && line == e.end.Text() + next && c.s == e.blanks + line && c.col == 0
    ensures var r := FlowBlanks(c, single, indent, acc, true, first, more, []);
            if TabsFit(e.blanks, indent) then
              r == FlowBlanks(Cursor(next, 0, c.line + 1), single, indent, acc, true, first, more + ['\n'], [])
            else r.Err?
  {
    assert TabsFrom(e.blanks, 0, indent) <==> TabsFit(e.blanks, indent);
    hide TabsFit, TabsFrom, AllBlank;
    LeadRead(c, e.blanks, line, single, indent, acc, first, more);
    BreakRead(Cursor(line, |e.blanks|, c.line), e.end, next);
  }

  lemma IndentedNext(empties: seq<Empty>, indent: int)
    requires empties != []
    ensures EmptiesIndented(empties, indent) <==> TabsFit(empties[0].blanks, indent) && EmptiesIndented(empties[1..], indent)
  {
    hide TabsFit;
    if TabsFit(empties[0].blanks, indent) && EmptiesIndented(empties[1..], indent) {
      forall i | 0 <= i < |empties| ensures TabsFit(empties[i].blanks, indent) {
        assert i > 0 ==> empties[1..][i - 1] == empties[i];
      }
    }
    if EmptiesIndented(empties, indent) {
      assert forall i | 0 <= i < |empties[1..]| :: empties[1..][i] == empties[i + 1];
    }
  }

  lemma EmptiesFirst(c: Cursor, empties: seq<Empty>, rest: string, single: bool, indent: int, acc: string, first: string)
    requires EmptiesFit(empties, rest) && c.s == EmptiesText(empties) + rest && c.col == 0
    ensures var r := FlowBlanks(c, single, indent, acc, true, first, [], []);
            if EmptiesIndented(empties, indent) then
              r == FlowBlanks(Cursor(rest, 0, c.line + |empties|), single, indent, acc, true, first, Feeds(|empties|), [])
            else r.Err?
  {
    hide *;
    EmptiesRead(c, empties, rest, single, indent, acc, first, []);
    assert [] + Feeds(|empties|) == Feeds(|empties|);
  }

  // From the first break on: `first` is what the break itself has left behind.
  lemma LinesRead(c: Cursor, empties: seq<Empty>, lead: string, after: string, text: string, single: bool, indent: int,
                  acc: string, first: string)
    requires text == lead + after && EmptiesFit(empties, text) && AllBlank(lead) && !IsBlankOrBreakz(Peek(after))
    requires c.s == EmptiesText(empties) + text && c.col == 0
    ensures var r := FlowBlanks(c, single, indent, acc, true, first, [], []);
            var joined := JoinBreaks(true, first, Feeds(|empties|), []);
            if EmptiesIndented(empties, indent) && TabsFit(lead, indent) then
              r == FlowLine(Cursor(after, |lead|, c.line + |empties|), single, indent, acc + joined)
            else r.Err?
  {
    var d := Cursor(text, 0, c.line + |empties|);
    assert TabsFrom(lead, 0, indent) <==> TabsFit(lead, indent);
    hide *;
    BlanksEnd(Cursor(after, |lead|, d.line), single, indent, acc, first, Feeds(|empties|));
    EmptiesFirst(c, empties, text, single, indent, acc, first);
    if EmptiesIndented(empties, indent) {
      LeadRead(d, lead, after, single, indent, acc, first, Feeds(|empties|));
    }
  }

  lemma BlanksEnd(c: Cursor, single: bool, indent: int, acc: string, first: string, more: string)
    requires !IsBlankOrBreakz(Peek(c.s))
    ensures FlowBlanks(c, single, indent, acc, true, first, more, [])
         == FlowLine(c, single, indent, acc + JoinBreaks(true, first, more, []))
  {
    hide FlowLine, JoinBreaks;
  }

  // The quote right behind an escaped break.
  predicate ClosesAt(g: Gap, after: string) {
    g.Escaped? && g.empties == [] && g.lead == "" && Peek(after) == '"'
  }

  ghost predicate GapComesTo(r: ScanResult, c: Cursor, g: Gap, after: string, single: bool, indent: int, acc: string) {
    if ClosesAt(g, after) then
      r == Ok(Scanned(acc, Cursor(after, 0, c.line + 1)))
    else if GapFits(g, indent) then
      r == FlowLine(Cursor(after, ColumnAfter(g, c.col), LineAfter(g, c.line)), single, indent, acc + g.Value())
    else r.Err?
  }

  lemma GapRead(c: Cursor, g: Gap, after: string, single: bool, indent: int, acc: string)
    requires GapFormed(g, single, after) && !IsBlankOrBreakz(Peek(after)) && c.s == GapThen(g, after)
    ensures GapComesTo(FlowText(c, single, indent, acc), c, g, after, single, indent, acc)
  {
    match g
    case Spaces(ws) => SpacesEnd(c, g, after, single, indent, acc);
    case Folded(before, first, empties, lead) =>
      LinesJoin(g, after);
      FoldedRead(c, g, after, EmptiesText(empties) + (lead + after), single, indent, acc);
    case Escaped(first, empties, lead) =>
      LinesJoin(g, after);
      EscapedRead(c, g, after, EmptiesText(empties) + (lead + after), indent, acc);
  }

  lemma SpacesEnd(c: Cursor, g: Gap, after: string, single: bool, indent: int, acc: string)
    requires g.Spaces? && g.ws != "" && AllBlank(g.ws) && !IsBlankOrBreakz(Peek(after)) && c.s == g.ws + after
    ensures GapComesTo(FlowText(c, single, indent, acc), c, g, after, single, indent, acc)
  {
    assert c.s[0] == g.ws[0];
    SpacesRead(c, g.ws, after, single, indent, acc, []);
    assert [] + g.ws == g.ws;
    hide FlowLine;
  }

  lemma LinesJoin(g: Gap, after: string)
    ensures g.Folded? ==>
              GapThen(g, after) == g.before + (g.first.Text() + (EmptiesText(g.empties) + (g.lead + after)))
    ensures g.Escaped? ==>
              GapThen(g, after) == ['\\'] + (g.first.Text() + (EmptiesText(g.empties) + (g.lead + after)))
  {
    if !g.Spaces? {
      Joined(if g.Folded? then g.before else ['\\'], g.first.Text(), EmptiesText(g.empties), g.lead, after);
    }
    hide EmptiesText, Break.Text;
  }

  lemma Joined(a: string, b: string, c: string, d: string, e: string)
    ensures (a + (b + (c + d))) + e == a + (b + (c + (d + e)))
  {
    assert (c + d) + e == c + (d + e);
    assert (b + (c + d)) + e == b + ((c + d) + e);
    assert (a + (b + (c + d))) + e == a + ((b + (c + d)) + e);
  }

  // White space that a line ends with, and the break.
  lemma BreakMet(c: Cursor, before: string, first: Break, more: string, line: string, single: bool, indent: int, acc: string)
    requires AllBlank(before) && line == first.Text() + more && GapText.Apart(first, more) && c.s == before + line
    ensures FlowText(c, single, indent, acc)
         == FlowBlanks(Cursor(more, 0, c.line + 1), single, indent, acc, true, ['\n'], [], [])
  {
    assert IsBlankOrBreakz(Peek(c.s)) by { assert c.s[0] == if before == "" then line[0] else before[0]; }
    SpacesRead(c, before, line, single, indent, acc, []);
    BreakRead(Cursor(line, c.col + |before|, c.line), first, more);
    assert [] + ['\n'] == ['\n'];
  }

  lemma FoldedRead(c: Cursor, g: Gap, after: string, more: string, single: bool, indent: int, acc: string)
    requires g.Folded? && GapFormed(g, single, after) && !IsBlankOrBreakz(Peek(after))
    requires more == EmptiesText(g.empties) + (g.lead + after) && c.s == g.before + (g.first.Text() + more)
    ensures GapComesTo(FlowText(c, single, indent, acc), c, g, after, single, indent, acc)
  {
    hide FlowText, FlowBlanks, FlowLine, EmptiesFit, EmptiesIndented, TabsFit, AllBlank, Feeds, EmptiesText, GapText.Apart;
    BreakMet(c, g.before, g.first, more, g.first.Text() + more, single, indent, acc);
    LinesRead(Cursor(more, 0, c.line + 1), g.empties, g.lead, after, g.lead + after, single, indent, acc, ['\n']);
    NoFeeds(|g.empties|);
  }

  lemma NoFeeds(n: nat)
    ensures Feeds(n) == [] <==> n == 0
  {
  }

  lemma EscapedRead(c: Cursor, g: Gap, after: string, more: string, indent: int, acc: string)
    requires g.Escaped? && GapFormed(g, false, after) && !IsBlankOrBreakz(Peek(after))
    requires more == EmptiesText(g.empties) + (g.lead + after) && c.s == ['\\'] + (g.first.Text() + more)
    ensures GapComesTo(FlowText(c, false, indent, acc), c, g, after, false, indent, acc)
  {
    var d := Cursor(more, 0, c.line + 1);
    hide FlowBlanks, FlowLine, EmptiesFit, EmptiesIndented, TabsFit, AllBlank, Feeds, EmptiesText, GapText.Apart, FlowText;
    EscapeMet(c, g.first, more, g.first.Text() + more, indent, acc);
    QuoteThere(g, after);
    if Peek(more) != '"' {
      LinesRead(d, g.empties, g.lead, after, g.lead + after, false, indent, acc, []);
      hide *;
      EscapedJudged(FlowText(c, false, indent, acc), c, g, after, indent, acc);
    }
  }

  lemma EscapedJudged(r: ScanResult, c: Cursor, g: Gap, after: string, indent: int, acc: string)
    requires g.Escaped? && !ClosesAt(g, after)
    requires if EmptiesIndented(g.empties, indent) && TabsFit(g.lead, indent) then
               r == FlowLine(Cursor(after, |g.lead|, c.line + 1 + |g.empties|), false, indent,
                             acc + JoinBreaks(true, [], Feeds(|g.empties|), []))
             else r.Err?
    ensures GapComesTo(r, c, g, after, false, indent, acc)
  {
    hide EmptiesIndented, TabsFit, FlowLine;
  }

  lemma EscapeMet(c: Cursor, first: Break, more: string, line: string, indent: int, acc: string)
    requires line == first.Text() + more && GapText.Apart(first, more) && c.s == ['\\'] + line
    ensures var d := Cursor(more, 0, c.line + 1);
            FlowText(c, false, indent, acc)
              == if Peek(more) == '"' then Ok(Scanned(acc, d)) else FlowBlanks(d, false, indent, acc, true, [], [], [])
  {
    assert c.s[1..] == line && PeekNth(c.s, 1) == line[0] == first.Text()[0];
    BreakRead(Skip(c, 1), first, more);
    hide FlowBlanks;
  }

  lemma QuoteThere(g: Gap, after: string)
    requires g.Escaped? && EmptiesFit(g.empties, g.lead + after) && AllBlank(g.lead) && after != ""
    ensures Peek(EmptiesText(g.empties) + (g.lead + after)) == '"' <==> g.empties == [] && g.lead == "" && Peek(after) == '"'
    ensures g.empties == [] && g.lead == "" ==> EmptiesText(g.empties) + (g.lead + after) == after
  {
    if g.empties != [] {
      var e := g.empties[0];
      assert EmptiesText(g.empties) == e.blanks + (e.end.Text() + EmptiesText(g.empties[1..]));
      assert Peek(EmptiesText(g.empties) + (g.lead + after)) == if e.blanks != "" then e.blanks[0] else e.end.Text()[0];
    } else {
      assert EmptiesText(g.empties) + (g.lead + after) == g.lead + after;
    }
  }

  // ------------------------------------------------------------------ the whole text

  // The quote that closes a scalar, and what stands behind it.
  predicate Closes(close: string, single: bool) {
    close != "" && close[0] == (if single then '\'' else '"') && (single ==> PeekNth(close, 1) != '\'')
  }

  ghost predicate TextComesTo(r: ScanResult, c: Cursor, q: Quoted, indent: int, acc: string, close: string) {
    if Fits(q, c.col, indent, close) then q.Spelled() && r == Ok(Scanned(acc + q.Value(), End(q, c, close)))
    else r.Err?
  }

  // The first character behind a gap: a word's, an escape's or the quote.
  lemma FirstOf(q: Quoted, single: bool, close: string)
    requires q.Formed(single, close) && Closes(close, single)
    requires q.word != [] || q.Last? || q.gap.Escaped?
    ensures !IsBlankOrBreakz(Peek(q.Text(close)))
    ensures !single ==> (Peek(q.Text(close)) == '"' <==> q == Last([]))
  {
    var more := if q.Last? then close else GapThen(q.gap, q.rest.Text(close));
    assert q.Text(close) == WordThen(q.word, more);
    assert WordFormed(q.word, single);
    hide Quoted.Formed, Quoted.Text, GapFormed;
    if q.word != [] {
      hide WordThen, GapThen, WordFormed;
      FirstOfWord(q.word, more, single);
    } else {
      assert WordThen([], more) == more;
      assert q.More? ==> Peek(more) == '\\';
    }
  }

  lemma FirstOfWord(w: seq<Atom>, more: string, single: bool)
    requires w != [] && WordFormed(w, single)
    ensures !IsBlankOrBreakz(Peek(WordThen(w, more))) && (!single ==> Peek(WordThen(w, more)) != '"')
  {
    assert WordText(w) == AtomText(w[0]) + WordText(w[1..]);
    assert Peek(WordThen(w, more)) == AtomText(w[0])[0];
  }

  // No text begins with NUL.
  lemma NoNul(q: Quoted, single: bool, close: string)
    requires q.Formed(single, close) && Closes(close, single)
    ensures !IsZ(Peek(q.Text(close)))
  {
    if q.word != [] || q.Last? || q.gap.Escaped? {
      FirstOf(q, single, close);
    } else {
      var more := GapThen(q.gap, q.rest.Text(close));
      BlankFirst(q.gap, single, q.rest.Text(close));
      assert WordThen([], more) == more;
      assert Peek(more) == q.gap.Text()[0];
    }
  }

  lemma BlankFirst(g: Gap, single: bool, after: string)
    requires GapFormed(g, single, after) && !g.Escaped?
    ensures g.Text() != "" && (IsBlank(g.Text()[0]) || IsBreak(g.Text()[0]))
  {
    if g.Folded? {
      assert g.Text()[0] == if g.before != "" then g.before[0] else g.first.Text()[0];
    }
  }

  // The text between quotes is read if and only if every word starts where one may, no tab indents, and
  // every escape stands for a character; and then it is read as its value.
  lemma {:induction false} TextRead(c: Cursor, q: Quoted, single: bool, indent: int, acc: string, close: string)
    requires Closes(close, single) && q.Formed(single, close) && c.s == q.Text(close)
    ensures TextComesTo(FlowLine(c, single, indent, acc), c, q, indent, acc, close)
    decreases q
  {
    NoNul(q, single, close);
    if q.Last? {
      hide *;
      LastCase(c, q, single, indent, acc, close);
    } else {
      var e := Behind(c, q, close);
      FirstOf(q.rest, single, close);
      if WordFits(q.word) {
        TextRead(e, q.rest, single, indent, acc + WordValue(q.word) + q.gap.Value(), close);
      }
      hide *;
      MoreCase(c, e, q, single, indent, acc, close);
    }
  }

  // Where the text behind the first gap begins.
  function Behind(c: Cursor, q: Quoted, close: string): Cursor
    requires q.More?
  {
    Cursor(q.rest.Text(close), ColumnAfter(q.gap, c.col + |WordText(q.word)|), LineAfter(q.gap, c.line))
  }

  lemma TextIs(c: Cursor, q: Quoted, close: string)
    requires q.More?
    ensures q.Text(close) == WordThen(q.word, GapThen(q.gap, q.rest.Text(close)))
    ensures Behind(c, q, close)
         == Cursor(q.rest.Text(close), ColumnAfter(q.gap, c.col + |WordText(q.word)|), LineAfter(q.gap, c.line))
  {
    hide WordThen, GapThen, WordText;
  }

  lemma LastCase(c: Cursor, q: Quoted, single: bool, indent: int, acc: string, close: string)
    requires q.Last? && Closes(close, single) && WordFormed(q.word, single) && c.s == q.Text(close) && !IsZ(Peek(c.s))
    ensures TextComesTo(FlowLine(c, single, indent, acc), c, q, indent, acc, close)
  {
    assert c.s == WordThen(q.word, close);
    hide *;
    StartRead(c, single, indent, acc);
    WordFirst(c, q.word, close, single, indent, acc);
    if StartFits(c.col, indent, c.s) && WordFits(q.word) {
      ClosedAt(Cursor(close, c.col + |WordText(q.word)|, c.line), single, indent, acc + WordValue(q.word));
      LastAssembled(FlowLine(c, single, indent, acc), c, q, single, indent, acc, close);
    } else {
      Unfit(FlowLine(c, single, indent, acc), c, q, indent, acc, close);
    }
  }

  lemma MoreCase(c: Cursor, e: Cursor, q: Quoted, single: bool, indent: int, acc: string, close: string)
    requires q.More? && Closes(close, single) && WordFormed(q.word, single) && c.s == q.Text(close) && !IsZ(Peek(c.s))
    requires e == Behind(c, q, close) && GapFormed(q.gap, single, e.s) && !IsBlankOrBreakz(Peek(e.s))
    requires !single ==> (Peek(e.s) == '"' <==> q.rest == Last([]))
    requires WordFits(q.word) ==>
               var read := acc + WordValue(q.word) + q.gap.Value();
               TextComesTo(FlowLine(e, single, indent, read), e, q.rest, indent, read, close)
    ensures TextComesTo(FlowLine(c, single, indent, acc), c, q, indent, acc, close)
  {
    hide *;
    var more := GapThen(q.gap, e.s);
    var d := Cursor(more, c.col + |WordText(q.word)|, c.line);
    TextIs(c, q, close);
    StartRead(c, single, indent, acc);
    WordFirst(c, q.word, more, single, indent, acc);
    if StartFits(c.col, indent, c.s) && WordFits(q.word) {
      GapRead(d, q.gap, e.s, single, indent, acc + WordValue(q.word));
      Assembled(FlowLine(c, single, indent, acc), c, d, e, q, single, indent, acc, close);
    } else {
      Unfit(FlowLine(c, single, indent, acc), c, q, indent, acc, close);
    }
  }

  lemma StartRead(c: Cursor, single: bool, indent: int, acc: string)
    requires !IsZ(Peek(c.s))
    ensures StartFits(c.col, indent, c.s) ==> FlowLine(c, single, indent, acc) == FlowText(c, single, indent, acc)
    ensures !StartFits(c.col, indent, c.s) ==> FlowLine(c, single, indent, acc).Err?
  {
    hide FlowText, NextIsDocumentIndicator;
  }

  lemma WordFirst(c: Cursor, w: seq<Atom>, more: string, single: bool, indent: int, acc: string)
    requires WordFormed(w, single) && c.s == WordThen(w, more)
    ensures var r := FlowText(c, single, indent, acc);
            if WordFits(w) then r == FlowText(Cursor(more, c.col + |WordText(w)|, c.line), single, indent, acc + WordValue(w))
            else r.Err?
  {
    hide FlowText, WordText, WordFits, WordFormed, WordValue;
    WordRead(c, w, more, single, indent, acc);
  }

  lemma ClosedAt(d: Cursor, single: bool, indent: int, acc: string)
    requires Closes(d.s, single)
    ensures FlowText(d, single, indent, acc) == Ok(Scanned(acc, d))
  {
  }

  lemma Unfit(r: ScanResult, c: Cursor, q: Quoted, indent: int, acc: string, close: string)
    requires r.Err? && c.s == q.Text(close) && !(StartFits(c.col, indent, c.s) && WordFits(q.word))
    ensures TextComesTo(r, c, q, indent, acc, close)
  {
    hide StartFits, WordFits, Quoted.Text;
  }

  lemma LastAssembled(r: ScanResult, c: Cursor, q: Quoted, single: bool, indent: int, acc: string, close: string)
    requires q.Last? && c.s == q.Text(close) && StartFits(c.col, indent, c.s) && WordFits(q.word)
    requires r == Ok(Scanned(acc + WordValue(q.word), Cursor(close, c.col + |WordText(q.word)|, c.line)))
    ensures TextComesTo(r, c, q, indent, acc, close)
  {
    hide StartFits, WordFits, Quoted.Text, WordText, WordValue;
  }

  lemma Assembled(r: ScanResult, c: Cursor, d: Cursor, e: Cursor, q: Quoted, single: bool, indent: int, acc: string, close: string)
    requires q.More? && c.s == q.Text(close) && StartFits(c.col, indent, c.s) && WordFits(q.word)
    requires d == Cursor(GapThen(q.gap, q.rest.Text(close)), c.col + |WordText(q.word)|, c.line)
    requires e == Cursor(q.rest.Text(close), ColumnAfter(q.gap, d.col), LineAfter(q.gap, c.line))
    requires Closes(close, single) && GapFormed(q.gap, single, e.s)
    requires !single ==> (Peek(e.s) == '"' <==> q.rest == Last([]))
    requires GapComesTo(r, d, q.gap, e.s, single, indent, acc + WordValue(q.word))
    requires var read := acc + WordValue(q.word) + q.gap.Value();
             TextComesTo(FlowLine(e, single, indent, read), e, q.rest, indent, read, close)
    ensures TextComesTo(r, c, q, indent, acc, close)
  {
    assert ClosedThere(q.gap, q.rest) <==> ClosesAt(q.gap, e.s) by { SameClosing(q, e.s, single); }
    if ClosedThere(q.gap, q.rest) {
      assert e.s == close by { assert q.rest.Text(close) == close; }
      GapClosed(r, d, q.gap, e.s, single, indent, acc + WordValue(q.word));
      hide *;
      ClosedCase(r, c, q, indent, acc, close);
    } else {
      GapOnward(r, d, q.gap, e.s, single, indent, acc + WordValue(q.word));
      hide *;
      OnwardCase(r, c, e, q, single, indent, acc, close);
    }
  }

  lemma SameClosing(q: Quoted, after: string, single: bool)
    requires q.More? && GapFormed(q.gap, single, after) && (!single ==> (Peek(after) == '"' <==> q.rest == Last([])))
    ensures ClosedThere(q.gap, q.rest) <==> ClosesAt(q.gap, after)
  {
    hide EmptiesFit, AllBlank, GapText.Apart;
  }

  lemma GapClosed(r: ScanResult, c: Cursor, g: Gap, after: string, single: bool, indent: int, acc: string)
    requires GapComesTo(r, c, g, after, single, indent, acc) && ClosesAt(g, after)
    ensures r == Ok(Scanned(acc, Cursor(after, 0, c.line + 1)))
  {
  }

  lemma GapOnward(r: ScanResult, c: Cursor, g: Gap, after: string, single: bool, indent: int, acc: string)
    requires GapComesTo(r, c, g, after, single, indent, acc) && !ClosesAt(g, after)
    ensures var e := Cursor(after, ColumnAfter(g, c.col), LineAfter(g, c.line));
            if GapFits(g, indent) then r == FlowLine(e, single, indent, acc + g.Value()) else r.Err?
  {
    hide GapFits, FlowLine;
  }

  lemma ClosedCase(r: ScanResult, c: Cursor, q: Quoted, indent: int, acc: string, close: string)
    requires q.More? && ClosedThere(q.gap, q.rest)
    requires c.s == q.Text(close) && StartFits(c.col, indent, c.s) && WordFits(q.word)
    requires r == Ok(Scanned(acc + WordValue(q.word), Cursor(close, 0, c.line + 1)))
    ensures TextComesTo(r, c, q, indent, acc, close)
  {
    assert WordText([]) == "" && WordFits([]);
    assert q.Spelled();
    Valued(acc, q);
    assert GapFits(q.gap, indent);
    assert End(q.rest, Cursor(q.rest.Text(close), 0, c.line + 1), close) == Cursor(close, 0, c.line + 1);
    hide StartFits, WordFits, WordText, Quoted.Text, Quoted.Value, Quoted.Spelled, GapFits;
  }

  lemma OnwardCase(r: ScanResult, c: Cursor, e: Cursor, q: Quoted, single: bool, indent: int, acc: string, close: string)
    requires q.More? && !ClosedThere(q.gap, q.rest)
    requires c.s == q.Text(close) && StartFits(c.col, indent, c.s) && WordFits(q.word)
    requires e == Cursor(q.rest.Text(close), ColumnAfter(q.gap, c.col + |WordText(q.word)|), LineAfter(q.gap, c.line))
    requires var read := acc + WordValue(q.word) + q.gap.Value();
             && (if GapFits(q.gap, indent) then r == FlowLine(e, single, indent, read) else r.Err?)
             && TextComesTo(FlowLine(e, single, indent, read), e, q.rest, indent, read, close)
    ensures TextComesTo(r, c, q, indent, acc, close)
  {
    hide StartFits, WordFits, WordText, Quoted.Text, GapFits, WordValue, FlowLine, ClosedThere;
    if q.rest.Spelled() {
      Valued(acc, q);
    }
    hide Quoted.Value;
  }

  lemma Valued(acc: string, q: Quoted)
    requires q.More? && q.Spelled()
    ensures acc + q.Value() == acc + WordValue(q.word) + q.gap.Value() + q.rest.Value()
    ensures ClosedThere(q.gap, q.rest) ==> acc + q.Value() == acc + WordValue(q.word)
  {
    Grouped(acc, WordValue(q.word), q.gap.Value(), q.rest.Value());
    hide WordFits;
    if ClosedThere(q.gap, q.rest) {
      assert q.gap.Value() + q.rest.Value() == "";
      assert acc + (WordValue(q.word) + "") == acc + WordValue(q.word);
    }
  }

  lemma Grouped(a: string, b: string, c: string, d: string)
    ensures a + (b + (c + d)) == a + b + c + d
  {
  }

  // ------------------------------------------------------------------ the whole scalar

  function Unblanked(s: string): string {
    if s != "" && IsBlank(s[0]) then Unblanked(s[1..]) else s
  }

  // What may stand behind a quoted scalar: the end of the line, a comment that stands apart, in a flow
  // collection what goes on with it or ends it, and the `:` of a key, which in block context is on one line.
  predicate MayFollow(tail: string, inFlow: bool, oneLine: bool) {
    var rest := Unblanked(tail);
    if rest == "" || IsBreakz(rest[0]) then true
    else match rest[0]
      case '#' => rest != tail
      case ',' => inFlow
      case ']' => inFlow
      case '}' => inFlow
      case ':' => inFlow || oneLine
      case _ => false
  }

  // No line ends between the quotes.
  predicate OneLine(q: Quoted) {
    q.More? ==> q.gap.Spaces? && OneLine(q.rest)
  }

  lemma {:induction false} LinesCounted(q: Quoted, c: Cursor, close: string)
    ensures End(q, c, close).line >= c.line && (End(q, c, close).line == c.line <==> OneLine(q))
    ensures End(q, c, close).s == close
    decreases q
  {
    if q.More? {
      LinesCounted(q.rest, Behind(c, q, close), close);
    }
  }

  lemma {:induction false} BlanksCounted(s: string)
    ensures s[LeadingWs(s, true)..] == Unblanked(s)
  {
    if s != "" && IsBlank(s[0]) {
      BlanksCounted(s[1..]);
    } else {
      assert s[0..] == s;
    }
  }

  lemma Finished(value: string, c: Cursor, startLine: nat, flowLevel: nat)
    requires c.s != ""
    ensures var r := FinishFlow(value, c, startLine, flowLevel);
            && (r.Ok? <==> MayFollow(c.s[1..], flowLevel > 0, startLine == c.line))
            && (r.Ok? ==> r.value.value == value)
  {
    var tail := c.s[1..];
    var n := LeadingWs(tail, true);
    BlanksCounted(tail);
    assert PeekNth(tail, n) == Peek(Unblanked(tail));
    var eol := SkipWsToEol(tail, true);
    assert Skip(Skip(c, 1), eol.count).s == tail[eol.count..];
    assert Peek(tail[eol.count..]) == PeekNth(tail, eol.count);
    if PeekNth(tail, n) == '#' && n > 0 {
      var k := LeadingNonBreakz(tail[n..]);
      assert PeekNth(tail[n..], k) == PeekNth(tail, n + k);
    }
  }

  // A quoted scalar, whatever its words, escapes, blanks, breaks and empty lines, is read if and only
  // if its lines fit and something follows it that may; and its value is that of its words and gaps.
  lemma QuotedRead(c: Cursor, q: Quoted, single: bool, indent: int, flowLevel: nat, tail: string)
    requires var quote := if single then '\'' else '"';
             && (single ==> Peek(tail) != '\'')
             && q.Formed(single, [quote] + tail) && c.s == [quote] + q.Text([quote] + tail)
    ensures var close := [if single then '\'' else '"'] + tail;
            var r := ScanFlow(c, single, indent, flowLevel);
            && (r.Ok? <==> Fits(q, c.col + 1, indent, close) && MayFollow(tail, flowLevel > 0, OneLine(q)))
            && (r.Ok? ==> q.Spelled() && r.value.value == q.Value())
  {
    var close := [if single then '\'' else '"'] + tail;
    assert c.s[1..] == q.Text(close);
    assert close[1..] == tail && Closes(close, single) by { assert single ==> PeekNth(close, 1) == Peek(tail); }
    hide *;
    var d := Cursor(q.Text(close), c.col + 1, c.line);
    TextRead(d, q, single, indent, [], close);
    LinesCounted(q, d, close);
    QuotedJudged(c, d, q, single, indent, flowLevel, close);
  }

  lemma QuotedJudged(c: Cursor, d: Cursor, q: Quoted, single: bool, indent: int, flowLevel: nat, close: string)
    requires close != "" && d == Skip(c, 1) && TextComesTo(FlowLine(d, single, indent, []), d, q, indent, [], close)
    requires End(q, d, close).s == close && (End(q, d, close).line == c.line <==> OneLine(q))
    ensures var r := ScanFlow(c, single, indent, flowLevel);
            && (r.Ok? <==> Fits(q, c.col + 1, indent, close) && MayFollow(close[1..], flowLevel > 0, OneLine(q)))
            && (r.Ok? ==> q.Spelled() && r.value.value == q.Value())
  {
    hide FlowLine, Fits, MayFollow, FinishFlow, OneLine, Quoted.Value, Quoted.Spelled, End;
    if Fits(q, c.col + 1, indent, close) {
      assert [] + q.Value() == q.Value();
      Finished(q.Value(), End(q, d, close), c.line, flowLevel);
    }
  }
}
