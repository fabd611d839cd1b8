// What a block scalar stands for, said of its header and its lines, and the scanner's reading of it
// (YAML 1.2, section 8.1; crates/yamluna-scanner/src/scanner.rs).
module BlockValue {
  import opened CharTraits
  import opened Input
  import opened Results
  import opened FlowScan
  import opened BlockScan
  import opened GapText

  // ------------------------------------------------------------------ the header

  // The indicators in either order, white space and a comment, and the end of the line or of the input.
  datatype Head = Head(chomping: Chomping, digit: nat, digitFirst: bool, blanks: string, comment: string, end: Option<Break>) {
    function Sign(): string {
      match chomping
      case Strip => "-"
      case Clip => ""
      case Keep => "+"
    }

    function Number(): string
      requires digit <= 9
    {
      if digit == 0 then "" else [('0' as int + digit) as char]
    }

    function Indicators(): string
      requires digit <= 9
    {
      if digitFirst then Number() + Sign() else Sign() + Number()
    }

    // The end of the line and all behind it.
    function EndText(content: string): string {
      if end.None? then "" else end.value.Text() + content
    }

    // What stands behind the indicators.
    function LineText(content: string): string {
      blanks + (comment + EndText(content))
    }

    function Text(content: string): string
      requires digit <= 9
    {
      Indicators() + LineText(content)
    }

    // A comment stands apart; without a break there is no content.
    predicate Formed(content: string) {
      && digit <= 9 && AllBlank(blanks)
      && (comment != "" ==> comment[0] == '#' && blanks != "" && forall k | 0 <= k < |comment| :: !IsBreakz(comment[k]))
      && (end.Some? ==> Apart(end.value, content))
    }
  }

  // ------------------------------------------------------------------ the lines

  function Pad(n: nat): (s: string)
    ensures |s| == n && forall k | 0 <= k < n :: s[k] == ' '
  {
    if n == 0 then "" else " " + Pad(n - 1)
  }

  // A line of content, the empty lines behind it, and what follows; a line that the input ends
  // behind; or, behind the last line, where something stands further out or the input ends.
  datatype Body =
    | Line(text: string, end: Break, empties: seq<Empty>, rest: Body)
    | Open(text: string)
    | Stop(spaces: nat, stop: string)
  {
    // The text from the first character of the line on.
    function Text(indent: nat): string {
      match this
      case Line(text, end, empties, rest) =>
        text + (end.Text() + (EmptiesText(empties) + (Pad(rest.Column(indent)) + rest.Text(indent))))
      case Open(text) => text
      case Stop(_, stop) => stop
    }

    function Column(indent: nat): nat {
      if Stop? then spaces else indent
    }

    // Where the text begins that is not the scalar's, and on which line.
    function End(indent: nat, line: nat): Cursor {
      match this
      case Line(_, _, empties, rest) => rest.End(indent, line + 1 + |empties|)
      case Open(text) => Cursor("", indent + |text|, line)
      case Stop(spaces, stop) => Cursor(stop, spaces, line)
    }
  }

  // Empty lines hold no more spaces than the indentation.
  predicate EmptiesIn(empties: seq<Empty>, indent: nat) {
    forall i | 0 <= i < |empties| ::
      |empties[i].blanks| <= indent && forall k | 0 <= k < |empties[i].blanks| :: empties[i].blanks[k] == ' '
  }

  // A line of content: not empty, no marker of a document's end where content is not indented.
  predicate LineFormed(text: string, after: string, indent: nat) {
    && text != "" && (forall k | 0 <= k < |text| :: !IsBreakz(text[k]))
    && !(indent == 0 && NextIsDocumentEnd(text + after))
  }

  predicate AtEnd(stop: string) {
    stop == "" || IsZ(stop[0])
  }

  predicate BodyFormed(b: Body, indent: nat) {
    match b
    case Line(text, end, empties, rest) =>
      var next := Pad(rest.Column(indent)) + rest.Text(indent);
      && LineFormed(text, end.Text() + (EmptiesText(empties) + next), indent)
      && Apart(end, EmptiesText(empties) + next) && EmptiesFit(empties, next) && EmptiesIn(empties, indent)
      && BodyFormed(rest, indent)
    case Open(text) => LineFormed(text, "", indent)
    case Stop(spaces, stop) =>
      if AtEnd(stop) then spaces <= indent
      else !IsBreak(stop[0]) && ((spaces < indent && stop[0] != ' ') || (indent == 0 && spaces == 0 && NextIsDocumentEnd(stop)))
  }

  // ------------------------------------------------------------------ the value

  predicate White(text: string) {
    text != "" && IsBlank(text[0])
  }

  // What stands between two lines with `n` empty ones between them: in a literal scalar, and around lines that
  // begin with white space, every break; elsewhere a single break is a space, and of more one is left out.
  function Between(literal: bool, prev: string, n: nat, next: string): string {
    if literal || White(prev) || White(next) then Feeds(n + 1)
    else if n == 0 then " "
    else Feeds(n)
  }

  // What stands behind the last line, which has `n` empty ones behind it: by the chomping indicator nothing, the
  // break, or all breaks. White space that the input ends in, as far in as the content, counts for a break.
  function Tail(chomping: Chomping, n: nat, b: Body, indent: nat): string
    requires b.Stop?
  {
    var open := if AtEnd(b.stop) && b.spaces >= indent && b.spaces > 0 then "\n" else "";
    match chomping
    case Strip => ""
    case Clip => "\n" + open
    case Keep => "\n" + open + Feeds(n)
  }

  // The value from a line on.
  function Value(b: Body, literal: bool, chomping: Chomping, indent: nat): string
    requires !b.Stop?
    decreases b, 0
  {
    match b
    case Open(text) => text + if chomping == Strip then "" else "\n"
    case Line(text, _, empties, rest) => text + Behind(text, |empties|, rest, literal, chomping, indent)
  }

  // The value behind a line, with `n` empty lines behind that.
  function Behind(prev: string, n: nat, b: Body, literal: bool, chomping: Chomping, indent: nat): string
    decreases b, 1
  {
    if b.Stop? then Tail(chomping, n, b, indent)
    else Between(literal, prev, n, b.text) + Value(b, literal, chomping, indent)
  }

  // The whole value: `lead` are the empty lines in front of the first. Where there is no content at all, empty lines are
  // kept if asked for, and in the end of the input the break of the header takes their place.
  function ScalarValue(head: Head, lead: nat, b: Body, literal: bool, indent: nat): string {
    if !b.Stop? then Feeds(lead) + Value(b, literal, head.chomping, indent)
    else if head.chomping == Strip || head.end.None? then ""
    else if AtEnd(b.stop) then if head.chomping == Keep && lead > 0 then Feeds(lead) else "\n"
    else if head.chomping == Keep then Feeds(lead) else ""
  }

  // ------------------------------------------------------------------ the indentation

  // The indentation is the one asked for, further in than `outer`; or that of the first line of content, which no
  // empty line in front of it exceeds; or, where there is none, that of the longest empty line.
  predicate Settled(head: Head, lead: seq<Empty>, b: Body, indent: nat, outer: int)
    requires outer >= -1
  {
    if head.digit > 0 then indent == (if outer >= 0 then outer + head.digit else head.digit)
    else
      && indent >= outer + 1
      && (!b.Stop? ==> b.text != "" && b.text[0] != ' ')
      && (b.Stop? ==> indent == outer + 1 || indent == b.spaces || exists i | 0 <= i < |lead| :: |lead[i].blanks| == indent)
  }

  // ------------------------------------------------------------------ reading indentation

  lemma {:induction false} SpacesSkipped(c: Cursor, b: string, rest: string, indent: nat)
    requires c.s == b + rest && c.col + |b| <= indent && forall k | 0 <= k < |b| :: b[k] == ' '
    ensures SkipIndent(c, indent) == SkipIndent(Cursor(rest, c.col + |b|, c.line), indent)
    decreases |b|
  {
    if b == "" {
      assert c.s == rest;
    } else {
      assert c.s[1..] == b[1..] + rest;
      SpacesSkipped(Skip(c, 1), b[1..], rest, indent);
    }
  }

  // What a line begins with that is not one of the empty lines in front of it.
  predicate Begins(rest: string, col: nat, indent: nat) {
    rest == "" || (!IsBreak(rest[0]) && (rest[0] == ' ' ==> col >= indent))
  }

  lemma EmptySkipped(c: Cursor, e: Empty, next: string, line: string, indent: nat)
    requires c.col == 0 && |e.blanks| <= indent && forall k | 0 <= k < |e.blanks| :: e.blanks[k] == ' '
    requires GapText.Apart(e.end, next) && line == e.end.Text() + next && c.s == e.blanks + line
    ensures var r := SkipIndent(Cursor(next, 0, c.line + 1), indent);
            SkipIndent(c, indent) == Indented(r.breaks + 1, r.c)
  {
    SpacesSkipped(c, e.blanks, line, indent);
    BreakRead(Cursor(line, |e.blanks|, c.line), e.end, next);
  }

  // Empty lines, and the spaces in front of what follows.
  lemma {:induction false} LinesSkipped(c: Cursor, empties: seq<Empty>, spaces: nat, stop: string, rest: string, indent: nat)
    requires c.col == 0 && rest == Pad(spaces) + stop && c.s == EmptiesText(empties) + rest
    requires EmptiesFit(empties, rest) && EmptiesIn(empties, indent) && spaces <= indent && Begins(stop, spaces, indent)
    ensures SkipIndent(c, indent) == Indented(|empties|, Cursor(stop, spaces, c.line + |empties|))
    decreases |empties|
  {
    EmptiesSplit(empties, rest);
    if empties == [] {
      SpacesSkipped(c, Pad(spaces), stop, indent);
    } else {
      assert EmptiesIn(empties[1..], indent) by { RestIn(empties, indent); }
      var next := EmptiesText(empties[1..]) + rest;
      EmptySkipped(c, empties[0], next, empties[0].end.Text() + next, indent);
      hide *;
      LinesSkipped(Cursor(next, 0, c.line + 1), empties[1..], spaces, stop, rest, indent);
    }
  }

  lemma RestIn(empties: seq<Empty>, indent: nat)
    requires empties != [] && EmptiesIn(empties, indent)
    ensures EmptiesIn(empties[1..], indent) && |empties[0].blanks| <= indent
    ensures forall k | 0 <= k < |empties[0].blanks| :: empties[0].blanks[k] == ' '
  {
    assert forall i | 0 <= i < |empties[1..]| :: empties[1..][i] == empties[i + 1];
  }

  function Longest(empties: seq<Empty>, spaces: nat): nat {
    if empties == [] then spaces
    else
      var n := Longest(empties[1..], spaces);
      if |empties[0].blanks| > n then |empties[0].blanks| else n
  }

  lemma {:induction false} FirstSpaces(c: Cursor, b: string, rest: string, max: nat)
    requires c.s == b + rest && forall k | 0 <= k < |b| :: b[k] == ' '
    ensures SkipFirstIndent(c, max) == SkipFirstIndent(Cursor(rest, c.col + |b|, c.line), max)
    decreases |b|
  {
    if b == "" {
      assert c.s == rest;
    } else {
      assert c.s[1..] == b[1..] + rest;
      FirstSpaces(Skip(c, 1), b[1..], rest, max);
    }
  }

  function Larger(a: nat, b: nat): nat {
    if a > b then a else b
  }

  lemma FirstEmpty(c: Cursor, e: Empty, next: string, line: string, max: nat)
    requires c.col == 0 && forall k | 0 <= k < |e.blanks| :: e.blanks[k] == ' '
    requires GapText.Apart(e.end, next) && line == e.end.Text() + next && c.s == e.blanks + line
    ensures var r := SkipFirstIndent(Cursor(next, 0, c.line + 1), Larger(max, |e.blanks|));
            SkipFirstIndent(c, max) == FirstIndented(r.max, r.breaks + 1, r.c)
  {
    FirstSpaces(c, e.blanks, line, max);
    BreakRead(Cursor(line, |e.blanks|, c.line), e.end, next);
  }

  lemma {:induction false} FirstLines(c: Cursor, empties: seq<Empty>, spaces: nat, stop: string, rest: string, indent: nat, max: nat)
    requires c.col == 0 && rest == Pad(spaces) + stop && c.s == EmptiesText(empties) + rest
    requires EmptiesFit(empties, rest) && EmptiesIn(empties, indent)
    requires stop == "" || (!IsBreak(stop[0]) && stop[0] != ' ')
    ensures SkipFirstIndent(c, max)
         == FirstIndented(Larger(max, Longest(empties, spaces)), |empties|, Cursor(stop, spaces, c.line + |empties|))
    decreases |empties|
  {
    EmptiesSplit(empties, rest);
    if empties == [] {
      FirstSpaces(c, Pad(spaces), stop, max);
    } else {
      RestIn(empties, indent);
      var next := EmptiesText(empties[1..]) + rest;
      FirstEmpty(c, empties[0], next, empties[0].end.Text() + next, max);
      hide SkipFirstIndent, EmptiesText, EmptiesFit, EmptiesIn;
      FirstLines(Cursor(next, 0, c.line + 1), empties[1..], spaces, stop, rest, indent, Larger(max, |empties[0].blanks|));
    }
  }

  lemma {:induction false} LongestIs(empties: seq<Empty>, spaces: nat, indent: nat)
    requires EmptiesIn(empties, indent) && spaces <= indent
    ensures Longest(empties, spaces) <= indent && Longest(empties, spaces) >= spaces
    ensures forall i | 0 <= i < |empties| :: |empties[i].blanks| <= Longest(empties, spaces)
  {
    if empties != [] {
      RestIn(empties, indent);
      LongestIs(empties[1..], spaces, indent);
      forall i | 0 <= i < |empties| ensures |empties[i].blanks| <= Longest(empties, spaces) {
        assert i > 0 ==> empties[i] == empties[1..][i - 1];
      }
    }
  }

  // ------------------------------------------------------------------ reading lines

  lemma {:induction false} FeedsAre(n: nat)
    ensures Newlines(n) == Feeds(n)
  {
    if n > 0 {
      FeedsAre(n - 1);
      assert Newlines(n) == ['\n'] + Newlines(n - 1);
    }
  }

  lemma {:induction false} TextCounted(text: string, after: string)
    requires (forall k | 0 <= k < |text| :: !IsBreakz(text[k])) && IsBreakz(Peek(after))
    ensures LeadingNonBreakz(text + after) == |text|
  {
    if text == "" {
      assert text + after == after;
    } else {
      assert (text + after)[1..] == text[1..] + after;
      TextCounted(text[1..], after);
    }
  }

  lemma SeparatorIs(literal: bool, prev: Option<string>, n: nat, next: string, first: bool, white: bool)
    requires first == prev.None? && (prev.Some? ==> white == White(prev.value)) && next != ""
    ensures Separator(literal, first, white, IsBlank(next[0]), n)
         == if prev.None? then Feeds(n) else Between(literal, prev.value, n, next)
  {
    FeedsAre(n);
  }

  // What is in front of the line: the breaks in front of all content, or what stands between two lines.
  function InFront(literal: bool, prev: Option<string>, n: nat, next: string): string {
    if prev.None? then Feeds(n) else Between(literal, prev.value, n, next)
  }

  // A line of content, read up to its end.
  lemma LineRead(c: Cursor, text: string, after: string, indent: nat, literal: bool, chomping: Chomping, str: string,
                 prev: Option<string>, n: nat, white: bool)
    requires LineFormed(text, after, indent) && IsBreakz(Peek(after)) && c.s == text + after && c.col == indent
    requires prev.Some? ==> white == White(prev.value)
    ensures var line := str + InFront(literal, prev, n, text) + text;
            var d := Cursor(after, indent + |text|, c.line);
            BlockLines(c, indent, literal, chomping, str, prev.None?, n, white)
              == if IsZ(Peek(after)) then Chomp(d, indent, chomping, line, true, 0)
                 else
                   var next := SkipIndent(SkipBreak(d), indent);
                   BlockLines(next.c, indent, literal, chomping, line, false, next.breaks, White(text))
  {
    LineThere(c, text, after, indent);
    SeparatorIs(literal, prev, n, text, prev.None?, white);
    assert Separator(literal, prev.None?, white, White(text), n) == InFront(literal, prev, n, text);
    hide Chomp, SkipIndent, Separator, InFront, NextIsDocumentEnd, LeadingNonBreakz, SkipBreak, LineFormed, White, Skip;
  }

  lemma LineThere(c: Cursor, text: string, after: string, indent: nat)
    requires LineFormed(text, after, indent) && IsBreakz(Peek(after)) && c.s == text + after && c.col == indent
    ensures !IsZ(Peek(c.s)) && !(indent == 0 && NextIsDocumentEnd(c.s)) && IsBlank(Peek(c.s)) == White(text)
    ensures LeadingNonBreakz(c.s) == |text| && c.s[..|text|] == text && Skip(c, |text|) == Cursor(after, indent + |text|, c.line)
  {
    TextCounted(text, after);
    assert c.s[0] == text[0] && c.s[|text|..] == after;
  }

  // How the value goes on from a line.
  ghost predicate LinesComeTo(r: Scanned, c: Cursor, b: Body, literal: bool, chomping: Chomping, indent: nat,
                              str: string, prev: Option<string>, n: nat)
    requires b.Stop? ==> prev.Some?
  {
    && r.end == b.End(indent, c.line)
    && r.value == str + if b.Stop? then Tail(chomping, n, b, indent)
                        else InFront(literal, prev, n, b.text) + Value(b, literal, chomping, indent)
  }

  // From the first character of a line of content, or of what ends it, the value is read.
  lemma {:induction false} LinesRead(c: Cursor, b: Body, literal: bool, chomping: Chomping, indent: nat, str: string,
                                     prev: Option<string>, n: nat, white: bool)
    requires BodyFormed(b, indent) && c.s == b.Text(indent) && c.col == b.Column(indent)
    requires (b.Stop? ==> prev.Some?) && (prev.Some? ==> white == White(prev.value))
    ensures LinesComeTo(BlockLines(c, indent, literal, chomping, str, prev.None?, n, white), c, b, literal, chomping, indent, str, prev, n)
    decreases b
  {
    match b
    case Stop(spaces, stop) => StopRead(c, b, literal, chomping, indent, str, n, white);
    case Open(text) => OpenRead(c, b, literal, chomping, indent, str, prev, n, white);
    case Line(text, end, empties, rest) =>
      var line := str + InFront(literal, prev, n, text) + text;
      var e := Cursor(rest.Text(indent), rest.Column(indent), c.line + 1 + |empties|);
      NextRead(c, b, literal, chomping, indent, str, prev, n, white);
      LinesRead(e, rest, literal, chomping, indent, line, Some(text), |empties|, White(text));
      hide BlockLines, BodyFormed, Body.Text, Body.Column;
      Assembled(BlockLines(e, indent, literal, chomping, line, false, |empties|, White(text)), c, e, b, literal, chomping,
                indent, str, prev, n);
  }

  lemma StopRead(c: Cursor, b: Body, literal: bool, chomping: Chomping, indent: nat, str: string, n: nat, white: bool)
    requires b.Stop? && BodyFormed(b, indent) && c == Cursor(b.stop, b.spaces, c.line)
    ensures BlockLines(c, indent, literal, chomping, str, false, n, white) == Scanned(str + Tail(chomping, n, b, indent), c)
  {
    FeedsAre(n);
    assert BlockLines(c, indent, literal, chomping, str, false, n, white) == Chomp(c, indent, chomping, str, false, n);
    var open := if AtEnd(b.stop) && b.spaces >= indent && b.spaces > 0 then "\n" else "";
    hide BlockLines;
    assert str + "" == str;
    assert str + "\n" + open == str + ("\n" + open);
    assert str + ("\n" + open) + Feeds(n) == str + ("\n" + open + Feeds(n));
  }

  lemma OpenRead(c: Cursor, b: Body, literal: bool, chomping: Chomping, indent: nat, str: string, prev: Option<string>, n: nat, white: bool)
    requires b.Open? && BodyFormed(b, indent) && c.s == b.text && c.col == indent && (prev.Some? ==> white == White(prev.value))
    ensures LinesComeTo(BlockLines(c, indent, literal, chomping, str, prev.None?, n, white), c, b, literal, chomping, indent, str, prev, n)
  {
    assert c.s == b.text + "" && b.text != "";
    LineRead(c, b.text, "", indent, literal, chomping, str, prev, n, white);
    var front := InFront(literal, prev, n, b.text);
    var d := Cursor("", indent + |b.text|, c.line);
    hide BlockLines, LineFormed, InFront, White;
    var line := str + front + b.text;
    OpenChomped(d, indent, chomping, line);
    hide Chomp;
    Regrouped(str, front, b.text, if chomping == Strip then "" else "\n");
  }

  lemma OpenChomped(d: Cursor, indent: nat, chomping: Chomping, line: string)
    requires d.s == "" && d.col >= indent && d.col > 0
    ensures Chomp(d, indent, chomping, line, true, 0) == Scanned(line + if chomping == Strip then "" else "\n", d)
  {
    assert Newlines(0) == "" && line + [] == line;
    assert (line + "\n") + "" == line + "\n";
  }

  lemma Regrouped(a: string, b: string, c: string, d: string)
    ensures ((a + b) + c) + d == a + (b + (c + d))
  {
  }

  lemma NextRead(c: Cursor, b: Body, literal: bool, chomping: Chomping, indent: nat, str: string, prev: Option<string>, n: nat, white: bool)
    requires b.Line? && BodyFormed(b, indent) && c.s == b.Text(indent) && c.col == indent && (prev.Some? ==> white == White(prev.value))
    ensures var e := Cursor(b.rest.Text(indent), b.rest.Column(indent), c.line + 1 + |b.empties|);
            BlockLines(c, indent, literal, chomping, str, prev.None?, n, white)
              == BlockLines(e, indent, literal, chomping, str + InFront(literal, prev, n, b.text) + b.text, false,
                            |b.empties|, White(b.text))
  {
    var next := Pad(b.rest.Column(indent)) + b.rest.Text(indent);
    var lines := EmptiesText(b.empties) + next;
    RestBegins(b.rest, indent);
    BreakThere(b.end, lines);
    NextSteps(c, b, b.end.Text() + lines, lines, next, b.rest.Text(indent), literal, chomping, indent, str, prev, n, white);
  }

  lemma NextSteps(c: Cursor, b: Body, after: string, lines: string, next: string, rest: string, literal: bool, chomping: Chomping,
                  indent: nat, str: string, prev: Option<string>, n: nat, white: bool)
    requires b.Line? && c.s == b.text + after && c.col == indent && (prev.Some? ==> white == White(prev.value))
    requires after == b.end.Text() + lines && lines == EmptiesText(b.empties) + next && next == Pad(b.rest.Column(indent)) + rest
    requires LineFormed(b.text, after, indent) && IsBreakz(Peek(after)) && !IsZ(Peek(after))
    requires GapText.Apart(b.end, lines) && EmptiesFit(b.empties, next) && EmptiesIn(b.empties, indent)
    requires b.rest.Column(indent) <= indent && Begins(rest, b.rest.Column(indent), indent)
    ensures var e := Cursor(rest, b.rest.Column(indent), c.line + 1 + |b.empties|);
            BlockLines(c, indent, literal, chomping, str, prev.None?, n, white)
              == BlockLines(e, indent, literal, chomping, str + InFront(literal, prev, n, b.text) + b.text, false,
                            |b.empties|, White(b.text))
  {
    hide *;
    LineRead(c, b.text, after, indent, literal, chomping, str, prev, n, white);
    BreakRead(Cursor(after, indent + |b.text|, c.line), b.end, lines);
    LinesSkipped(Cursor(lines, 0, c.line + 1), b.empties, b.rest.Column(indent), rest, next, indent);
  }

  lemma BreakThere(b: Break, lines: string)
    ensures IsBreakz(Peek(b.Text() + lines)) && !IsZ(Peek(b.Text() + lines))
  {
    assert (b.Text() + lines)[0] == b.Text()[0];
  }

  lemma RestBegins(b: Body, indent: nat)
    requires BodyFormed(b, indent)
    ensures b.Column(indent) <= indent && Begins(b.Text(indent), b.Column(indent), indent)
  {
    if b.Line? {
      assert b.Text(indent)[0] == b.text[0];
    }
  }

  lemma Assembled(r: Scanned, c: Cursor, e: Cursor, b: Body, literal: bool, chomping: Chomping, indent: nat, str: string,
                  prev: Option<string>, n: nat)
    requires b.Line? && e.line == c.line + 1 + |b.empties|
    requires LinesComeTo(r, e, b.rest, literal, chomping, indent, str + InFront(literal, prev, n, b.text) + b.text,
                         Some(b.text), |b.empties|)
    ensures LinesComeTo(r, c, b, literal, chomping, indent, str, prev, n)
  {
    var front := InFront(literal, prev, n, b.text);
    var behind := Behind(b.text, |b.empties|, b.rest, literal, chomping, indent);
    assert r.value == str + front + b.text + behind;
    assert str + front + b.text + behind == str + (front + (b.text + behind));
  }

  // ------------------------------------------------------------------ reading the header

  lemma IndicatorsRead(head: Head, more: string)
    requires head.digit <= 9 && (more == "" || IsBlankOrBreakz(more[0]))
    ensures ReadHeader(head.Indicators() + more) == Ok(Header(head.chomping, head.digit, |head.Indicators()|))
    ensures (head.Indicators() + more)[|head.Indicators()|..] == more
  {
    var s := head.Indicators() + more;
    assert forall k | 0 <= k < |head.Indicators()| :: s[k] == head.Indicators()[k];
    assert PeekNth(s, |head.Indicators()|) == Peek(more);
  }

  lemma {:induction false} BlanksCounted(b: string, rest: string)
    requires AllBlank(b) && !IsBlank(Peek(rest))
    ensures LeadingWs(b + rest, true) == |b|
  {
    if b == "" {
      assert b + rest == rest;
    } else {
      assert (b + rest)[1..] == b[1..] + rest;
      BlanksCounted(b[1..], rest);
    }
  }

  lemma EndOfHeader(blanks: string, comment: string, rest: string)
    requires AllBlank(blanks) && IsBreakz(Peek(rest))
    requires comment != "" ==> comment[0] == '#' && blanks != "" && forall k | 0 <= k < |comment| :: !IsBreakz(comment[k])
    ensures var eol := SkipWsToEol(blanks + (comment + rest), true); eol.ok && eol.count == |blanks| + |comment|
    ensures (blanks + (comment + rest))[|blanks| + |comment|..] == rest
  {
    var more := comment + rest;
    assert Peek(more) == if comment == "" then Peek(rest) else comment[0];
    BlanksCounted(blanks, more);
    assert (blanks + more)[|blanks|..] == more;
    assert PeekNth(blanks + more, |blanks|) == Peek(more);
    if comment != "" {
      TextCounted(comment, rest);
    } else {
      assert more == rest;
    }
  }

  // The characters around the indicators, the comment and the end of the line.
  lemma HeaderFirsts(head: Head, content: string)
    requires head.Formed(content)
    ensures head.digit <= 9 && (head.end.Some? ==> GapText.Apart(head.end.value, content))
    ensures var rest, more := head.EndText(content), head.LineText(content);
            && IsBreakz(Peek(rest)) && (more == "" || IsBlankOrBreakz(more[0]))
            && var eol := SkipWsToEol(more, true); eol.ok && eol.count <= |more| && more[eol.count..] == rest
  {
    var rest, more := head.EndText(content), head.LineText(content);
    if head.end.Some? {
      assert rest[0] == head.end.value.Text()[0];
    }
    if head.blanks == "" {
      assert head.comment == "" && more == rest;
    } else {
      assert more[0] == head.blanks[0];
    }
    EndOfHeader(head.blanks, head.comment, rest);
  }

  // The header is read as what it says, and what stands behind its line is read as the body.
  lemma HeaderRead(c: Cursor, head: Head, content: string, literal: bool, outer: int, h: Header)
    requires outer >= -1 && head.Formed(content) && c.s != "" && c.s[1..] == head.Text(content)
    requires h == Header(head.chomping, head.digit, |head.Indicators()|)
    requires head.end.Some? && Peek(content) != '\t'
    ensures ScanBlock(c, literal, outer) == ScanBlockBody(Cursor(content, 0, c.line + 1), literal, outer, h, true, c.line)
  {
    hide GapText.Apart, Peek, ScanBlock, ScanBlockBody, ScanBlockRest, Head.Text, Head.LineText, Head.EndText, Head.Indicators, Head.Formed;
    HeaderFirsts(head, content);
    IndicatorsSkipped(c, head, content, literal, outer, h);
    LineSkipped(Cursor(head.LineText(content), c.col + 1 + h.len, c.line), head, content, h, literal, outer);
  }

  lemma IndicatorsSkipped(c: Cursor, head: Head, content: string, literal: bool, outer: int, h: Header)
    requires head.digit <= 9 && outer >= -1 && c.s != "" && c.s[1..] == head.Text(content)
    requires h == Header(head.chomping, head.digit, |head.Indicators()|)
    requires var more := head.LineText(content); more == "" || IsBlankOrBreakz(more[0])
    ensures ScanBlock(c, literal, outer)
         == ScanBlockRest(Cursor(head.LineText(content), c.col + 1 + h.len, c.line), literal, outer, h, c.line)
  {
    IndicatorsRead(head, head.LineText(content));
    hide ReadHeader, Head.Indicators, Head.LineText;
    assert Drop(c.s, 1) == head.Indicators() + head.LineText(content);
    assert Skip(Skip(c, 1), h.len) == Cursor(head.LineText(content), c.col + 1 + h.len, c.line);
    hide Head.Text, ScanBlockRest, Skip, Drop;
  }

  lemma LineSkipped(d: Cursor, head: Head, content: string, h: Header, literal: bool, outer: int)
    requires outer >= -1 && IsBreakz(Peek(head.EndText(content))) && head.end.Some? && Peek(content) != '\t'
    requires GapText.Apart(head.end.value, content)
    requires var eol := SkipWsToEol(d.s, true); eol.ok && eol.count <= |d.s| && d.s[eol.count..] == head.EndText(content)
    ensures ScanBlockRest(d, literal, outer, h, d.line) == ScanBlockBody(Cursor(content, 0, d.line + 1), literal, outer, h, true, d.line)
  {
    var n := SkipWsToEol(d.s, true).count;
    var e := Cursor(head.EndText(content), d.col + n, d.line);
    assert Skip(d, n) == e;
    BreakRead(e, head.end.value, content);
    hide SkipWsToEol, ScanBlockBody, SkipBreak, Head.EndText, Skip;
  }

  // The input ends behind the header.
  lemma NothingBehind(c: Cursor, head: Head, literal: bool, outer: int, h: Header, indent: nat)
    requires outer >= -1 && head.Formed("") && c.s != "" && c.s[1..] == head.Text("") && head.end.None?
    requires h == Header(head.chomping, head.digit, |head.Indicators()|)
    ensures var r := ScanBlock(c, literal, outer);
            r.Ok? && r.value.value == ScalarValue(head, 0, Stop(0, ""), literal, indent)
  {
    HeaderFirsts(head, "");
    IndicatorsSkipped(c, head, "", literal, outer, h);
    var d := Cursor(head.LineText(""), c.col + 1 + h.len, c.line);
    assert head.EndText("") == "";
    hide Head.LineText, Head.Text, ReadHeader, Head.Indicators, Head.Formed, ScanBlock;
    var n := SkipWsToEol(d.s, true).count;
    var e := Cursor("", d.col + n, d.line);
    assert Skip(d, n) == e;
    hide SkipWsToEol, Skip;
    assert ScanBlockRest(d, literal, outer, h, c.line) == ScanBlockBody(e, literal, outer, h, false, c.line) by {
      hide ScanBlockBody;
    }
    hide ScanBlockRest;
  }

  // ------------------------------------------------------------------ the whole scalar

  // The content, its lines one by one.
  function Content(lead: seq<Empty>, b: Body, indent: nat): string {
    EmptiesText(lead) + (Pad(b.Column(indent)) + b.Text(indent))
  }

  predicate ContentFormed(lead: seq<Empty>, b: Body, indent: nat) {
    EmptiesFit(lead, Pad(b.Column(indent)) + b.Text(indent)) && EmptiesIn(lead, indent) && BodyFormed(b, indent)
  }

  // Something stands where the content should, further in than what is around it but not far enough.
  predicate WrongLine(b: Body, indent: nat, outer: int) {
    b.Stop? && !AtEnd(b.stop) && outer < b.spaces < indent
  }

  // The text of the body is its lines, the first of them at `g`, and its indentation is settled.
  predicate BodyGiven(f: Cursor, g: Cursor, head: Head, lead: seq<Empty>, b: Body, indent: nat, outer: int)
    requires outer >= -1
  {
    && g == Cursor(b.Text(indent), b.Column(indent), f.line + |lead|)
    && f.col == 0 && f.s == Content(lead, b, indent) && ContentFormed(lead, b, indent)
    && Settled(head, lead, b, indent, outer) && head.end.Some?
  }

  // The search for the first line of content gets to `g`, past `n` empty lines, and the indentation is `indent`.
  predicate FirstFound(f: Cursor, g: Cursor, head: Head, indent: nat, outer: int, n: nat)
    requires outer >= -1
  {
    if head.digit > 0 then
      indent == (if outer >= 0 then outer + head.digit else head.digit) && SkipIndent(f, indent) == Indented(n, g)
    else
      var first := SkipFirstIndent(f, 0);
      first.breaks == n && first.c == g && FirstIndent(first.max, outer) == indent
  }

  lemma FirstLineFound(f: Cursor, g: Cursor, head: Head, lead: seq<Empty>, b: Body, indent: nat, outer: int)
    requires outer >= -1 && BodyGiven(f, g, head, lead, b, indent, outer)
    ensures head.end.Some? && BodyFormed(b, indent) && g == Cursor(b.Text(indent), b.Column(indent), f.line + |lead|)
    ensures FirstFound(f, g, head, indent, outer, |lead|)
  {
    var rest := Pad(b.Column(indent)) + b.Text(indent);
    RestBegins(b, indent);
    if head.digit > 0 {
      LinesSkipped(f, lead, b.Column(indent), b.Text(indent), rest, indent);
    } else {
      LongestIs(lead, b.Column(indent), indent);
      StopBegins(b, indent);
      FirstLines(f, lead, b.Column(indent), b.Text(indent), rest, indent, 0);
    }
  }

  lemma StopBegins(b: Body, indent: nat)
    requires BodyFormed(b, indent) && (!b.Stop? ==> b.text != "" && b.text[0] != ' ')
    ensures b.Text(indent) == "" || (!IsBreak(b.Text(indent)[0]) && b.Text(indent)[0] != ' ')
  {
    if b.Line? {
      assert b.Text(indent)[0] == b.text[0];
    }
  }

  // What comes of the body once the first line has been found.
  function BodyFrom(g: Cursor, literal: bool, chomping: Chomping, indent: nat, outer: int, n: nat): ScanResult {
    if IsZ(Peek(g.s)) then
      Ok(Scanned(if chomping == Strip then [] else if chomping == Keep && n > 0 then Newlines(n) else "\n", g))
    else if outer < g.col < indent then Err(WronglyIndentedLine)
    else Ok(BlockLines(g, indent, literal, chomping, [], true, n, false))
  }

  lemma BodyUnfolded(f: Cursor, g: Cursor, head: Head, literal: bool, indent: nat, outer: int, n: nat, len: nat, startLine: nat)
    requires outer >= -1 && g.line > startLine && FirstFound(f, g, head, indent, outer, n)
    ensures ScanBlockBody(f, literal, outer, Header(head.chomping, head.digit, len), true, startLine)
         == BodyFrom(g, literal, head.chomping, indent, outer, n)
  {
    hide SkipIndent, SkipFirstIndent, FirstIndent, BlockLines;
  }

  ghost predicate BodyComesTo(r: ScanResult, line: nat, head: Head, b: Body, literal: bool, indent: nat, outer: int, n: nat) {
    if WrongLine(b, indent, outer) then r.Err?
    else r == Ok(Scanned(ScalarValue(head, n, b, literal, indent), b.End(indent, line)))
  }

  lemma BodyRead(f: Cursor, g: Cursor, head: Head, lead: seq<Empty>, b: Body, literal: bool, indent: nat, outer: int, len: nat,
                 startLine: nat)
    requires outer >= -1 && BodyGiven(f, g, head, lead, b, indent, outer) && g.line > startLine
    ensures BodyComesTo(ScanBlockBody(f, literal, outer, Header(head.chomping, head.digit, len), true, startLine),
                        g.line, head, b, literal, indent, outer, |lead|)
  {
    hide *;
    FirstLineFound(f, g, head, lead, b, indent, outer);
    BodyUnfolded(f, g, head, literal, indent, outer, |lead|, len, startLine);
    FromFirst(g, head, b, literal, indent, outer, |lead|);
  }

  lemma FromFirst(g: Cursor, head: Head, b: Body, literal: bool, indent: nat, outer: int, n: nat)
    requires outer >= -1 && BodyFormed(b, indent) && g == Cursor(b.Text(indent), b.Column(indent), g.line) && head.end.Some?
    ensures BodyComesTo(BodyFrom(g, literal, head.chomping, indent, outer, n), g.line, head, b, literal, indent, outer, n)
  {
    BodyStart(b, indent);
    FeedsAre(n);
    if b.Stop? {
      if !AtEnd(b.stop) {
        NothingRead(g, b, literal, head.chomping, indent, n);
      }
      hide BlockLines, Feeds, Newlines;
    } else {
      LinesRead(g, b, literal, head.chomping, indent, "", None, n, false);
      var value := Feeds(n) + Value(b, literal, head.chomping, indent);
      assert "" + value == value;
      hide BlockLines, Feeds, Value;
    }
  }

  lemma BodyStart(b: Body, indent: nat)
    requires BodyFormed(b, indent)
    ensures IsZ(Peek(b.Text(indent))) <==> b.Stop? && AtEnd(b.stop)
  {
    if b.Line? {
      assert b.Text(indent)[0] == b.text[0];
    }
  }

  lemma NothingRead(g: Cursor, b: Body, literal: bool, chomping: Chomping, indent: nat, n: nat)
    requires b.Stop? && !AtEnd(b.stop) && BodyFormed(b, indent) && g == Cursor(b.stop, b.spaces, g.line)
    ensures BlockLines(g, indent, literal, chomping, [], true, n, false)
         == Scanned(if chomping == Keep then Feeds(n) else "", g)
  {
    FeedsAre(n);
    assert BlockLines(g, indent, literal, chomping, [], true, n, false) == Chomp(g, indent, chomping, [], true, n);
    hide BlockLines;
    assert [] + [] + Feeds(n) == Feeds(n);
  }

  // Behind its first character the text is this header and these lines, and the indentation is settled. The input may end
  // behind the header.
  predicate IsBlock(c: Cursor, head: Head, lead: seq<Empty>, b: Body, indent: nat, outer: int)
    requires outer >= -1
  {
    var content := Content(lead, b, indent);
    && head.Formed(content) && ContentFormed(lead, b, indent) && Settled(head, lead, b, indent, outer)
    && (if head.end.Some? then Peek(content) != '\t' else lead == [] && b == Stop(0, ""))
    && c.s != "" && c.s[1..] == head.Text(content)
  }

  // A block scalar, whatever its header, its lines, the white space they begin with and the empty lines between and behind
  // them, and whether it ends in the input's end or further out, is read as its value; the one error is a first line that is
  // indented, but not enough.
  lemma BlockRead(c: Cursor, head: Head, lead: seq<Empty>, b: Body, literal: bool, indent: nat, outer: int)
    requires outer >= -1 && IsBlock(c, head, lead, b, indent, outer)
    ensures var r := ScanBlock(c, literal, outer);
            if WrongLine(b, indent, outer) then r.Err?
            else
              && r.Ok? && r.value.value == ScalarValue(head, |lead|, b, literal, indent)
              && (head.end.Some? ==> r.value.end == b.End(indent, c.line + 1 + |lead|))
  {
    hide *;
    if head.end.Some? {
      LinesBehind(c, head, lead, b, literal, indent, outer);
      ComesTo(ScanBlock(c, literal, outer), c.line + 1 + |lead|, head, b, literal, indent, outer, |lead|);
    } else {
      NoLinesBehind(c, head, lead, b, literal, indent, outer);
    }
  }

  lemma LinesBehind(c: Cursor, head: Head, lead: seq<Empty>, b: Body, literal: bool, indent: nat, outer: int)
    requires outer >= -1 && IsBlock(c, head, lead, b, indent, outer) && head.end.Some?
    ensures BodyComesTo(ScanBlock(c, literal, outer), c.line + 1 + |lead|, head, b, literal, indent, outer, |lead|)
  {
    hide *;
    var content, h, g := GivenThere(c, head, lead, b, indent, outer);
    WithBody(c, g, head, lead, b, literal, indent, outer, content, h);
  }

  lemma GivenThere(c: Cursor, head: Head, lead: seq<Empty>, b: Body, indent: nat, outer: int)
    returns (content: string, h: Header, g: Cursor)
    requires outer >= -1 && IsBlock(c, head, lead, b, indent, outer) && head.end.Some?
    ensures BodyGiven(Cursor(content, 0, c.line + 1), g, head, lead, b, indent, outer) && g.line == c.line + 1 + |lead|
    ensures head.Formed(content) && Peek(content) != '\t' && c.s != "" && c.s[1..] == head.Text(content)
    ensures h == Header(head.chomping, head.digit, |head.Indicators()|)
  {
    content := Content(lead, b, indent);
    h := Header(head.chomping, head.digit, |head.Indicators()|);
    g := Cursor(b.Text(indent), b.Column(indent), c.line + 1 + |lead|);
    hide ContentFormed, Settled, Content, Head.Text, Body.Text, Body.Column;
  }

  lemma NoLinesBehind(c: Cursor, head: Head, lead: seq<Empty>, b: Body, literal: bool, indent: nat, outer: int)
    requires outer >= -1 && IsBlock(c, head, lead, b, indent, outer) && head.end.None?
    ensures var r := ScanBlock(c, literal, outer);
            r.Ok? && r.value.value == ScalarValue(head, |lead|, b, literal, indent) && !WrongLine(b, indent, outer)
  {
    NothingThere(lead, b, indent);
    hide ContentFormed, Settled, Content, ScanBlock, ScalarValue;
    NothingBehind(c, head, literal, outer, Header(head.chomping, head.digit, |head.Indicators()|), indent);
  }

  lemma NothingThere(lead: seq<Empty>, b: Body, indent: nat)
    requires lead == [] && b == Stop(0, "")
    ensures Content(lead, b, indent) == "" && forall outer :: !WrongLine(b, indent, outer)
  {
  }

  lemma ComesTo(r: ScanResult, line: nat, head: Head, b: Body, literal: bool, indent: nat, outer: int, n: nat)
    requires BodyComesTo(r, line, head, b, literal, indent, outer, n)
    ensures if WrongLine(b, indent, outer) then r.Err?
            else r == Ok(Scanned(ScalarValue(head, n, b, literal, indent), b.End(indent, line)))
  {
  }

  lemma WithBody(c: Cursor, g: Cursor, head: Head, lead: seq<Empty>, b: Body, literal: bool, indent: nat, outer: int, content: string,
                 h: Header)
    requires outer >= -1 && BodyGiven(Cursor(content, 0, c.line + 1), g, head, lead, b, indent, outer) && g.line > c.line
    requires head.Formed(content) && head.end.Some? && Peek(content) != '\t'
    requires c.s != "" && c.s[1..] == head.Text(content) && h == Header(head.chomping, head.digit, |head.Indicators()|)
    ensures BodyComesTo(ScanBlock(c, literal, outer), g.line, head, b, literal, indent, outer, |lead|)
  {
    hide *;
    HeaderRead(c, head, content, literal, outer, h);
    BodyRead(Cursor(content, 0, c.line + 1), g, head, lead, b, literal, indent, outer, h.len, c.line);
  }

  // ------------------------------------------------------------------ where the value is not what it should be

  // The last line of content, and how many empty lines stand behind it.
  function Ending(b: Body): Body
    requires !b.Stop?
  {
    if b.Line? && !b.rest.Stop? then Ending(b.rest) else b
  }

  // White space that the input ends in, without a break, as far in as the content.
  predicate OpenSpaces(b: Body, indent: nat)
    requires !b.Stop?
  {
    var last := Ending(b);
    last.Line? && last.rest.Stop? && AtEnd(last.rest.stop) && last.rest.spaces >= indent && last.rest.spaces > 0
  }

  // Clipped content ends in its own single break, unless the input ends in such white space: then in two.
  lemma {:induction false} ClippedOnce(b: Body, literal: bool, indent: nat)
    requires !b.Stop?
    ensures var stripped := Value(b, literal, Strip, indent);
            Value(b, literal, Clip, indent) == stripped + if OpenSpaces(b, indent) then "\n\n" else "\n"
    decreases b
  {
    if b.Line? {
      if b.rest.Stop? {
        assert b.text + "" == b.text;
        assert "\n" + "\n" == "\n\n" && "\n" + "" == "\n";
      } else {
        ClippedOnce(b.rest, literal, indent);
        var between := Between(literal, b.text, |b.empties|, b.rest.text);
        var tail := if OpenSpaces(b, indent) then "\n\n" else "\n";
        var rest := Value(b.rest, literal, Strip, indent);
        assert OpenSpaces(b, indent) == OpenSpaces(b.rest, indent);
        assert b.text + (between + (rest + tail)) == (b.text + (between + rest)) + tail;
      }
    } else {
      assert b.text + "" == b.text;
    }
  }

  // A scalar without content, clipped, with the line break `\n` behind its header.
  lemma NoContent(c: Cursor, literal: bool, stop: string)
    requires c.s != "" && c.s[1..] == ['\n'] + stop && (stop == "" || (!IsBlankOrBreakz(stop[0])))
    ensures var r := ScanBlock(c, literal, 0); r.Ok? && r.value.value == if stop == "" then "\n" else ""
  {
    var head := Head(Clip, 0, false, "", "", Some(Lf));
    var b := Stop(0, stop);
    assert EmptiesText([]) + (Pad(0) + stop) == stop;
    assert head.Indicators() == "" && head.EndText(stop) == ['\n'] + stop;
    assert head.Text(stop) == ['\n'] + stop;
    assert IsBlock(c, head, [], b, 1, 0);
    hide ScanBlock, IsBlock;
    BlockRead(c, head, [], b, literal, 1, 0);
  }

  // Without content the value is nothing in front of more text, and a break in the end of the input.
  lemma EmptyIsABreak(literal: bool)
    ensures var mark := if literal then '|' else '>';
            && (var r := ScanBlock(Cursor([mark, '\n'], 3, 1), literal, 0); r.Ok? && r.value.value == "\n")
            && (var r := ScanBlock(Cursor([mark, '\n', 'b'], 3, 1), literal, 0); r.Ok? && r.value.value == "")
  {
    var mark := if literal then '|' else '>';
    NoContent(Cursor([mark, '\n'], 3, 1), literal, "");
    NoContent(Cursor([mark, '\n', 'b'], 3, 1), literal, "b");
  }

  // A line of content that is not indented, in a literal scalar that is clipped.
  lemma PlainLine(t: string, rest: Body)
    requires BodyFormed(rest, 0) && LineFormed(t, ['\n'] + rest.Text(0), 0) && (rest.Stop? ==> rest.spaces == 0)
    ensures var b := Line(t, Lf, [], rest);
            && BodyFormed(b, 0) && b.Text(0) == t + (['\n'] + rest.Text(0))
            && Value(b, true, Clip, 0) == t + (['\n'] + if rest.Stop? then "" else Value(rest, true, Clip, 0))
  {
    var b := Line(t, Lf, [], rest);
    assert Pad(0) + rest.Text(0) == rest.Text(0);
    assert EmptiesText([]) + (Pad(0) + rest.Text(0)) == rest.Text(0);
    if rest.Stop? {
      assert Tail(Clip, 0, rest, 0) == "\n" + "";
    } else {
      assert Between(true, t, 0, rest.text) == "\n" + Feeds(0);
      assert ("\n" + Feeds(0)) + Value(rest, true, Clip, 0) == ['\n'] + Value(rest, true, Clip, 0);
    }
  }

  // In content that is not indented a line `---` begins no document.
  lemma MarkerIsContent()
    ensures var r := ScanBlock(Cursor(['|', '\n'] + "---\n", 4, 1), true, -1); r.Ok? && r.value.value == "---\n"
  {
    var stop := Stop(0, "");
    var a := Line("---", Lf, [], stop);
    PlainLine("---", stop);
    assert "---" + (['\n'] + "") == "---\n";
    hide BodyFormed, Value, Body.Text, LineFormed, ScanBlock;
    NoHeader(a, "---\n");
  }

  lemma NoHeader(a: Body, text: string)
    requires a.Line? && BodyFormed(a, 0) && a.text != "" && a.text[0] != ' ' && a.Text(0) == text && Peek(text) != '\t'
    ensures var r := ScanBlock(Cursor(['|', '\n'] + text, 4, 1), true, -1); r.Ok? && r.value.value == Value(a, true, Clip, 0)
  {
    var head := Head(Clip, 0, false, "", "", Some(Lf));
    assert EmptiesText([]) + (Pad(0) + text) == text;
    assert head.Indicators() == "" && head.EndText(text) == ['\n'] + text;
    assert head.Text(text) == ['\n'] + text && (['|', '\n'] + text)[1..] == ['\n'] + text;
    assert IsBlock(Cursor(['|', '\n'] + text, 4, 1), head, [], a, 0, -1);
    hide ScanBlock, IsBlock, BodyFormed, Body.Text;
    BlockRead(Cursor(['|', '\n'] + text, 4, 1), head, [], a, true, 0, -1);
    assert Feeds(0) + Value(a, true, Clip, 0) == Value(a, true, Clip, 0);
  }
}
