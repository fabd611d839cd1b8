// Reading back what the emitter writes as a literal or folded block scalar.
module BlockRoundTrip {
  import opened CharTraits
  import opened Input
  import opened Results
  import opened ScalarEmitter
  import opened FlowScan
  import opened BlockScan

  // ------------------------------------------------------------------ what lines stand for

  // Number of empty lines in front of the first that is not.
  function Empties(lines: seq<string>): (k: nat)
    ensures k <= |lines|
    ensures forall i :: 0 <= i < k ==> lines[i] == []
    ensures k < |lines| ==> lines[k] != []
  {
    if lines == [] || lines[0] != [] then 0 else 1 + Empties(lines[1..])
  }

  // The text a sequence of block lines stands for, the first one not being empty. Empty lines at
  // the end are not part of it.
  function Content(lines: seq<string>, literal: bool): string
    requires lines != [] && lines[0] != []
    decreases |lines|
  {
    var rest := lines[1..];
    var k := Empties(rest);
    if k == |rest| then lines[0]
    else
      lines[0]
      + Separator(literal, false, StartsBlank(lines[0]), StartsBlank(rest[k]), k)
      + Content(rest[k..], literal)
  }

  function TrailingEmpties(lines: seq<string>): (k: nat)
    ensures k <= |lines|
  {
    if lines == [] || lines[|lines| - 1] != [] then 0 else 1 + TrailingEmpties(lines[..|lines| - 1])
  }

  // What chomping adds behind the content when `empties` empty lines end the block.
  function Tail(chomping: Chomping, empties: nat): string {
    match chomping
    case Strip => []
    case Clip => "\n"
    case Keep => "\n" + Newlines(empties)
  }

  // ------------------------------------------------------------------ reading lines

  predicate LineOk(l: string) {
    forall i | 0 <= i < |l| :: !IsBreakz(l[i])
  }

  // A block on its way through the scanner: how it was written and what follows it.
  datatype Block = Block(ctx: ScalarContext, literal: bool, chomping: Chomping, follow: string) {

    // The lines, each with its indentation and the break that ends it, and what follows them.
    function Body(lines: seq<string>): string {
      if lines == [] then follow
      else PadLine(lines[0], ctx) + ctx.lineBreak.Text() + Body(lines[1..])
    }

    // What follows is indented less than the block; blank lines belong to the value under `+`.
    ghost predicate Valid() {
      var r := SkipIndent(Cursor(follow, 0, 0), ctx.indent);
      && ctx.indent > 0 && r.c.col < ctx.indent
      && (chomping == Keep ==> r.breaks == 0)
      && (ctx.lineBreak == Cr ==> Peek(follow) != '\n')
    }

    // Where the scanner stands in front of a content line, its indentation eaten.
    function At(lines: seq<string>, line: nat): Cursor
      requires lines != []
    {
      Cursor(lines[0] + ctx.lineBreak.Text() + Body(lines[1..]), ctx.indent, line)
    }
  }

  lemma {:induction false} LineIndependent(s: string, col: nat, indent: nat, a: nat, b: nat)
    ensures var x := SkipIndent(Cursor(s, col, a), indent);
            var y := SkipIndent(Cursor(s, col, b), indent);
            x.breaks == y.breaks && x.c.s == y.c.s && x.c.col == y.c.col
    decreases |s|
  {
    if s != [] {
      if col < indent && s[0] == ' ' {
        LineIndependent(s[1..], col + 1, indent, a, b);
      } else if IsBreak(s[0]) {
        LineIndependent(SkipBreak(Cursor(s, col, a)).s, 0, indent, a + 1, b + 1);
      }
    }
  }

  lemma BreakRead(brk: LineBreak, rest: string, col: nat, line: nat)
    requires brk == Cr ==> Peek(rest) != '\n'
    ensures SkipBreak(Cursor(brk.Text() + rest, col, line)) == Cursor(rest, 0, line + 1)
  {
    assert Drop(brk.Text() + rest, |brk.Text()|) == rest;
    var s := brk.Text() + rest;
    assert brk == Cr && rest != [] ==> s[1] == rest[0];
  }

  lemma {:induction false} PadSkipped(n: nat, rest: string, col: nat, indent: nat, line: nat)
    requires col + n <= indent
    ensures SkipIndent(Cursor(Spaces(n) + rest, col, line), indent)
         == SkipIndent(Cursor(rest, col + n, line), indent)
  {
    var s := Spaces(n) + rest;
    if n == 0 {
      assert s == rest;
    } else {
      assert s[1..] == Spaces(n - 1) + rest;
      PadSkipped(n - 1, rest, col + 1, indent, line);
    }
  }

  lemma BodyStart(b: Block, lines: seq<string>)
    requires b.Valid()
    ensures b.ctx.lineBreak == Cr ==> Peek(b.Body(lines)) != '\n'
  {
    if lines != [] {
      assert b.Body(lines)[0] == if lines[0] == [] then b.ctx.lineBreak.Text()[0] else ' ';
    }
  }

  lemma LineReached(b: Block, lines: seq<string>, line: nat)
    requires lines != [] && lines[0] != [] && LineOk(lines[0])
    ensures SkipIndent(Cursor(b.Body(lines), 0, line), b.ctx.indent) == Indented(0, b.At(lines, line))
  {
    var rest := lines[0] + b.ctx.lineBreak.Text() + b.Body(lines[1..]);
    assert b.Body(lines) == Spaces(b.ctx.indent) + rest;
    PadSkipped(b.ctx.indent, rest, 0, b.ctx.indent, line);
    assert rest[0] == lines[0][0];
  }

  lemma EmptySkipped(b: Block, lines: seq<string>, line: nat)
    requires b.Valid() && lines != [] && lines[0] == []
    ensures var r := SkipIndent(Cursor(b.Body(lines[1..]), 0, line + 1), b.ctx.indent);
            SkipIndent(Cursor(b.Body(lines), 0, line), b.ctx.indent) == Indented(r.breaks + 1, r.c)
  {
    var t := b.ctx.lineBreak.Text();
    assert b.Body(lines) == t + b.Body(lines[1..]);
    BodyStart(b, lines[1..]);
    BreakRead(b.ctx.lineBreak, b.Body(lines[1..]), 0, line);
    assert b.Body(lines)[0] == t[0];
    hide Block.Body;
  }

  // The outcome of passing over the empty lines in front: the next content line, or the block
  // left behind.
  ghost predicate PastEmpties(b: Block, lines: seq<string>, line: nat, r: Indented) {
    var k := Empties(lines);
    if k < |lines| then r == Indented(k, b.At(lines[k..], line + k))
    else r.c.col < b.ctx.indent && (b.chomping == Keep ==> r.breaks == k)
  }

  lemma {:induction false} EmptiesSkipped(b: Block, lines: seq<string>, line: nat)
    requires b.Valid() && forall i | 0 <= i < |lines| :: LineOk(lines[i])
    ensures PastEmpties(b, lines, line, SkipIndent(Cursor(b.Body(lines), 0, line), b.ctx.indent))
    decreases |lines|
  {
    if lines == [] {
      LineIndependent(b.follow, 0, b.ctx.indent, line, 0);
    } else if lines[0] == [] {
      hide SkipIndent, Block.Body, Block.Valid, PastEmpties;
      EmptySkipped(b, lines, line);
      EmptiesSkipped(b, lines[1..], line + 1);
      OneMoreEmpty(b, lines, line, SkipIndent(Cursor(b.Body(lines[1..]), 0, line + 1), b.ctx.indent));
    } else {
      LineReached(b, lines, line);
      assert lines[0..] == lines;
    }
  }

  lemma OneMoreEmpty(b: Block, lines: seq<string>, line: nat, r: Indented)
    requires lines != [] && lines[0] == [] && PastEmpties(b, lines[1..], line + 1, r)
    ensures PastEmpties(b, lines, line, Indented(r.breaks + 1, r.c))
  {
    hide Block.Body;
    assert Empties(lines) < |lines| ==> lines[1..][Empties(lines[1..])..] == lines[Empties(lines)..];
  }

  lemma {:induction false} LineLength(l: string, rest: string)
    requires LineOk(l) && rest != [] && IsBreakz(rest[0])
    ensures LeadingNonBreakz(l + rest) == |l|
  {
    if l == [] {
      assert l + rest == rest;
    } else {
      assert (l + rest)[1..] == l[1..] + rest;
      LineLength(l[1..], rest);
    }
  }

  // What the scanner sees at a content line.
  lemma ContentLineSeen(b: Block, lines: seq<string>, line: nat)
    requires b.Valid() && lines != [] && lines[0] != [] && LineOk(lines[0])
    ensures var c := b.At(lines, line);
            && LeadingNonBreakz(c.s) == |lines[0]| && c.s[..|lines[0]|] == lines[0]
            && Peek(c.s) == lines[0][0] && !IsZ(Peek(Skip(c, |lines[0]|).s))
            && SkipBreak(Skip(c, |lines[0]|)) == Cursor(b.Body(lines[1..]), 0, line + 1)
  {
    var c := b.At(lines, line);
    var l := lines[0];
    var t := b.ctx.lineBreak.Text();
    var tail := t + b.Body(lines[1..]);
    BodyStart(b, lines[1..]);
    hide Block.Body, Block.Valid;
    assert c.s == l + tail;
    assert tail[0] == t[0];
    LineLength(l, tail);
    assert c.s[..|l|] == l && Drop(c.s, |l|) == tail;
    BreakRead(b.ctx.lineBreak, b.Body(lines[1..]), c.col + |l|, line);
  }

  // One turn of the content loop: the line is appended behind its separator.
  lemma ContentLineRead(b: Block, lines: seq<string>, line: nat, str: string, first: bool, breaks: nat, blank: bool)
    requires b.Valid() && lines != [] && lines[0] != [] && LineOk(lines[0])
    ensures var mine := StartsBlank(lines[0]);
            var next := SkipIndent(Cursor(b.Body(lines[1..]), 0, line + 1), b.ctx.indent);
            BlockLines(b.At(lines, line), b.ctx.indent, b.literal, b.chomping, str, first, breaks, blank)
            == BlockLines(next.c, b.ctx.indent, b.literal, b.chomping,
                          str + Separator(b.literal, first, blank, mine, breaks) + lines[0],
                          false, next.breaks, mine)
  {
    ContentLineSeen(b, lines, line);
    assert b.ctx.indent > 0;
    hide SkipIndent, Separator, LeadingNonBreakz, Block.Body, Block.Valid, Skip, SkipBreak;
  }

  // The loop is over: the scanner has left the block behind `empties` empty lines.
  lemma BlockLeft(b: Block, c: Cursor, str: string, breaks: nat, blank: bool)
    requires b.ctx.indent > 0 && c.col < b.ctx.indent
    ensures BlockLines(c, b.ctx.indent, b.literal, b.chomping, str, false, breaks, blank).value
         == str + Tail(b.chomping, breaks)
  {
    assert str + "\n" + [] == str + "\n";
    assert str + [] == str;
    assert str + "\n" + Newlines(breaks) == str + ("\n" + Newlines(breaks));
  }

  // The content loop, from any line on, gives exactly what the lines stand for.
  lemma {:induction false} BlockReads(b: Block, lines: seq<string>, line: nat, str: string, first: bool,
                                      breaks: nat, blank: bool)
    requires b.Valid() && lines != [] && lines[0] != []
    requires forall i | 0 <= i < |lines| :: LineOk(lines[i])
    requires b.chomping == Keep || lines[|lines| - 1] != []
    ensures BlockLines(b.At(lines, line), b.ctx.indent, b.literal, b.chomping, str, first, breaks, blank).value
         == str + Separator(b.literal, first, blank, StartsBlank(lines[0]), breaks)
            + Content(lines, b.literal) + Tail(b.chomping, TrailingEmpties(lines))
    decreases |lines|
  {
    hide SkipIndent, BlockLines, Block.Body, Block.Valid, Separator, Tail, LineOk, Block.At;
    var read := str + Separator(b.literal, first, blank, StartsBlank(lines[0]), breaks);
    ContentLineRead(b, lines, line, str, first, breaks, blank);
    EmptiesSkipped(b, lines[1..], line + 1);
    var next := SkipIndent(Cursor(b.Body(lines[1..]), 0, line + 1), b.ctx.indent);
    if Empties(lines[1..]) == |lines| - 1 {
      LastLineReads(b, lines, line, read, next);
    } else {
      LaterLinesRead(b, lines, line, read, next);
    }
  }

  lemma LastLineReads(b: Block, lines: seq<string>, line: nat, read: string, next: Indented)
    requires b.Valid() && lines != [] && lines[0] != [] && Empties(lines[1..]) == |lines| - 1
    requires b.chomping == Keep || lines[|lines| - 1] != []
    requires PastEmpties(b, lines[1..], line + 1, next)
    ensures BlockLines(next.c, b.ctx.indent, b.literal, b.chomping, read + lines[0], false, next.breaks,
                       StartsBlank(lines[0])).value
         == read + Content(lines, b.literal) + Tail(b.chomping, TrailingEmpties(lines))
  {
    BlockLeft(b, next.c, read + lines[0], next.breaks, StartsBlank(lines[0]));
    AllEmpty(lines, |lines| - 1);
    hide BlockLines, Block.Body;
  }

  lemma {:induction false} LaterLinesRead(b: Block, lines: seq<string>, line: nat, read: string, next: Indented)
    requires b.Valid() && lines != [] && lines[0] != [] && Empties(lines[1..]) < |lines| - 1
    requires forall i | 0 <= i < |lines| :: LineOk(lines[i])
    requires b.chomping == Keep || lines[|lines| - 1] != []
    requires PastEmpties(b, lines[1..], line + 1, next)
    ensures BlockLines(next.c, b.ctx.indent, b.literal, b.chomping, read + lines[0], false, next.breaks,
                       StartsBlank(lines[0])).value
         == read + Content(lines, b.literal) + Tail(b.chomping, TrailingEmpties(lines))
    decreases |lines|, 0
  {
    hide BlockLines, Block.Body, Block.Valid, Separator, Tail, LineOk, Block.At;
    var rest := lines[1..];
    var k := Empties(rest);
    assert rest[k..] == lines[k + 1..];
    BlockReads(b, rest[k..], line + 1 + k, read + lines[0], false, k, StartsBlank(lines[0]));
    TrailingStays(lines, k + 1);
    Regroup(read, lines[0], Separator(b.literal, false, StartsBlank(lines[0]), StartsBlank(rest[k]), k),
            Content(rest[k..], b.literal));
  }

  lemma Regroup(a: string, b: string, c: string, d: string)
    ensures a + b + c + d == a + (b + c + d)
  {
  }

  lemma {:induction false} AllEmpty(lines: seq<string>, k: nat)
    requires k + 1 == |lines| && lines[0] != [] && forall i :: 0 < i < |lines| ==> lines[i] == []
    ensures TrailingEmpties(lines) == k
    decreases k
  {
    if k > 0 {
      AllEmpty(lines[..k], k - 1);
    }
  }

  lemma {:induction false} TrailingStays(lines: seq<string>, k: nat)
    requires k < |lines| && lines[k] != []
    ensures TrailingEmpties(lines) == TrailingEmpties(lines[k..])
    decreases |lines|
  {
    var n := |lines| - 1;
    if lines[n] == [] {
      TrailingStays(lines[..n], k);
      assert lines[k..][..n - k] == lines[..n][k..];
    }
  }

  // ------------------------------------------------------------------ the header and the first line

  // The scanner's indentation pass over the empty lines in front settles on the emitter's column.
  lemma {:induction false} FirstLineFound(b: Block, lines: seq<string>, line: nat)
    requires b.Valid() && Empties(lines) < |lines| && !StartsBlank(lines[Empties(lines)])
    requires forall i | 0 <= i < |lines| :: LineOk(lines[i])
    ensures var k := Empties(lines);
            SkipFirstIndent(Cursor(b.Body(lines), 0, line), 0)
            == FirstIndented(b.ctx.indent, k, b.At(lines[k..], line + k))
    decreases |lines|
  {
    if lines[0] == [] {
      hide Block.Body, Block.Valid, SkipFirstIndent;
      FirstEmptySkipped(b, lines, line);
      FirstLineFound(b, lines[1..], line + 1);
      assert lines[1..][Empties(lines[1..])..] == lines[Empties(lines)..];
    } else {
      FirstContentReached(b, lines, line);
      assert lines[0..] == lines;
    }
  }

  lemma FirstEmptySkipped(b: Block, lines: seq<string>, line: nat)
    requires b.Valid() && lines != [] && lines[0] == []
    ensures var r := SkipFirstIndent(Cursor(b.Body(lines[1..]), 0, line + 1), 0);
            SkipFirstIndent(Cursor(b.Body(lines), 0, line), 0) == FirstIndented(r.max, r.breaks + 1, r.c)
  {
    var t := b.ctx.lineBreak.Text();
    assert b.Body(lines) == t + b.Body(lines[1..]);
    BodyStart(b, lines[1..]);
    BreakRead(b.ctx.lineBreak, b.Body(lines[1..]), 0, line);
    assert b.Body(lines)[0] == t[0];
    hide Block.Body;
  }

  lemma FirstContentReached(b: Block, lines: seq<string>, line: nat)
    requires lines != [] && lines[0] != [] && !StartsBlank(lines[0]) && LineOk(lines[0])
    ensures SkipFirstIndent(Cursor(b.Body(lines), 0, line), 0) == FirstIndented(b.ctx.indent, 0, b.At(lines, line))
  {
    var rest := lines[0] + b.ctx.lineBreak.Text() + b.Body(lines[1..]);
    assert b.Body(lines) == Spaces(b.ctx.indent) + rest;
    FirstPadSkipped(b.ctx.indent, rest, 0, line);
    assert rest[0] == lines[0][0];
  }

  lemma {:induction false} FirstPadSkipped(n: nat, rest: string, col: nat, line: nat)
    ensures SkipFirstIndent(Cursor(Spaces(n) + rest, col, line), 0)
         == SkipFirstIndent(Cursor(rest, col + n, line), 0)
  {
    var s := Spaces(n) + rest;
    if n == 0 {
      assert s == rest;
    } else {
      assert s[1..] == Spaces(n - 1) + rest;
      FirstPadSkipped(n - 1, rest, col + 1, line);
    }
  }

  function Indicator(c: Chomping): string {
    match c
    case Strip => "-"
    case Clip => ""
    case Keep => "+"
  }

  // What the emitter puts in front of the body.
  function HeaderText(b: Block): string {
    (if b.literal then "|" else ">") + Indicator(b.chomping)
  }

  lemma IndicatorRead(b: Block, rest: string)
    requires rest != [] && IsBreak(rest[0])
    ensures ReadHeader(Indicator(b.chomping) + rest) == Ok(Header(b.chomping, 0, |Indicator(b.chomping)|))
  {
    assert [] + rest == rest;
  }

  lemma NothingBeforeBreak(s: string)
    requires s != [] && IsBreak(s[0])
    ensures SkipWsToEol(s, true) == EolSkip(0, [], true, false, false)
  {
    assert LeadingWs(s, true) == 0;
  }

  // The header line leaves the scanner in front of the body, one line down.
  lemma HeaderRead(b: Block, body: string, literal: bool, outer: int, col: nat, line: nat)
    requires b.ctx.lineBreak == Cr ==> Peek(body) != '\n'
    requires Peek(body) != '\t' && outer >= -1
    ensures ScanBlock(Cursor(HeaderText(b) + b.ctx.lineBreak.Text() + body, col, line), literal, outer)
         == ScanBlockBody(Cursor(body, 0, line + 1), literal, outer,
                          Header(b.chomping, 0, |Indicator(b.chomping)|), true, line)
  {
    HeaderSeen(b, body);
    var s := HeaderText(b) + b.ctx.lineBreak.Text() + body;
    var rest := b.ctx.lineBreak.Text() + body;
    hide SkipWsToEol, ReadHeader, ScanBlockBody, SkipBreak, HeaderText, Indicator;
    BreakRead(b.ctx.lineBreak, body, col + |HeaderText(b)|, line);
    assert Drop(Drop(s, 1), |Indicator(b.chomping)|) == Drop(s, |HeaderText(b)|);
    assert Drop(rest, 0) == rest;
  }

  lemma HeaderSeen(b: Block, body: string)
    ensures var rest := b.ctx.lineBreak.Text() + body;
            var s := HeaderText(b) + b.ctx.lineBreak.Text() + body;
            && ReadHeader(Drop(s, 1)) == Ok(Header(b.chomping, 0, |Indicator(b.chomping)|))
            && |HeaderText(b)| == 1 + |Indicator(b.chomping)|
            && Drop(s, |HeaderText(b)|) == rest && rest != [] && IsBreak(rest[0])
            && SkipWsToEol(rest, true) == EolSkip(0, [], true, false, false)
  {
    var rest := b.ctx.lineBreak.Text() + body;
    var s := HeaderText(b) + b.ctx.lineBreak.Text() + body;
    assert s == HeaderText(b) + rest;
    assert rest[0] == b.ctx.lineBreak.Text()[0];
    assert Drop(s, 1) == Indicator(b.chomping) + rest;
    IndicatorRead(b, rest);
    NothingBeforeBreak(rest);
    hide SkipWsToEol, ReadHeader;
  }

  // The lines the emitter hands over: none holds a break, the first that is not empty does not
  // start with white space, and only `+` keeps empty lines at the end.
  ghost predicate Writable(lines: seq<string>, chomping: Chomping) {
    && Empties(lines) < |lines| && !StartsBlank(lines[Empties(lines)])
    && (forall i | 0 <= i < |lines| :: LineOk(lines[i]))
    && (chomping == Keep || lines[|lines| - 1] != [])
  }

  function BlockValue(lines: seq<string>, b: Block): string
    requires Empties(lines) < |lines|
  {
    var k := Empties(lines);
    Newlines(k) + Content(lines[k..], b.literal) + Tail(b.chomping, TrailingEmpties(lines))
  }

  lemma LinesRead(b: Block, lines: seq<string>, line: nat)
    requires b.Valid() && Writable(lines, b.chomping)
    ensures var k := Empties(lines);
            BlockLines(b.At(lines[k..], line), b.ctx.indent, b.literal, b.chomping, [], true, k, false).value
            == BlockValue(lines, b)
  {
    var k := Empties(lines);
    BlockReads(b, lines[k..], line, [], true, k, false);
    TrailingStays(lines, k);
    hide BlockLines, Block.Body, Content, LineOk, Tail;
    assert [] + Newlines(k) == Newlines(k);
  }

  // With no indentation indicator the block's column is that of its first content line.
  lemma IndentDetected(f: Cursor, literal: bool, outer: int, h: Header, start: nat)
    requires h.increment == 0 && outer >= -1
    requires var lead := SkipFirstIndent(f, 0);
             lead.max > outer && lead.max > 0 && lead.c.col == lead.max && !IsZ(Peek(lead.c.s))
    ensures var lead := SkipFirstIndent(f, 0);
            ScanBlockBody(f, literal, outer, h, true, start)
            == Ok(BlockLines(lead.c, lead.max, literal, h.chomping, [], true, lead.breaks, false))
  {
    hide SkipFirstIndent, SkipIndent, BlockLines;
  }

  lemma {:induction false} BodyScanned(b: Block, lines: seq<string>, line: nat, start: nat, outer: int, n: nat)
    requires b.Valid() && -1 <= outer < b.ctx.indent && Writable(lines, b.chomping)
    ensures var r := ScanBlockBody(Cursor(b.Body(lines), 0, line), b.literal, outer, Header(b.chomping, 0, n), true, start);
            r.Ok? && r.value.value == BlockValue(lines, b)
  {
    assert b.ctx.indent > 0;
    hide Writable, Empties, TrailingEmpties, ScanBlockBody, SkipFirstIndent, BlockLines, Block.Body, Block.Valid, BlockValue;
    BodyFound(b, lines, line);
    IndentDetected(Cursor(b.Body(lines), 0, line), b.literal, outer, Header(b.chomping, 0, n), start);
    LinesRead(b, lines, line + Empties(lines));
  }

  // The body's first line is found in the emitter's column, and it is a content line.
  lemma BodyFound(b: Block, lines: seq<string>, line: nat)
    requires b.Valid() && Writable(lines, b.chomping)
    ensures var k := Empties(lines);
            && k < |lines|
            && SkipFirstIndent(Cursor(b.Body(lines), 0, line), 0)
               == FirstIndented(b.ctx.indent, k, b.At(lines[k..], line + k))
            && !IsZ(Peek(b.At(lines[k..], line + k).s))
  {
    var k := Empties(lines);
    hide SkipFirstIndent, SkipIndent, Block.Body, Block.Valid, LineOk, LeadingNonBreakz, SkipBreak;
    FirstLineFound(b, lines, line);
    ContentLineSeen(b, lines[k..], line + k);
    LineCharNotZ(lines[k]);
  }

  lemma LineCharNotZ(l: string)
    requires l != [] && LineOk(l)
    ensures !IsZ(l[0])
  {
  }

  lemma BlockScanned(b: Block, lines: seq<string>, col: nat, line: nat, outer: int)
    requires b.Valid() && -1 <= outer < b.ctx.indent && Writable(lines, b.chomping)
    ensures var s := HeaderText(b) + b.ctx.lineBreak.Text() + b.Body(lines);
            var r := ScanBlock(Cursor(s, col, line), b.literal, outer);
            r.Ok? && r.value.value == BlockValue(lines, b)
  {
    BodyStart(b, lines);
    NoTabInFront(b, lines);
    hide ScanBlock, ScanBlockBody, Block.Body, BlockValue, Block.Valid, Writable;
    HeaderRead(b, b.Body(lines), b.literal, outer, col, line);
    BodyScanned(b, lines, line + 1, line, outer, |Indicator(b.chomping)|);
  }

  lemma NoTabInFront(b: Block, lines: seq<string>)
    requires b.Valid() && lines != []
    ensures Peek(b.Body(lines)) != '\t'
  {
    assert b.Body(lines)[0] == if lines[0] == [] then b.ctx.lineBreak.Text()[0] else ' ';
  }
}