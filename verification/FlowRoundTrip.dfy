// Reading back what the emitter writes in the two quoted styles.
module FlowRoundTrip {
  import opened CharTraits
  import opened Input
  import opened Results
  import opened ScalarEmitter
  import opened FlowScan
  import Hex

  // ------------------------------------------------------------------ one character

  function FlowAtom(c: char, single: bool, allowUnicode: bool): string {
    if single then SingleQuotedAtom(c) else DoubleQuotedAtom(c, allowUnicode)
  }

  function FlowAtoms(v: string, single: bool, allowUnicode: bool): (atoms: seq<string>)
    ensures |atoms| == |v|
    ensures forall i :: 0 <= i < |v| ==> atoms[i] == FlowAtom(v[i], single, allowUnicode)
  {
    if single then SingleQuotedAtoms(v) else DoubleQuotedAtoms(v, allowUnicode)
  }

  // Whether the style can carry the value at all: single quotes have no escapes.
  predicate Carries(v: string, single: bool) {
    single ==> forall i | 0 <= i < |v| :: !IsBreakz(v[i])
  }

  // Whether `c` is written as itself and is white space to the scanner.
  predicate WrittenBlank(c: char, single: bool) {
    c == ' ' || (single && c == '\t')
  }

  lemma EscapeDecodes(c: char, rest: string, allowUnicode: bool)
    requires var a := DoubleQuotedAtom(c, allowUnicode); a[0] == '\\'
    ensures var a := DoubleQuotedAtom(c, allowUnicode);
            && ResolveEscape(a + rest) == Ok(Escape(c, |a|))
            && !IsBreak(PeekNth(a + rest, 1))
  {
    if NamedEscape(c) == NUL {
      HexDecodes(c, rest, allowUnicode);
    } else {
      hide Hex.Value, Hex.Digits;
    }
  }

  lemma HexDecodes(c: char, rest: string, allowUnicode: bool)
    requires NamedEscape(c) == NUL && DoubleQuotedAtom(c, allowUnicode)[0] == '\\'
    ensures var a := DoubleQuotedAtom(c, allowUnicode);
            && ResolveEscape(a + rest) == Ok(Escape(c, |a|))
            && !IsBreak(PeekNth(a + rest, 1))
  {
    var a := DoubleQuotedAtom(c, allowUnicode);
    var s := a + rest;
    var w := |a| - 2;
    assert Hex.Pow16(2) == 0x100 && Hex.Pow16(4) == 0x1_0000 && Hex.Pow16(8) == 0x1_0000_0000;
    assert a[2..] == Hex.Digits(c as int, w) && w == CodeLength(a[1]);
    assert s[2..2 + w] == a[2..];
    assert s[1] == a[1];
    CodeDecodes(s, w, c);
  }

  // A code letter and the digits of `c` behind it.
  lemma CodeDecodes(s: string, w: nat, c: char)
    requires |s| >= 2 + w && w == CodeLength(s[1]) && w > 0
    requires c as int < Hex.Pow16(w) && s[2..2 + w] == Hex.Digits(c as int, w)
    ensures ResolveEscape(s) == Ok(Escape(c, 2 + w))
  {
    hide Hex.Digits, Hex.Value, Hex.Pow16;
    Hex.ValueOfDigits(c as int, w);
    assert IsScalarValue(c as int);
    assert NamedEscapeValue(s[1]) == None;
  }

  lemma AtomShape(c: char, single: bool, allowUnicode: bool)
    ensures WrittenBlank(c, single) ==> FlowAtom(c, single, allowUnicode) == [c]
    ensures FlowAtom(c, single, allowUnicode) == " " ==> c == ' '
    ensures FlowAtom(c, single, allowUnicode) == "\t" <==> c == '\t' && single
    ensures FlowAtom(c, single, allowUnicode) != []
  {
  }

  // Reading one non-blank atom appends exactly the character it stands for.
  lemma AtomDecodes(c: char, single: bool, allowUnicode: bool, rest: string,
                    col: nat, line: nat, indent: int, acc: string)
    requires single ==> !IsBreakz(c)
    requires !WrittenBlank(c, single)
    ensures var a := FlowAtom(c, single, allowUnicode);
            && a != [] && !IsBlankOrBreakz(a[0]) && (a[0] == '"' ==> single)
            && FlowText(Cursor(a + rest, col, line), single, indent, acc)
            == FlowText(Cursor(rest, col + |a|, line), single, indent, acc + [c])
  {
    var a := FlowAtom(c, single, allowUnicode);
    var s := a + rest;
    assert Drop(s, |a|) == rest;
    if !single && a[0] == '\\' {
      EscapeDecodes(c, rest, allowUnicode);
    } else if !single {
      assert a == [c];
    }
  }

  // ------------------------------------------------------------------ folds

  // How many line breaks the writer puts into the atoms from `i` on.
  function FoldCount(atoms: seq<string>, i: nat, col: nat, ctx: ScalarContext): nat
    requires i <= |atoms|
    decreases |atoms| - i
  {
    if i == |atoms| then 0
    else if FoldsAt(atoms, i, col, ctx) then 1 + FoldCount(atoms, i + 1, Continuation(ctx), ctx)
    else FoldCount(atoms, i + 1, col + |atoms[i]|, ctx)
  }

  // Whether one of those line breaks has a tab for a neighbour.
  predicate FoldTouchesTab(atoms: seq<string>, i: nat, col: nat, ctx: ScalarContext)
    requires i <= |atoms|
    decreases |atoms| - i
  {
    if i == |atoms| then false
    else if FoldsAt(atoms, i, col, ctx) then
      atoms[i - 1] == "\t" || atoms[i + 1] == "\t"
      || FoldTouchesTab(atoms, i + 1, Continuation(ctx), ctx)
    else FoldTouchesTab(atoms, i + 1, col + |atoms[i]|, ctx)
  }

  lemma {:induction false} SpacesSkipped(n: nat, rest: string, col: nat, line: nat, single: bool,
                                         indent: int, acc: string, lb: string, tb: string, ws: string)
    ensures FlowBlanks(Cursor(Spaces(n) + rest, col, line), single, indent, acc, true, lb, tb, ws)
         == FlowBlanks(Cursor(rest, col + n, line), single, indent, acc, true, lb, tb, ws)
  {
    var s := Spaces(n) + rest;
    if n == 0 {
      assert s == rest;
    } else {
      assert s[1..] == Spaces(n - 1) + rest;
      SpacesSkipped(n - 1, rest, col + 1, line, single, indent, acc, lb, tb, ws);
    }
  }

  // A line break and the indentation after it, met where a word ends, leave the scanner waiting
  // for the next word with a single break pending.
  lemma FoldRead(ctx: ScalarContext, rest: string, col: nat, line: nat, single: bool, indent: int,
                 acc: string, ws: string)
    ensures FlowBlanks(Cursor(ctx.lineBreak.Text() + Spaces(Continuation(ctx)) + rest, col, line),
                       single, indent, acc, false, [], [], ws)
         == FlowBlanks(Cursor(rest, Continuation(ctx), line + 1),
                       single, indent, acc, true, ['\n'], [], [])
  {
    var t := ctx.lineBreak.Text();
    var s := t + Spaces(Continuation(ctx)) + rest;
    assert Drop(s, |t|) == Spaces(Continuation(ctx)) + rest;
    assert s[|t|] == ' ';
    assert [] + ['\n'] == ['\n'];
    SpacesSkipped(Continuation(ctx), rest, 0, line + 1, single, indent, acc, ['\n'], [], []);
  }

  // ------------------------------------------------------------------ single steps of the scanner

  lemma BlankInText(b: char, rest: string, col: nat, line: nat, single: bool, indent: int, acc: string)
    requires IsBlank(b)
    ensures FlowText(Cursor([b] + rest, col, line), single, indent, acc)
         == FlowBlanks(Cursor(rest, col + 1, line), single, indent, acc, false, [], [], [b])
  {
    assert ([b] + rest)[1..] == rest;
    assert [] + [b] == [b];
  }

  lemma BlankInBlanks(b: char, rest: string, col: nat, line: nat, single: bool, indent: int, acc: string, ws: string)
    requires IsBlank(b)
    ensures FlowBlanks(Cursor([b] + rest, col, line), single, indent, acc, false, [], [], ws)
         == FlowBlanks(Cursor(rest, col + 1, line), single, indent, acc, false, [], [], ws + [b])
  {
    assert ([b] + rest)[1..] == rest;
  }

  lemma BreakInText(s: string, col: nat, line: nat, single: bool, indent: int, acc: string)
    requires s != [] && IsBreak(s[0])
    ensures FlowText(Cursor(s, col, line), single, indent, acc)
         == FlowBlanks(Cursor(s, col, line), single, indent, acc, false, [], [], [])
  {
  }

  lemma WordStarts(s: string, col: nat, line: nat, single: bool, indent: int, acc: string,
                   lead: bool, lb: string, tb: string, ws: string)
    requires s != [] && !IsBlankOrBreakz(s[0])
    requires col >= 1 && col >= indent
    ensures FlowBlanks(Cursor(s, col, line), single, indent, acc, lead, lb, tb, ws)
         == FlowText(Cursor(s, col, line), single, indent, acc + JoinBreaks(lead, lb, tb, ws))
  {
  }

  lemma QuoteEnds(rest: string, col: nat, line: nat, single: bool, indent: int, acc: string)
    requires rest != [] && rest[0] == (if single then '\'' else '"')
    requires single && |rest| > 1 ==> rest[1] != '\''
    ensures FlowText(Cursor(rest, col, line), single, indent, acc) == Ok(Scanned(acc, Cursor(rest, col, line)))
  {
  }

  // ------------------------------------------------------------------ reading the text back

  // One quoted scalar on its way through the scanner: the value, how it was written, the
  // scanner's indentation and the text from the closing quote on.
  datatype Reading = Reading(v: string, single: bool, ctx: ScalarContext, indent: int, rest: string) {

    function Atoms(): (atoms: seq<string>)
      ensures |atoms| == |v|
    {
      FlowAtoms(v, single, ctx.allowUnicode)
    }

    function Atom(i: nat): string {
      if i < |v| then FlowAtom(v[i], single, ctx.allowUnicode) else []
    }

    predicate Blank(i: nat) {
      i < |v| && WrittenBlank(v[i], single)
    }

    // The text from atom `i` on, the writer standing in column `wcol`.
    function Text(i: nat, wcol: nat): string {
      if i <= |v| then AtomText(Atoms(), i, wcol, ctx) + rest else []
    }

    predicate Folds(i: nat, wcol: nat) {
      i < |v| && FoldsAt(Atoms(), i, wcol, ctx)
    }

    // The column the writer stands in after atom `i`.
    function Next(i: nat, wcol: nat): nat {
      if Folds(i, wcol) then Continuation(ctx) else wcol + |Atom(i)|
    }

    predicate KeepsTabs(i: nat, wcol: nat) {
      i <= |v| && !FoldTouchesTab(Atoms(), i, wcol, ctx)
    }

    ghost predicate Valid() {
      && Carries(v, single)
      && (Folding(ctx) ==> Continuation(ctx) >= indent)
      && rest != [] && rest[0] == (if single then '\'' else '"')
      && (single && |rest| > 1 ==> rest[1] != '\'')
    }

    // The scanner may stand in column `col` in front of atom `i`.
    ghost predicate Ready(i: nat, wcol: nat, col: nat) {
      Valid() && KeepsTabs(i, wcol) && col >= 1 && col >= indent
    }

    // What reading from atom `i` on must give: the rest of the value after `acc`, the scanner
    // standing on the closing quote as many lines down as the writer broke the text.
    ghost predicate Reads(r: ScanResult, i: nat, wcol: nat, acc: string, line: nat) {
      && r.Ok? && i <= |v|
      && r.value.value == acc + v[i..]
      && r.value.end.s == rest
      && r.value.end.line == line + FoldCount(Atoms(), i, wcol, ctx)
    }
  }

  // A fold has no white space beside it.
  lemma FoldNeighbours(j: Reading, i: nat, wcol: nat)
    requires j.Folds(i, wcol) && j.KeepsTabs(i, wcol)
    ensures j.v[i] == ' ' && i > 0 && !j.Blank(i - 1) && i + 1 < |j.v| && !j.Blank(i + 1)
  {
    AtomShape(j.v[i], j.single, j.ctx.allowUnicode);
    AtomShape(j.v[i - 1], j.single, j.ctx.allowUnicode);
    AtomShape(j.v[i + 1], j.single, j.ctx.allowUnicode);
    hide FlowAtom;
  }

  lemma TabsKeptOn(j: Reading, i: nat, wcol: nat)
    requires i < |j.v| && j.KeepsTabs(i, wcol)
    ensures j.KeepsTabs(i + 1, j.Next(i, wcol))
  {
    hide FlowAtom;
  }

  lemma FoldText(j: Reading, i: nat, wcol: nat)
    requires j.Folds(i, wcol)
    ensures j.Text(i, wcol) == j.ctx.lineBreak.Text() + Spaces(Continuation(j.ctx))
                               + j.Text(i + 1, Continuation(j.ctx))
  {
    hide FlowAtom, FoldsAt;
  }

  lemma PlainText(j: Reading, i: nat, wcol: nat)
    requires i < |j.v| && !j.Folds(i, wcol)
    ensures j.Text(i, wcol) == j.Atom(i) + j.Text(i + 1, wcol + |j.Atom(i)|)
  {
    hide FlowAtom, FoldsAt;
  }

  lemma FoldCountStep(j: Reading, i: nat, wcol: nat)
    requires i < |j.v|
    ensures FoldCount(j.Atoms(), i, wcol, j.ctx)
         == (if j.Folds(i, wcol) then 1 else 0) + FoldCount(j.Atoms(), i + 1, j.Next(i, wcol), j.ctx)
  {
    hide FlowAtom, FoldsAt;
  }

  // Reading on from the next atom is reading on from this one, its character being in `acc`.
  lemma ReadsOn(j: Reading, i: nat, wcol: nat, r: ScanResult, acc: string, line: nat)
    requires i < |j.v|
    requires j.Reads(r, i + 1, j.Next(i, wcol), acc + [j.v[i]], if j.Folds(i, wcol) then line + 1 else line)
    ensures j.Reads(r, i, wcol, acc, line)
  {
    FoldCountStep(j, i, wcol);
    hide FoldCount, FoldsAt, FlowAtom, Reading.Next, Reading.Folds;
    assert acc + [j.v[i]] + j.v[i + 1..] == acc + j.v[i..];
  }

  lemma FoldIsRead(j: Reading, i: nat, wcol: nat, col: nat, line: nat, acc: string)
    requires j.Folds(i, wcol)
    ensures FlowText(Cursor(j.Text(i, wcol), col, line), j.single, j.indent, acc)
         == FlowBlanks(Cursor(j.Text(i + 1, Continuation(j.ctx)), Continuation(j.ctx), line + 1),
                       j.single, j.indent, acc, true, ['\n'], [], [])
  {
    FoldText(j, i, wcol);
    hide FlowText, FlowBlanks, FlowLine, Reading.Text, Reading.Folds;
    BreakInText(j.Text(i, wcol), col, line, j.single, j.indent, acc);
    FoldRead(j.ctx, j.Text(i + 1, Continuation(j.ctx)), col, line, j.single, j.indent, acc, []);
  }

  // The scanner is inside a word, or just behind the opening quote.
  lemma {:induction false} TextReads(j: Reading, i: nat, wcol: nat, col: nat, line: nat, acc: string)
    requires j.Ready(i, wcol, col)
    ensures j.Reads(FlowText(Cursor(j.Text(i, wcol), col, line), j.single, j.indent, acc), i, wcol, acc, line)
    decreases |j.v| - i, 2
  {
    if i == |j.v| {
      assert j.Text(i, wcol) == j.rest;
      QuoteEnds(j.rest, col, line, j.single, j.indent, acc);
    } else if j.Folds(i, wcol) {
      FoldReads(j, i, wcol, col, line, acc);
    } else if j.Blank(i) {
      BlankReads(j, i, wcol, col, line, acc);
    } else {
      AtomReads(j, i, wcol, col, line, acc);
    }
  }

  lemma {:induction false} FoldReads(j: Reading, i: nat, wcol: nat, col: nat, line: nat, acc: string)
    requires j.Ready(i, wcol, col) && j.Folds(i, wcol)
    ensures j.Reads(FlowText(Cursor(j.Text(i, wcol), col, line), j.single, j.indent, acc), i, wcol, acc, line)
    decreases |j.v| - i, 1
  {
    var n := Continuation(j.ctx);
    FoldNeighbours(j, i, wcol);
    TabsKeptOn(j, i, wcol);
    FoldIsRead(j, i, wcol, col, line, acc);
    WordReads(j, i + 1, n, n, line + 1, acc, true, ['\n'], []);
    hide FlowText, FlowBlanks, FlowLine, Reading.Text, Reading.Folds, Reading.Reads;
    ReadsOn(j, i, wcol, FlowText(Cursor(j.Text(i, wcol), col, line), j.single, j.indent, acc), acc, line);
  }

  lemma {:induction false} BlankReads(j: Reading, i: nat, wcol: nat, col: nat, line: nat, acc: string)
    requires j.Ready(i, wcol, col) && j.Blank(i) && !j.Folds(i, wcol)
    ensures j.Reads(FlowText(Cursor(j.Text(i, wcol), col, line), j.single, j.indent, acc), i, wcol, acc, line)
    decreases |j.v| - i, 1
  {
    TabsKeptOn(j, i, wcol);
    PlainText(j, i, wcol);
    AtomShape(j.v[i], j.single, j.ctx.allowUnicode);
    hide FlowText, FlowBlanks, FlowLine, FlowAtom, Reading.Text, Reading.Folds, Reading.Reads;
    BlankInText(j.v[i], j.Text(i + 1, wcol + 1), col, line, j.single, j.indent, acc);
    BlanksRead(j, i + 1, wcol + 1, col + 1, line, acc, [j.v[i]]);
    ReadsOn(j, i, wcol, FlowText(Cursor(j.Text(i, wcol), col, line), j.single, j.indent, acc), acc, line);
  }

  lemma AtomIsRead(j: Reading, i: nat, wcol: nat, col: nat, line: nat, acc: string)
    requires j.Valid() && i < |j.v| && !j.Blank(i) && !j.Folds(i, wcol)
    ensures FlowText(Cursor(j.Text(i, wcol), col, line), j.single, j.indent, acc)
         == FlowText(Cursor(j.Text(i + 1, wcol + |j.Atom(i)|), col + |j.Atom(i)|, line),
                     j.single, j.indent, acc + [j.v[i]])
  {
    PlainText(j, i, wcol);
    hide FlowText, FlowAtom, Reading.Text, Reading.Folds;
    AtomDecodes(j.v[i], j.single, j.ctx.allowUnicode, j.Text(i + 1, wcol + |j.Atom(i)|), col, line, j.indent, acc);
  }

  lemma {:induction false} AtomReads(j: Reading, i: nat, wcol: nat, col: nat, line: nat, acc: string)
    requires j.Ready(i, wcol, col) && i < |j.v| && !j.Blank(i) && !j.Folds(i, wcol)
    ensures j.Reads(FlowText(Cursor(j.Text(i, wcol), col, line), j.single, j.indent, acc), i, wcol, acc, line)
    decreases |j.v| - i, 1
  {
    hide FlowText, FlowBlanks, FlowLine, FlowAtom, Reading.Text, Reading.Folds, Reading.Reads, Reading.Blank, Reading.Atom,
         Reading.KeepsTabs, Reading.Valid;
    TabsKeptOn(j, i, wcol);
    AtomIsRead(j, i, wcol, col, line, acc);
    TextReads(j, i + 1, wcol + |j.Atom(i)|, col + |j.Atom(i)|, line, acc + [j.v[i]]);
    ReadsOn(j, i, wcol, FlowText(Cursor(j.Text(i, wcol), col, line), j.single, j.indent, acc), acc, line);
  }

  // The scanner has just read the white space `ws` that ends in front of atom `i`.
  lemma {:induction false} BlanksRead(j: Reading, i: nat, wcol: nat, col: nat, line: nat, acc: string, ws: string)
    requires j.Ready(i, wcol, col) && 0 < i && j.Blank(i - 1)
    ensures j.Reads(FlowBlanks(Cursor(j.Text(i, wcol), col, line), j.single, j.indent, acc, false, [], [], ws),
                    i, wcol, acc + ws, line)
    decreases |j.v| - i, 4
  {
    if j.Folds(i, wcol) {
      FoldNeighbours(j, i, wcol);
    } else if j.Blank(i) {
      MoreBlanksRead(j, i, wcol, col, line, acc, ws);
    } else {
      WordReads(j, i, wcol, col, line, acc, false, [], ws);
    }
  }

  lemma {:induction false} MoreBlanksRead(j: Reading, i: nat, wcol: nat, col: nat, line: nat, acc: string, ws: string)
    requires j.Ready(i, wcol, col) && j.Blank(i) && !j.Folds(i, wcol)
    ensures j.Reads(FlowBlanks(Cursor(j.Text(i, wcol), col, line), j.single, j.indent, acc, false, [], [], ws),
                    i, wcol, acc + ws, line)
    decreases |j.v| - i, 3
  {
    TabsKeptOn(j, i, wcol);
    PlainText(j, i, wcol);
    AtomShape(j.v[i], j.single, j.ctx.allowUnicode);
    hide FlowText, FlowBlanks, FlowLine, FlowAtom, Reading.Text, Reading.Folds, Reading.Reads;
    BlankInBlanks(j.v[i], j.Text(i + 1, wcol + 1), col, line, j.single, j.indent, acc, ws);
    BlanksRead(j, i + 1, wcol + 1, col + 1, line, acc, ws + [j.v[i]]);
    assert acc + (ws + [j.v[i]]) == acc + ws + [j.v[i]];
    ReadsOn(j, i, wcol, FlowBlanks(Cursor(j.Text(i, wcol), col, line), j.single, j.indent, acc, false, [], [], ws),
            acc + ws, line);
  }

  lemma WordBegins(j: Reading, i: nat, wcol: nat)
    requires j.Valid() && i <= |j.v| && !j.Blank(i) && !j.Folds(i, wcol)
    ensures var s := j.Text(i, wcol); s != [] && !IsBlankOrBreakz(s[0])
  {
    hide FlowText, FlowBlanks, FlowLine, Reading.Folds;
    if i < |j.v| {
      PlainText(j, i, wcol);
      AtomDecodes(j.v[i], j.single, j.ctx.allowUnicode, [], 1, 0, 0, []);
    } else {
      assert j.Text(i, wcol) == j.rest;
    }
  }

  // White space is over in front of atom `i`: what it stood for is appended and a word begins.
  lemma {:induction false} WordReads(j: Reading, i: nat, wcol: nat, col: nat, line: nat, acc: string,
                                     lead: bool, lb: string, ws: string)
    requires j.Ready(i, wcol, col) && !j.Blank(i)
    ensures j.Reads(FlowBlanks(Cursor(j.Text(i, wcol), col, line), j.single, j.indent, acc, lead, lb, [], ws),
                    i, wcol, acc + JoinBreaks(lead, lb, [], ws), line)
    decreases |j.v| - i, 3
  {
    if j.Folds(i, wcol) {
      FoldNeighbours(j, i, wcol);
    }
    WordBegins(j, i, wcol);
    hide FlowText, FlowBlanks, FlowLine, FlowAtom, Reading.Text, Reading.Folds, Reading.Reads;
    WordStarts(j.Text(i, wcol), col, line, j.single, j.indent, acc, lead, lb, [], ws);
    TextReads(j, i, wcol, col, line, acc + JoinBreaks(lead, lb, [], ws));
  }

  // ------------------------------------------------------------------ the two theorems

  // Whether a quoted scalar reads back as `v` in front of `tail`: reading goes on past the white
  // space and the comment that follow, and what comes next must be allowed there.
  ghost predicate ReadsBack(r: ScanResult, v: string, tail: string, flowLevel: nat, oneLine: bool) {
    var eol := SkipWsToEol(tail, true);
    var rest := Drop(tail, eol.count);
    if !eol.ok then r == Err(CommentNeedsSpace)
    else if TrailingOk(Peek(rest), flowLevel, oneLine) then
      r.Ok? && r.value.value == v && r.value.end.s == rest
    else r == Err(InvalidTrailingContent)
  }

  lemma Finishes(v: string, q: string, tail: string, c: Cursor, line: nat, flowLevel: nat)
    requires |q| == 1 && c.s == q + tail
    ensures ReadsBack(FinishFlow(v, c, line, flowLevel), v, tail, flowLevel, line == c.line)
  {
    assert Drop(q + tail, 1) == tail;
    hide SkipWsToEol;
  }

  lemma LoopReads(j: Reading, col: nat, line: nat)
    requires j.Ready(0, j.ctx.indent, col)
    ensures var r := FlowLine(Cursor(j.Text(0, j.ctx.indent), col, line), j.single, j.indent, []);
            && r.Ok? && r.value.value == j.v && r.value.end.s == j.rest
            && r.value.end.line == line + FoldCount(j.Atoms(), 0, j.ctx.indent, j.ctx)
  {
    TextReads(j, 0, j.ctx.indent, col, line, []);
    FirstLine(j, col, line);
    hide FlowText, FlowBlanks, FlowLine, Reading.Text;
    assert [] + j.v[0..] == j.v;
  }

  // Behind the opening quote no check of the outer loop can fail.
  lemma FirstLine(j: Reading, col: nat, line: nat)
    requires j.Valid() && col >= 1 && col >= j.indent
    ensures FlowLine(Cursor(j.Text(0, j.ctx.indent), col, line), j.single, j.indent, [])
         == FlowText(Cursor(j.Text(0, j.ctx.indent), col, line), j.single, j.indent, [])
  {
    assert j.Text(0, j.ctx.indent) != [] && !IsZ(j.Text(0, j.ctx.indent)[0]) by {
      if j.Blank(0) {
        AtomShape(j.v[0], j.single, j.ctx.allowUnicode);
        assert !FoldsAt(j.Atoms(), 0, j.ctx.indent, j.ctx);
        PlainText(j, 0, j.ctx.indent);
      } else {
        WordBegins(j, 0, j.ctx.indent);
      }
    }
    hide FlowText, FlowBlanks, Reading.Text;
  }

  function Quote(single: bool): (q: string)
    ensures |q| == 1
  {
    if single then "'" else "\""
  }

  lemma QuotedReads(j: Reading, tail: string, col: nat, line: nat, flowLevel: nat)
    requires j.rest == Quote(j.single) + tail
    requires j.Ready(0, j.ctx.indent, col + 1)
    ensures ReadsBack(ScanFlow(Cursor(Quote(j.single) + j.Text(0, j.ctx.indent), col, line),
                               j.single, j.indent, flowLevel),
                      j.v, tail, flowLevel, FoldCount(j.Atoms(), 0, j.ctx.indent, j.ctx) == 0)
  {
    hide FlowText, FlowBlanks, FlowLine, Reading.Text, Reading.Ready, FoldCount, FinishFlow, ReadsBack, Quote;
    var text := j.Text(0, j.ctx.indent);
    assert Drop(Quote(j.single) + text, 1) == text;
    LoopReads(j, col + 1, line);
    var r := FlowLine(Cursor(text, col + 1, line), j.single, j.indent, []);
    Finishes(j.v, Quote(j.single), tail, r.value.end, line, flowLevel);
  }

  lemma {:induction false} DoubleQuotesKeepTabs(v: string, i: nat, wcol: nat, ctx: ScalarContext)
    requires i <= |v|
    ensures !FoldTouchesTab(FlowAtoms(v, false, ctx.allowUnicode), i, wcol, ctx)
    decreases |v| - i
  {
    var atoms := FlowAtoms(v, false, ctx.allowUnicode);
    if i < |v| {
      DoubleQuotesKeepTabs(v, i + 1, Continuation(ctx), ctx);
      DoubleQuotesKeepTabs(v, i + 1, wcol + |atoms[i]|, ctx);
      if FoldsAt(atoms, i, wcol, ctx) {
        AtomShape(v[i - 1], false, ctx.allowUnicode);
        AtomShape(v[i + 1], false, ctx.allowUnicode);
      }
    }
  }

  // Every string whatever survives double quotes, escapes and folds included, at any width; where
  // text is folded, its indentation must be the scanner's own or deeper.
  lemma DoubleQuotedRoundTrip(v: string, ctx: ScalarContext, tail: string, col: nat, line: nat,
                              indent: int, flowLevel: nat)
    requires col >= indent && (Folding(ctx) ==> Continuation(ctx) >= indent)
    ensures var text := Rendered(v, DoubleQuoted, ctx);
            var oneLine := FoldCount(DoubleQuotedAtoms(v, ctx.allowUnicode), 0, ctx.indent, ctx) == 0;
            && text.Ok?
            && ReadsBack(ScanFlow(Cursor(text.value + tail, col, line), false, indent, flowLevel),
                         v, tail, flowLevel, oneLine)
  {
    DoubleQuotesKeepTabs(v, 0, ctx.indent, ctx);
    var j := Reading(v, false, ctx, indent, "\"" + tail);
    assert Rendered(v, DoubleQuoted, ctx).value + tail == Quote(false) + j.Text(0, ctx.indent);
    QuotedReads(j, tail, col, line, flowLevel);
  }

  // A scalar is written on one line when folding is off or it is a key.
  lemma {:induction false} NoFolds(atoms: seq<string>, i: nat, wcol: nat, ctx: ScalarContext)
    requires i <= |atoms| && !Folding(ctx)
    ensures FoldCount(atoms, i, wcol, ctx) == 0 && !FoldTouchesTab(atoms, i, wcol, ctx)
    decreases |atoms| - i
  {
    if i < |atoms| {
      NoFolds(atoms, i + 1, wcol + |atoms[i]|, ctx);
    }
  }

  // With unicode off the text is ASCII.
  lemma {:induction false} DoubleQuotedAscii(v: string, i: nat, wcol: nat, ctx: ScalarContext)
    requires i <= |v| && !ctx.allowUnicode
    ensures forall c | c in AtomText(DoubleQuotedAtoms(v, false), i, wcol, ctx) :: c < '\U{80}'
    decreases |v| - i
  {
    var atoms := DoubleQuotedAtoms(v, false);
    if i < |v| {
      DoubleQuotedAscii(v, i + 1, Continuation(ctx), ctx);
      DoubleQuotedAscii(v, i + 1, wcol + |atoms[i]|, ctx);
      AtomAscii(v[i]);
      hide DoubleQuotedAtom;
    }
  }

  lemma AtomAscii(c: char)
    ensures forall x | x in DoubleQuotedAtom(c, false) :: x < '\U{80}'
  {
    var a := DoubleQuotedAtom(c, false);
    if NamedEscape(c) == NUL && a[0] == '\\' {
      forall x | x in a ensures x < '\U{80}' {
        assert forall k | 2 <= k < |a| :: IsHex(a[k]);
      }
    }
  }
}
