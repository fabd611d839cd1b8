// Reading back what the emitter writes as a plain scalar.
module PlainRoundTrip {
  import opened CharTraits
  import opened Input
  import opened Results
  import opened ScalarEmitter
  import opened FlowScan
  import opened PlainScan
  import opened FlowRoundTrip

  // One plain scalar on its way through the scanner.
  datatype PlainReading = PlainReading(v: string, ctx: ScalarContext, indent: int, flow: bool, tail: string) {

    function Text(i: nat, wcol: nat): string {
      if i <= |v| then AtomText(CharAtoms(v), i, wcol, ctx) + tail else []
    }

    predicate Folds(i: nat, wcol: nat) {
      i < |v| && FoldsAt(CharAtoms(v), i, wcol, ctx)
    }

    function Next(i: nat, wcol: nat): nat {
      if Folds(i, wcol) then Continuation(ctx) else wcol + 1
    }

    // What the emitter guarantees of the value, and what the scanner needs of its surroundings.
    ghost predicate Valid() {
      && PlainSyntaxReason(v, ctx).None?
      && (flow ==> ctx.inFlow)
      && (Folding(ctx) ==> Continuation(ctx) >= indent)
      && !InWord(tail, flow)
    }

    // Whether the last word is a lone `-` and a flow indicator follows it directly.
    predicate DashMeetsFlow() {
      flow && |v| > 1 && v[|v| - 1] == '-' && v[|v| - 2] == ' ' && IsFlow(Peek(tail))
    }

    // The scanner behind the last character of the scalar, deciding what `tail` means.
    function Done(col: nat, line: nat): ScanResult {
      PlainAfter(PlainState(Cursor(tail, col, line), false, v, [], [], []), indent, flow)
    }

    function EndLine(i: nat, wcol: nat, line: nat): nat {
      if i <= |v| then line + FoldCount(CharAtoms(v), i, wcol, ctx) else line
    }

    // What reading must come to: the value complete and the scanner in front of `tail`, or the
    // scanner's refusal of a lone `-`.
    ghost predicate Reads(r: ScanResult, endLine: nat) {
      if DashMeetsFlow() then r == Err(DashBeforeFlowIndicator)
      else exists col: nat :: col >= 1 && col >= indent && r == Done(col, endLine)
    }
  }

  // ------------------------------------------------------------------ what the value guarantees

  lemma ValueChars(j: PlainReading, i: nat)
    requires j.Valid() && i < |j.v|
    ensures IsBlank(j.v[i]) ==> j.v[i] == ' '
    ensures !IsBreakz(j.v[i])
    ensures j.flow ==> !IsFlow(j.v[i])
    ensures j.v[i] == ':' ==> i + 1 < |j.v| && j.v[i + 1] != ' '
    ensures j.v[i] == '#' && i > 0 ==> j.v[i - 1] != ' '
    ensures j.v[i] == ' ' ==> i > 0 && i + 1 < |j.v|
    ensures i == 0 ==> j.v[0] != '#'
  {
    assert j.v[i] in j.v;
    assert j.v[i] == ':' && i + 1 < |j.v| && j.v[i + 1] == ' ' ==> HasPair(j.v, ':', ' ');
    assert i > 0 && j.v[i - 1] == ' ' && j.v[i] == '#' ==> HasPair(j.v, ' ', '#');
    assert NeedsEscape('\r') && NeedsEscape(NUL);
    assert IsIndicator('#');
    hide NeedsEscape, HasPair;
  }

  lemma PlainTextStep(j: PlainReading, i: nat, wcol: nat)
    requires i < |j.v| && !j.Folds(i, wcol)
    ensures j.Text(i, wcol) == [j.v[i]] + j.Text(i + 1, wcol + 1)
  {
    hide FoldsAt;
  }

  lemma PlainFoldStep(j: PlainReading, i: nat, wcol: nat)
    requires j.Folds(i, wcol)
    ensures j.Text(i, wcol) == j.ctx.lineBreak.Text() + Spaces(Continuation(j.ctx)) + j.Text(i + 1, Continuation(j.ctx))
    ensures i + 1 < |j.v| && j.v[i] == ' ' && j.v[i + 1] != ' ' && j.v[i + 1] != '#'
  {
    assert CharAtoms(j.v)[i] == [j.v[i]];
    assert j.Folds(i, wcol) ==> CharAtoms(j.v)[i + 1] == [j.v[i + 1]];
    assert AtomText(CharAtoms(j.v), i, wcol, j.ctx) + j.tail == j.Text(i, wcol);
  }

  lemma EndLineOn(j: PlainReading, i: nat, wcol: nat, line: nat)
    requires i < |j.v|
    ensures j.EndLine(i, wcol, line) == j.EndLine(i + 1, j.Next(i, wcol), if j.Folds(i, wcol) then line + 1 else line)
  {
    hide FoldsAt;
  }

  // The character in front of the scanner, and the one behind it, at a word character.
  lemma WordChar(j: PlainReading, i: nat, wcol: nat)
    requires j.Valid() && i < |j.v| && j.v[i] != ' '
    ensures !j.Folds(i, wcol)
    ensures j.Text(i, wcol) == [j.v[i]] + j.Text(i + 1, wcol + 1)
    ensures InWord(j.Text(i, wcol), j.flow)
    ensures IsFlow(PeekNth(j.Text(i, wcol), 1)) && j.flow ==> i + 1 == |j.v| && IsFlow(Peek(j.tail))
  {
    assert CharAtoms(j.v)[i] == [j.v[i]];
    PlainTextStep(j, i, wcol);
    ValueChars(j, i);
    if i + 1 < |j.v| {
      ValueChars(j, i + 1);
      if j.Folds(i + 1, wcol + 1) {
        PlainFoldStep(j, i + 1, wcol + 1);
      } else {
        PlainTextStep(j, i + 1, wcol + 1);
      }
    }
    hide PlainSyntaxReason, PlainReading.Folds, AtomText;
  }

  // ------------------------------------------------------------------ reading

  lemma {:induction false} PlainSpacesSkipped(n: nat, rest: string, st: PlainState, indent: int, flow: bool)
    requires st.lw && st.c.s == Spaces(n) + rest
    ensures PlainBlanks(st, indent, flow)
         == PlainBlanks(st.(c := Cursor(rest, st.c.col + n, st.c.line)), indent, flow)
  {
    if n == 0 {
      assert st.c.s == rest;
    } else {
      var next := st.(c := Skip(st.c, 1));
      assert st.c.s[1..] == Spaces(n - 1) + rest;
      assert PlainBlanks(st, indent, flow) == PlainBlanks(next, indent, flow);
      hide PlainBlanks;
      PlainSpacesSkipped(n - 1, rest, next, indent, flow);
    }
  }

  lemma PlainFoldRead(ctx: ScalarContext, rest: string, st: PlainState, indent: int, flow: bool)
    requires st.c.s == ctx.lineBreak.Text() + Spaces(Continuation(ctx)) + rest && !st.lw && st.leadingBreak == []
    ensures PlainAfter(st, indent, flow)
         == PlainBlanks(st.(c := Cursor(rest, Continuation(ctx), st.c.line + 1), lw := true, ws := [],
                            leadingBreak := ['\n']), indent, flow)
  {
    var t := ctx.lineBreak.Text();
    assert Drop(st.c.s, |t|) == Spaces(Continuation(ctx)) + rest;
    assert st.c.s[|t|] == ' ';
    assert [] + ['\n'] == ['\n'];
    var d := st.(c := SkipBreak(st.c), lw := true, ws := [], leadingBreak := ['\n']);
    PlainSpacesSkipped(Continuation(ctx), rest, d, indent, flow);
  }

  // The scanner's state in front of character `i` when the value up to `n` has been read.
  function At(j: PlainReading, i: nat, wcol: nat, col: nat, line: nat, n: nat, lw: bool, lb: string, ws: string): PlainState
    requires n <= |j.v|
  {
    PlainState(Cursor(j.Text(i, wcol), col, line), lw, j.v[..n], lb, [], ws)
  }

  // A word of the value is read up to the white space, or the tail, that ends it.
  lemma {:induction false} WordReads(j: PlainReading, i: nat, wcol: nat, col: nat, line: nat)
    requires j.Valid() && i <= |j.v| && col >= 1 && col >= j.indent
    requires j.DashMeetsFlow() ==> i <= |j.v| - 2
    ensures j.Reads(PlainWord(At(j, i, wcol, col, line, i, false, [], []), j.indent, j.flow), j.EndLine(i, wcol, line))
    decreases |j.v| - i, 2
  {
    if i == |j.v| {
      assert j.Text(i, wcol) == j.tail;
      assert j.v[..i] == j.v;
      assert PlainWord(At(j, i, wcol, col, line, i, false, [], []), j.indent, j.flow) == j.Done(col, line);
    } else if j.v[i] == ' ' {
      SpaceReads(j, i, wcol, col, line);
    } else {
      CharReads(j, i, wcol, col, line);
    }
  }

  lemma {:induction false} CharReads(j: PlainReading, i: nat, wcol: nat, col: nat, line: nat)
    requires j.Valid() && i < |j.v| && j.v[i] != ' ' && col >= 1 && col >= j.indent
    requires j.DashMeetsFlow() ==> i <= |j.v| - 2
    ensures j.Reads(PlainWord(At(j, i, wcol, col, line, i, false, [], []), j.indent, j.flow), j.EndLine(i, wcol, line))
    decreases |j.v| - i, 1
  {
    hide PlainWord, PlainAfter, PlainReading.Valid, PlainReading.Reads, PlainReading.EndLine, PlainReading.Folds;
    CharIsRead(j, i, wcol, col, line);
    WordChar(j, i, wcol);
    EndLineOn(j, i, wcol, line);
    WordReads(j, i + 1, wcol + 1, col + 1, line);
  }

  lemma CharIsRead(j: PlainReading, i: nat, wcol: nat, col: nat, line: nat)
    requires j.Valid() && i < |j.v| && j.v[i] != ' '
    ensures PlainWord(At(j, i, wcol, col, line, i, false, [], []), j.indent, j.flow)
         == PlainWord(At(j, i + 1, wcol + 1, col + 1, line, i + 1, false, [], []), j.indent, j.flow)
  {
    WordChar(j, i, wcol);
    hide PlainAfter, PlainReading.Text, PlainReading.Valid, InWord;
    assert j.v[..i] + [j.v[i]] == j.v[..i + 1];
    assert Drop(j.Text(i, wcol), 1) == j.Text(i + 1, wcol + 1);
  }

  lemma WordStopsAtSpace(j: PlainReading, i: nat, wcol: nat, col: nat, line: nat)
    requires j.Valid() && i < |j.v| && j.v[i] == ' '
    ensures var st := At(j, i, wcol, col, line, i, false, [], []);
            PlainWord(st, j.indent, j.flow) == PlainAfter(st, j.indent, j.flow)
  {
    if j.Folds(i, wcol) {
      PlainFoldStep(j, i, wcol);
    } else {
      PlainTextStep(j, i, wcol);
    }
    hide PlainAfter, PlainReading.Text, PlainReading.Folds, PlainReading.Valid;
  }

  lemma {:induction false} SpaceReads(j: PlainReading, i: nat, wcol: nat, col: nat, line: nat)
    requires j.Valid() && i < |j.v| && j.v[i] == ' ' && col >= 1 && col >= j.indent
    ensures j.Reads(PlainWord(At(j, i, wcol, col, line, i, false, [], []), j.indent, j.flow), j.EndLine(i, wcol, line))
    decreases |j.v| - i, 1
  {
    WordStopsAtSpace(j, i, wcol, col, line);
    if j.Folds(i, wcol) {
      FoldReads(j, i, wcol, col, line);
    } else {
      SingleSpaceReads(j, i, wcol, col, line);
    }
  }

  lemma NextFits(j: PlainReading, i: nat, wcol: nat)
    requires j.Valid() && j.Folds(i, wcol) && j.v[i] == ' '
    ensures Continuation(j.ctx) >= j.indent && Continuation(j.ctx) >= 1
    ensures JoinBreaks(true, ['\n'], [], []) == j.v[i..i + 1]
  {
  }

  lemma {:induction false} FoldReads(j: PlainReading, i: nat, wcol: nat, col: nat, line: nat)
    requires j.Valid() && i < |j.v| && j.Folds(i, wcol) && j.v[i] == ' '
    ensures j.Reads(PlainAfter(At(j, i, wcol, col, line, i, false, [], []), j.indent, j.flow), j.EndLine(i, wcol, line))
    decreases |j.v| - i, 0
  {
    hide PlainWord, PlainAfter, PlainBlanks, PlainReading.Reads, PlainReading.EndLine, PlainReading.Folds, At;
    EndLineOn(j, i, wcol, line);
    FoldIsRead(j, i, wcol, col, line);
    NextFits(j, i, wcol);
    NextWordReads(j, i + 1, Continuation(j.ctx), Continuation(j.ctx), line + 1, i, true, ['\n'], []);
  }

  lemma {:induction false} SingleSpaceReads(j: PlainReading, i: nat, wcol: nat, col: nat, line: nat)
    requires j.Valid() && i < |j.v| && j.v[i] == ' ' && !j.Folds(i, wcol) && col >= 1 && col >= j.indent
    ensures j.Reads(PlainAfter(At(j, i, wcol, col, line, i, false, [], []), j.indent, j.flow), j.EndLine(i, wcol, line))
    decreases |j.v| - i, 0
  {
    hide PlainWord, PlainAfter, PlainBlanks, PlainReading.Valid, PlainReading.Reads, PlainReading.EndLine,
         PlainReading.Folds, At;
    ValueChars(j, i);
    EndLineOn(j, i, wcol, line);
    FirstSpaceIsRead(j, i, wcol, col, line);
    BlanksRead(j, i + 1, wcol + 1, col + 1, line, i, [' ']);
  }

  lemma FoldIsRead(j: PlainReading, i: nat, wcol: nat, col: nat, line: nat)
    requires j.Folds(i, wcol)
    ensures PlainAfter(At(j, i, wcol, col, line, i, false, [], []), j.indent, j.flow)
         == PlainBlanks(At(j, i + 1, Continuation(j.ctx), Continuation(j.ctx), line + 1, i, true, ['\n'], []), j.indent, j.flow)
    ensures i + 1 < |j.v| && j.v[i + 1] != ' '
  {
    PlainFoldStep(j, i, wcol);
    hide PlainAfter, PlainBlanks, PlainReading.Text, PlainReading.Folds;
    PlainFoldRead(j.ctx, j.Text(i + 1, Continuation(j.ctx)), At(j, i, wcol, col, line, i, false, [], []), j.indent, j.flow);
  }

  lemma FirstSpaceIsRead(j: PlainReading, i: nat, wcol: nat, col: nat, line: nat)
    requires i < |j.v| && j.v[i] == ' ' && !j.Folds(i, wcol)
    ensures PlainAfter(At(j, i, wcol, col, line, i, false, [], []), j.indent, j.flow)
         == PlainBlanks(At(j, i + 1, wcol + 1, col + 1, line, i, false, [], [' ']), j.indent, j.flow)
  {
    PlainTextStep(j, i, wcol);
    hide PlainReading.Text, PlainReading.Folds;
    assert Drop(j.Text(i, wcol), 1) == j.Text(i + 1, wcol + 1);
    assert [] + [' '] == [' '];
  }

  lemma SpaceIsRead(j: PlainReading, i: nat, wcol: nat, col: nat, line: nat, n: nat, ws: string)
    requires i < |j.v| && j.v[i] == ' ' && !j.Folds(i, wcol) && n <= |j.v|
    ensures PlainBlanks(At(j, i, wcol, col, line, n, false, [], ws), j.indent, j.flow)
         == PlainBlanks(At(j, i + 1, wcol + 1, col + 1, line, n, false, [], ws + [' ']), j.indent, j.flow)
  {
    PlainTextStep(j, i, wcol);
    hide PlainReading.Text, PlainReading.Folds;
    assert Drop(j.Text(i, wcol), 1) == j.Text(i + 1, wcol + 1);
  }

  // White space inside a line: the value up to `n` has been read and `ws` is what follows there.
  lemma {:induction false} BlanksRead(j: PlainReading, i: nat, wcol: nat, col: nat, line: nat, n: nat, ws: string)
    requires j.Valid() && n < i < |j.v| && col >= 1 && col >= j.indent
    requires j.v[i - 1] == ' ' && ws == j.v[n..i]
    ensures j.Reads(PlainBlanks(At(j, i, wcol, col, line, n, false, [], ws), j.indent, j.flow), j.EndLine(i, wcol, line))
    decreases |j.v| - i, 4
  {
    if j.v[i] == ' ' {
      MoreBlanksRead(j, i, wcol, col, line, n, ws);
    } else {
      NextWordReads(j, i, wcol, col, line, n, false, [], ws);
    }
  }

  lemma NoFoldAfterSpace(j: PlainReading, i: nat, wcol: nat)
    requires 0 < i < |j.v| && j.v[i - 1] == ' '
    ensures !j.Folds(i, wcol)
  {
    assert CharAtoms(j.v)[i - 1] == " ";
  }

  lemma {:induction false} MoreBlanksRead(j: PlainReading, i: nat, wcol: nat, col: nat, line: nat, n: nat, ws: string)
    requires j.Valid() && n < i < |j.v| && col >= 1 && col >= j.indent
    requires j.v[i - 1] == ' ' && j.v[i] == ' ' && ws == j.v[n..i]
    ensures j.Reads(PlainBlanks(At(j, i, wcol, col, line, n, false, [], ws), j.indent, j.flow), j.EndLine(i, wcol, line))
    decreases |j.v| - i, 3
  {
    hide PlainWord, PlainAfter, PlainBlanks, PlainReading.Valid, PlainReading.Reads, PlainReading.EndLine,
         PlainReading.Folds, At;
    NoFoldAfterSpace(j, i, wcol);
    ValueChars(j, i);
    EndLineOn(j, i, wcol, line);
    SpaceIsRead(j, i, wcol, col, line, n, ws);
    assert ws + [' '] == j.v[n..i + 1];
    BlanksRead(j, i + 1, wcol + 1, col + 1, line, n, ws + [' ']);
  }

  // A new word begins at character `i`: the white space in front of it is settled first.
  lemma {:induction false} NextWordReads(j: PlainReading, i: nat, wcol: nat, col: nat, line: nat, n: nat,
                                         lw: bool, lb: string, ws: string)
    requires j.Valid() && n < i < |j.v| && col >= 1 && col >= j.indent
    requires j.v[i] != ' ' && j.v[i - 1] == ' '
    requires JoinBreaks(lw, lb, [], ws) == j.v[n..i]
    ensures j.Reads(PlainBlanks(At(j, i, wcol, col, line, n, lw, lb, ws), j.indent, j.flow), j.EndLine(i, wcol, line))
    decreases |j.v| - i, 3
  {
    WordBegins(j, i, wcol, col, line, n, lw, lb, ws);
    if !(j.DashMeetsFlow() && i == |j.v| - 1) {
      WordReads(j, i, wcol, col, line);
    }
  }

  lemma WordBegins(j: PlainReading, i: nat, wcol: nat, col: nat, line: nat, n: nat,
                   lw: bool, lb: string, ws: string)
    requires j.Valid() && n < i < |j.v| && col >= 1 && col >= j.indent
    requires j.v[i] != ' ' && j.v[i - 1] == ' '
    requires JoinBreaks(lw, lb, [], ws) == j.v[n..i]
    ensures PlainBlanks(At(j, i, wcol, col, line, n, lw, lb, ws), j.indent, j.flow)
         == if j.DashMeetsFlow() && i == |j.v| - 1 then Err(DashBeforeFlowIndicator)
            else PlainWord(At(j, i, wcol, col, line, i, false, [], []), j.indent, j.flow)
  {
    ValueChars(j, i);
    WordChar(j, i, wcol);
    DashOnlyAtEnd(j, i, wcol);
    hide PlainWord, PlainAfter, PlainReading.Valid, PlainReading.Text, PlainReading.DashMeetsFlow, NextCanBePlainScalar;
    assert j.v[..n] + j.v[n..i] == j.v[..i];
  }

  lemma DashOnlyAtEnd(j: PlainReading, i: nat, wcol: nat)
    requires j.Valid() && 0 < i < |j.v| && j.v[i] != ' ' && j.v[i - 1] == ' '
    ensures var s := j.Text(i, wcol);
            (j.flow && Peek(s) == '-' && IsFlow(PeekNth(s, 1))) <==> (j.DashMeetsFlow() && i == |j.v| - 1)
  {
    WordChar(j, i, wcol);
    if i + 1 == |j.v| {
      assert j.Text(i + 1, wcol + 1) == j.tail;
    }
  }

  // ------------------------------------------------------------------ the theorem

  // Whether a flow indicator in `tail` makes the scanner refuse the scalar's last word.
  predicate DashRefused(v: string, flow: bool, tail: string) {
    flow && |v| > 1 && v[|v| - 1] == '-' && v[|v| - 2] == ' ' && IsFlow(Peek(tail))
  }

  // Whether a line indented by `depth` that holds `rest` cannot continue a plain scalar: a document
  // marker, a comment, a `:` with white space behind it, a flow indicator or the end of the text.
  predicate NeverContinues(depth: nat, rest: string, flow: bool) {
    || (depth == 0 && NextIsDocumentIndicator(rest))
    || Peek(rest) == '#'
    || (!InWord(rest, flow) && !(flow && Peek(rest) == '-' && IsFlow(PeekNth(rest, 1))))
  }

  // What may follow a plain scalar and ends it: the end of the text, a `:` with white space behind
  // it, a flow indicator; or a comment behind some spaces; or a line that cannot continue it,
  // which outside flow collections is every line indented less than `indent`.
  datatype Ending =
    | Here(rest: string)
    | Comment(spaces: nat, rest: string)
    | NextLine(brk: LineBreak, depth: nat, rest: string)
  {
    function Text(): string {
      match this
      case Here(rest) => rest
      case Comment(spaces, rest) => Spaces(spaces + 1) + "#" + rest
      case NextLine(brk, depth, rest) => brk.Text() + Spaces(depth) + rest
    }

    predicate Valid(indent: int, flow: bool) {
      match this
      case Here(rest) => !InWord(rest, flow) && !IsBlank(Peek(rest)) && !IsBreak(Peek(rest))
      case Comment(spaces, rest) => true
      case NextLine(brk, depth, rest) =>
        && !IsBlank(Peek(rest)) && !IsBreak(Peek(rest))
        && ((!flow && depth < indent) || NeverContinues(depth, rest, flow))
    }
  }

  lemma {:induction false} SpacesThenComment(n: nat, rest: string, st: PlainState, indent: int, flow: bool)
    requires st.c.s == Spaces(n) + "#" + rest && !st.lw && st.str != []
    requires st.c.col >= indent
    ensures var r := PlainBlanks(st, indent, flow);
            r.Ok? && r.value.value == st.str && r.value.end.s == "#" + rest
    decreases n
  {
    if n == 0 {
      assert st.c.s == "#" + rest;
    } else {
      assert st.c.s[1..] == Spaces(n - 1) + "#" + rest;
      SpacesThenComment(n - 1, rest, st.(c := Skip(st.c, 1), ws := st.ws + [' ']), indent, flow);
    }
  }

  lemma EndingEnds(v: string, e: Ending, col: nat, line: nat, indent: int, flow: bool)
    requires v != [] && e.Valid(indent, flow) && col >= indent
    ensures var r := PlainAfter(PlainState(Cursor(e.Text(), col, line), false, v, [], [], []), indent, flow);
            r.Ok? && r.value.value == v
    ensures !InWord(e.Text(), flow)
  {
    var st := PlainState(Cursor(e.Text(), col, line), false, v, [], [], []);
    match e
    case Here(rest) =>
    case Comment(spaces, rest) =>
      assert e.Text()[0] == ' ';
      SpacesThenComment(spaces + 1, rest, st, indent, flow);
    case NextLine(brk, depth, rest) =>
      var t := brk.Text();
      assert e.Text()[0] == t[0];
      NextLineEnds(v, brk, depth, rest, st, indent, flow);
  }

  lemma NextLineSeen(brk: LineBreak, depth: nat, rest: string, st: PlainState)
    requires st.c.s == brk.Text() + Spaces(depth) + rest && !IsBreak(Peek(rest))
    ensures IsBreak(Peek(st.c.s)) && SkipBreak(st.c) == Cursor(Spaces(depth) + rest, 0, st.c.line + 1)
  {
    assert Drop(st.c.s, |brk.Text()|) == Spaces(depth) + rest;
    assert depth == 0 ==> Spaces(depth) + rest == rest;
  }

  lemma NextLineEnds(v: string, brk: LineBreak, depth: nat, rest: string, st: PlainState, indent: int, flow: bool)
    requires st.c.s == brk.Text() + Spaces(depth) + rest && !st.lw && st.str == v && v != []
    requires !IsBlank(Peek(rest)) && !IsBreak(Peek(rest))
    requires (!flow && depth < indent) || NeverContinues(depth, rest, flow)
    ensures var r := PlainAfter(st, indent, flow); r.Ok? && r.value.value == v
  {
    var next := st.(c := SkipBreak(st.c), lw := true, ws := [], leadingBreak := st.leadingBreak + ['\n']);
    NextLineSeen(brk, depth, rest, st);
    assert PlainAfter(st, indent, flow) == PlainBlanks(next, indent, flow);
    PlainSpacesSkipped(depth, rest, next, indent, flow);
    var there := next.(c := Cursor(rest, depth, st.c.line + 1));
    if flow || depth >= indent {
      assert PlainBlanks(there, indent, flow) == PlainTop(there, indent, flow);
      assert PlainAfter(there, indent, flow) == PlainEnd(there);
    }
  }

  // The first character of the text from `i` on.
  lemma FrontChar(j: PlainReading, i: nat, wcol: nat)
    requires i <= |j.v|
    ensures Peek(j.Text(i, wcol)) ==
            if i == |j.v| then Peek(j.tail)
            else if j.Folds(i, wcol) then j.ctx.lineBreak.Text()[0]
            else j.v[i]
  {
    if i == |j.v| {
      assert j.Text(i, wcol) == j.tail;
    } else if j.Folds(i, wcol) {
      PlainFoldStep(j, i, wcol);
    } else {
      PlainTextStep(j, i, wcol);
    }
  }

  // The text does not start with a document marker: the value does not, and a shorter value is
  // not completed to one by what follows it.
  lemma NoMarkerInFront(j: PlainReading)
    requires j.Valid()
    ensures !NextIsDocumentIndicator(j.Text(0, j.ctx.indent))
  {
    hide PlainReading.Text, PlainReading.Folds;
    var w := j.ctx.indent;
    var s := j.Text(0, w);
    WordChar(j, 0, w);
    FrontChar(j, 1, w + 1);
    assert PeekNth(s, 1) == Peek(j.Text(1, w + 1));
    if |j.v| > 1 && !j.Folds(1, w + 1) {
      PlainTextStep(j, 1, w + 1);
      FrontChar(j, 2, w + 2);
      assert PeekNth(s, 2) == Peek(j.Text(2, w + 2));
    }
  }

  lemma NoDashInFront(j: PlainReading)
    requires j.Valid()
    ensures j.v[0] != ' '
    ensures !(j.flow && Peek(j.Text(0, j.ctx.indent)) == '-' && IsFlow(PeekNth(j.Text(0, j.ctx.indent), 1)))
  {
    WordChar(j, 0, j.ctx.indent);
  }

  lemma FirstWordBegins(j: PlainReading, col: nat, line: nat, lw: bool)
    requires j.Valid()
    ensures PlainTop(At(j, 0, j.ctx.indent, col, line, 0, lw, [], []), j.indent, j.flow)
         == PlainWord(At(j, 1, j.ctx.indent + 1, col + 1, line, 1, false, [], []), j.indent, j.flow)
  {
    ValueChars(j, 0);
    WordChar(j, 0, j.ctx.indent);
    NoMarkerInFront(j);
    NoDashInFront(j);
    hide PlainAfter, PlainReading.Valid, PlainReading.Text, NextCanBePlainScalar, NextIsDocumentIndicator;
    assert j.v[..0] == [] && j.v[..1] == [j.v[0]];
    var st := At(j, 0, j.ctx.indent, col, line, 0, lw, [], []);
    assert Flushed(st) == At(j, 0, j.ctx.indent, col, line, 0, false, [], []);
    assert Drop(st.c.s, 1) == j.Text(1, j.ctx.indent + 1);
    assert [] + [j.v[0]] == [j.v[0]];
  }

  // Every value `plain_syntax_reason` accepts reads back, folded at any width, whatever ends it.
  // The one exception is in flow collections: a last word `-` in front of a flow indicator is
  // refused.
  lemma PlainRoundTrip(v: string, ctx: ScalarContext, e: Ending, col: nat, line: nat, lw: bool,
                       outer: int, flow: bool)
    requires PlainSyntaxReason(v, ctx).None? && (flow ==> ctx.inFlow)
    requires (Folding(ctx) ==> Continuation(ctx) > outer) && e.Valid(outer + 1, flow)
    requires col >= outer && (flow ==> col > outer)
    ensures var text := Rendered(v, Plain, ctx);
            && text.Ok?
            && var r := ScanPlain(Cursor(text.value + e.Text(), col, line), lw, outer, flow);
            if DashRefused(v, flow, e.Text()) then r == Err(DashBeforeFlowIndicator)
            else r.Ok? && r.value.value == v
  {
    var j := PlainReading(v, ctx, outer + 1, flow, e.Text());
    EndingEnds(v, e, col + 1, line, outer + 1, flow);
    PlainReads(j, col, line, lw);
    assert Rendered(v, Plain, ctx).value + e.Text() == j.Text(0, ctx.indent);
    hide PlainTop, PlainAfter, PlainSyntaxReason, Ending.Valid, Ending.Text;
    if !j.DashMeetsFlow() {
      var n := j.EndLine(0, ctx.indent, line);
      var c :| c >= 1 && c >= j.indent && PlainTop(At(j, 0, ctx.indent, col, line, 0, lw, [], []), j.indent, j.flow) == j.Done(c, n);
      EndingEnds(v, e, c, n, outer + 1, flow);
    }
  }

  lemma PlainReads(j: PlainReading, col: nat, line: nat, lw: bool)
    requires j.Valid() && col + 1 >= j.indent
    ensures j.Reads(PlainTop(At(j, 0, j.ctx.indent, col, line, 0, lw, [], []), j.indent, j.flow),
                    j.EndLine(0, j.ctx.indent, line))
  {
    WordChar(j, 0, j.ctx.indent);
    hide PlainTop, PlainWord, PlainReading.Text, PlainReading.EndLine, PlainReading.Reads, PlainSyntaxReason, At, InWord;
    FirstWordBegins(j, col, line, lw);
    EndLineOn(j, 0, j.ctx.indent, line);
    WordReads(j, 1, j.ctx.indent + 1, col + 1, line);
  }
}
