// Block scalars read back: literal ones always, folded ones exactly when no line was broken in
// front of a tab.
module BlockTheorems {
  import opened CharTraits
  import opened Input
  import opened Results
  import opened ScalarEmitter
  import opened FlowScan
  import opened BlockScan
  import opened BlockRoundTrip

  // ------------------------------------------------------------------ splitting and joining

  function Join(lines: seq<string>): string
    requires lines != []
  {
    if |lines| == 1 then lines[0] else lines[0] + "\n" + Join(lines[1..])
  }

  lemma {:induction false} JoinSplit(v: string)
    ensures Join(Split(v)) == v
  {
    if v != [] {
      JoinSplit(v[1..]);
      var rest := Split(v[1..]);
      assert v == [v[0]] + v[1..];
      if v[0] == '\n' {
        assert Split(v)[1..] == rest;
      } else if |rest| > 1 {
        assert Split(v)[1..] == rest[1..];
      }
    }
  }

  lemma {:induction false} SplitChars(v: string)
    ensures forall l, c :: l in Split(v) && c in l ==> c in v && c != '\n'
  {
    if v != [] {
      SplitChars(v[1..]);
      var rest := Split(v[1..]);
      forall l, c | l in Split(v) && c in l ensures c in v && c != '\n' {
        if v[0] == '\n' {
          assert l in rest || l == [];
        } else if l in rest[1..] {
          assert l in rest;
        } else {
          assert l == [v[0]] + rest[0] && rest[0] in rest;
        }
      }
    }
  }

  lemma {:induction false} LastLine(v: string)
    requires v != [] && v[|v| - 1] != '\n'
    ensures Split(v)[|Split(v)| - 1] != []
  {
    if |v| > 1 {
      LastLine(v[1..]);
    }
  }

  lemma {:induction false} SplitSnoc(v: string)
    ensures Split(v + "\n") == Split(v) + [[]]
  {
    if v == [] {
      assert v + "\n" == "\n";
      assert Split("\n") == [[]] + Split("\n"[1..]);
    } else {
      SplitSnoc(v[1..]);
      assert (v + "\n")[1..] == v[1..] + "\n";
    }
  }

  lemma {:induction false} SomeContent(v: string, i: nat)
    requires i < |v| && v[i] != '\n'
    ensures Empties(Split(v)) < |Split(v)|
    decreases i
  {
    if i > 0 && v[0] == '\n' {
      SomeContent(v[1..], i - 1);
      assert Split(v)[1..] == Split(v[1..]);
    }
  }

  lemma {:induction false} FirstContent(lines: seq<string>)
    ensures FirstContentBlank(lines) <==> Empties(lines) < |lines| && StartsBlank(lines[Empties(lines)])
  {
    if lines != [] && lines[0] == [] {
      FirstContent(lines[1..]);
    }
  }

  lemma {:induction false} FirstContentSnoc(lines: seq<string>)
    ensures FirstContentBlank(lines + [[]]) == FirstContentBlank(lines)
  {
    if lines != [] {
      FirstContentSnoc(lines[1..]);
      assert (lines + [[]])[1..] == lines[1..] + [[]];
    }
  }

  // Empty lines in front are line breaks in front.
  lemma {:induction false} JoinLeading(lines: seq<string>)
    requires Empties(lines) < |lines|
    ensures Join(lines) == Newlines(Empties(lines)) + Join(lines[Empties(lines)..])
  {
    var k := Empties(lines);
    if lines[0] == [] {
      JoinLeading(lines[1..]);
      assert lines[1..][k - 1..] == lines[k..];
      assert "\n" + Newlines(k - 1) == Newlines(k);
    } else {
      assert lines[k..] == lines;
    }
  }

  lemma {:induction false} JoinEmpties(lines: seq<string>)
    requires lines != [] && Empties(lines) == |lines|
    ensures Join(lines) == Newlines(|lines| - 1)
  {
    if |lines| > 1 {
      JoinEmpties(lines[1..]);
      assert "\n" + Newlines(|lines| - 2) == Newlines(|lines| - 1);
    }
  }

  // ------------------------------------------------------------------ what every block value meets

  predicate BlockWritable(v: string) {
    && v != [] && !(forall c | c in v :: c == '\n') && !(exists c | c in v :: NeedsEscape(c))
    && !FirstContentBlank(Split(v))
  }

  function ChompingFor(v: string): Chomping {
    var t := TrailingBreaks(v);
    if t == 0 then Strip else if t == 1 then Clip else Keep
  }

  // The value is its body, and the breaks behind it that chomping accounts for.
  lemma BodyOf(v: string)
    requires BlockWritable(v)
    ensures var body := BlockBody(v);
            && body != []
            && v == body + (if ChompingFor(v) == Strip then [] else "\n")
            && (ChompingFor(v) != Keep ==> body[|body| - 1] != '\n')
  {
    var n := |v| - 1;
    var c :| c in v && c != '\n';
    var i :| 0 <= i < |v| && v[i] == c;
    if v[n] == '\n' {
      assert v == v[..n] + "\n";
      assert i < n;
    }
  }

  lemma BodyContent(v: string)
    requires BlockWritable(v)
    ensures var ls := Split(BlockBody(v));
            Empties(ls) < |ls| && !StartsBlank(ls[Empties(ls)])
  {
    var body := BlockBody(v);
    BodyOf(v);
    var c :| c in v && c != '\n';
    assert c in body;
    var i :| 0 <= i < |body| && body[i] == c;
    SomeContent(body, i);
    FirstContent(Split(body));
    if ChompingFor(v) != Strip {
      SplitSnoc(body);
      FirstContentSnoc(Split(body));
    }
  }

  lemma BodyLinesOk(v: string)
    requires BlockWritable(v)
    ensures var ls := Split(BlockBody(v)); forall i | 0 <= i < |ls| :: LineOk(ls[i])
  {
    var body := BlockBody(v);
    var ls := Split(body);
    SplitChars(body);
    BodyOf(v);
    assert NeedsEscape('\r') && NeedsEscape(NUL);
    hide NeedsEscape;
    forall i | 0 <= i < |ls| ensures LineOk(ls[i]) {
      forall k | 0 <= k < |ls[i]| ensures !IsBreakz(ls[i][k]) {
        assert ls[i] in ls && ls[i][k] in ls[i];
        assert ls[i][k] in v;
      }
    }
  }

  // The emitter's text, the caller's break and what follows, as the scanner's lemmas take it.
  lemma {:induction false} LinesAreBody(lines: seq<string>, b: Block)
    ensures IndentedLines(lines, b.ctx) + b.ctx.lineBreak.Text() + b.follow
         == b.ctx.lineBreak.Text() + b.Body(lines)
  {
    var t := b.ctx.lineBreak.Text();
    if lines != [] {
      LinesAreBody(lines[1..], b);
      var p := PadLine(lines[0], b.ctx);
      assert t + p + IndentedLines(lines[1..], b.ctx) + t + b.follow
          == t + p + (IndentedLines(lines[1..], b.ctx) + t + b.follow);
    }
  }

  lemma TextIsBody(v: string, folded: bool, b: Block)
    requires b.literal == !folded && b.chomping == ChompingFor(v)
    ensures BlockText(v, folded, b.ctx) + b.ctx.lineBreak.Text() + b.follow
         == HeaderText(b) + b.ctx.lineBreak.Text() + b.Body(BlockBodyLines(v, folded, b.ctx))
  {
    LinesAreBody(BlockBodyLines(v, folded, b.ctx), b);
    assert BlockHeader(v, folded) == HeaderText(b);
    hide BlockBodyLines, Block.Body, IndentedLines, BlockHeader, HeaderText;
    var h := HeaderText(b);
    var x := IndentedLines(BlockBodyLines(v, folded, b.ctx), b.ctx);
    var t := b.ctx.lineBreak.Text();
    assert h + x + t + b.follow == h + (x + t + b.follow);
  }

  // ------------------------------------------------------------------ literal

  lemma {:induction false} LiteralContent(lines: seq<string>)
    requires lines != [] && lines[0] != []
    ensures Content(lines, true) + Newlines(TrailingEmpties(lines)) == Join(lines)
    decreases |lines|
  {
    var rest := lines[1..];
    var k := Empties(rest);
    if rest == [] {
      AllEmpty(lines, 0);
    } else if k == |rest| {
      AllEmpty(lines, k);
      JoinEmpties(rest);
      assert "\n" + Newlines(k - 1) == Newlines(k);
    } else {
      assert rest[k..] == lines[k + 1..];
      LiteralContent(rest[k..]);
      LiteralStep(lines, k);
    }
  }

  lemma ContentUnfolds(lines: seq<string>, literal: bool, k: nat)
    requires lines != [] && lines[0] != [] && k == Empties(lines[1..]) < |lines| - 1
    ensures Content(lines, literal)
         == lines[0] + Separator(literal, false, StartsBlank(lines[0]), StartsBlank(lines[k + 1]), k)
            + Content(lines[k + 1..], literal)
  {
    assert lines[1..][k..] == lines[k + 1..];
  }

  lemma JoinUnfolds(lines: seq<string>, k: nat)
    requires lines != [] && k == Empties(lines[1..]) < |lines| - 1
    ensures Join(lines) == lines[0] + "\n" + Newlines(k) + Join(lines[k + 1..])
  {
    JoinLeading(lines[1..]);
    assert lines[1..][k..] == lines[k + 1..];
  }

  lemma LiteralStep(lines: seq<string>, k: nat)
    requires lines != [] && lines[0] != [] && k == Empties(lines[1..]) < |lines| - 1
    requires Content(lines[k + 1..], true) + Newlines(TrailingEmpties(lines[k + 1..])) == Join(lines[k + 1..])
    ensures Content(lines, true) + Newlines(TrailingEmpties(lines)) == Join(lines)
  {
    TrailingStays(lines, k + 1);
    ContentUnfolds(lines, true, k);
    JoinUnfolds(lines, k);
    hide Content, Join, Empties, TrailingEmpties, Newlines;
    Associate(lines[0], Newlines(k), Content(lines[k + 1..], true), Newlines(TrailingEmpties(lines)));
  }

  lemma Associate(a: string, b: string, c: string, d: string)
    ensures a + ("\n" + b) + c + d == a + "\n" + b + (c + d)
  {
  }

  lemma LiteralBody(v: string)
    requires BlockWritable(v)
    ensures var ls := Split(BlockBody(v));
            var k := Empties(ls);
            k < |ls| && Newlines(k) + Content(ls[k..], true) + Newlines(TrailingEmpties(ls)) == BlockBody(v)
  {
    hide BlockWritable, BlockBody, Split, Join, Content;
    BodyContent(v);
    var ls := Split(BlockBody(v));
    var k := Empties(ls);
    JoinSplit(BlockBody(v));
    JoinLeading(ls);
    LiteralContent(ls[k..]);
    TrailingStays(ls, k);
  }

  lemma LiteralWritable(v: string)
    requires BlockWritable(v)
    ensures Writable(Split(BlockBody(v)), ChompingFor(v))
  {
    BodyOf(v);
    BodyContent(v);
    BodyLinesOk(v);
    hide BlockWritable, BlockBody, LineOk, ChompingFor;
    if ChompingFor(v) != Keep {
      LastLine(BlockBody(v));
    }
  }

  lemma LastKept(lines: seq<string>, chomping: Chomping)
    requires Writable(lines, chomping)
    ensures chomping != Keep ==> TrailingEmpties(lines) == 0
    ensures Empties(lines) < |lines|
  {
  }

  lemma LiteralValue(v: string, b: Block)
    requires BlockWritable(v) && b.literal && b.chomping == ChompingFor(v)
    ensures var ls := Split(BlockBody(v));
            Writable(ls, b.chomping) && BlockValue(ls, b) == v
  {
    hide BlockWritable, BlockBody, ChompingFor, Content, Split, Writable;
    var ls := Split(BlockBody(v));
    LiteralWritable(v);
    LiteralBody(v);
    BodyOf(v);
    LastKept(ls, b.chomping);
    var te := TrailingEmpties(ls);
    assert "\n" + Newlines(te) == Newlines(te) + "\n";
  }

  lemma LiteralAccepted(v: string, ctx: ScalarContext, folded: bool)
    requires BlockSyntaxReason(v, ctx, folded).None?
    ensures BlockWritable(v) && ctx.indent > 0
  {
  }

  // Every value the literal style accepts reads back: the indentation is detected, the chomping
  // indicator restores the trailing breaks, and blank lines and inner indentation survive.
  lemma LiteralRoundTrip(v: string, ctx: ScalarContext, follow: string, col: nat, line: nat, outer: int)
    requires BlockSyntaxReason(v, ctx, false).None?
    requires -1 <= outer < ctx.indent && Block(ctx, true, ChompingFor(v), follow).Valid()
    ensures var text := Rendered(v, Literal, ctx);
            && text.Ok?
            && var r := ScanBlock(Cursor(text.value + ctx.lineBreak.Text() + follow, col, line), true, outer);
               r.Ok? && r.value.value == v
  {
    LiteralAccepted(v, ctx, false);
    LiteralRendered(v, ctx);
    hide *;
    LiteralScanned(v, Block(ctx, true, ChompingFor(v), follow), col, line, outer);
  }

  lemma LiteralRendered(v: string, ctx: ScalarContext)
    requires BlockSyntaxReason(v, ctx, false).None?
    ensures Rendered(v, Literal, ctx) == Ok(BlockText(v, false, ctx))
  {
    hide BlockText;
  }

  lemma LiteralScanned(v: string, b: Block, col: nat, line: nat, outer: int)
    requires BlockWritable(v) && b.literal && b.chomping == ChompingFor(v) && b.Valid()
    requires -1 <= outer < b.ctx.indent
    ensures var s := BlockText(v, false, b.ctx) + b.ctx.lineBreak.Text() + b.follow;
            var r := ScanBlock(Cursor(s, col, line), true, outer);
            r.Ok? && r.value.value == v
  {
    hide BlockWritable, ScanBlock, Writable, BlockValue, Block.Valid, Block.Body, BlockText;
    LiteralValue(v, b);
    TextIsBody(v, false, b);
    BlockScanned(b, Split(BlockBody(v)), col, line, outer);
  }
}
