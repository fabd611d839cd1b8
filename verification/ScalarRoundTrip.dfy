// A scalar in whatever style it is written: the text sends the scanner to the routine for that
// style, and the routine gives the value back (`choose_style` and `write` of
// crates/yamluna-core/src/emitter/scalar.rs against `fetch_next_token` of
// crates/yamluna-scanner/src/scanner.rs).
module ScalarRoundTrip {
  import opened CharTraits
  import opened Input
  import opened Results
  import opened ScalarEmitter
  import opened FlowScan
  import opened BlockScan
  import opened PlainScan
  import opened FlowRoundTrip
  import opened PlainRoundTrip
  import opened BlockRoundTrip
  import opened BlockTheorems
  import opened FoldedTheorem
  import opened SingleQuoted

  // What the next characters make of the token to fetch. `Elsewhere` is every token that is not a
  // scalar, and every error.
  datatype Routine = ToFlow(single: bool) | ToBlock(literal: bool) | ToPlain | Elsewhere

  // `adjacent` says that the position is the one where a `:` needs no white space behind it.
  function Dispatch(s: string, col: nat, flowLevel: nat, adjacent: bool): Routine {
    var c := Peek(s);
    var nc := PeekNth(s, 1);
    if IsZ(c) then Elsewhere
    else if col == 0 && (c == '%' || NextIsDocumentIndicator(s)) then Elsewhere
    else if c in "[]{}," then Elsewhere
    else if c in "-?:" && IsBlankOrBreakz(nc) then Elsewhere
    else if c == ':' && flowLevel > 0 && (IsFlow(nc) || adjacent) then Elsewhere
    else if c in "*&!" then Elsewhere
    else if c == '|' && flowLevel == 0 then ToBlock(true)
    else if c == '>' && flowLevel == 0 then ToBlock(false)
    else if c == '\'' then ToFlow(true)
    else if c == '"' then ToFlow(false)
    else if c in "%@`" then Elsewhere
    else ToPlain
  }

  // Where a scalar is written and where the scanner meets it: the scanner's indentation, flow
  // level, position and `leading_whitespace`, and what follows the scalar.
  datatype Site = Site(ctx: ScalarContext, outer: int, flowLevel: nat, col: nat, line: nat,
                       lw: bool, adjacent: bool, ending: Ending)
  {
    ghost predicate Valid() {
      && -1 <= outer <= col
      && (flowLevel > 0 ==> outer < col && ctx.inFlow && !adjacent)
      && (Folding(ctx) ==> Continuation(ctx) > outer)
      && ending.Valid(outer + 1, flowLevel > 0)
    }

    // Block scalars need a line of their own behind them, and an indentation deeper than the
    // scanner's.
    predicate HoldsBlock() {
      outer < ctx.indent && ending.NextLine? && ending.brk == ctx.lineBreak && ending.depth < ctx.indent
    }

    // The token fetched from `text` and what follows it; nothing when it is not a scalar.
    function Fetched(text: string): Option<ScanResult>
      requires outer >= -1
    {
      var c := Cursor(text + ending.Text(), col, line);
      match Dispatch(c.s, col, flowLevel, adjacent)
      case ToFlow(single) => Some(ScanFlow(c, single, outer, flowLevel))
      case ToBlock(literal) => Some(ScanBlock(c, literal, outer))
      case ToPlain => Some(ScanPlain(c, lw, outer, flowLevel > 0))
      case Elsewhere => None
    }

    // What follows may follow a quoted scalar.
    predicate Trails(atoms: seq<string>) {
      ending.Here? ==>
        TrailingOk(Peek(ending.rest), flowLevel, FoldCount(atoms, 0, ctx.indent, ctx) == 0)
    }

    // The exact condition for `v`, written in `style`, to be read back.
    predicate Survives(v: string, style: ScalarStyle) {
      match style
      case Plain => !DashRefused(v, flowLevel > 0, ending.Text())
      case SingleQuoted =>
        !FoldTouchesTab(SingleQuotedAtoms(v), 0, ctx.indent, ctx) && Trails(SingleQuotedAtoms(v))
      case DoubleQuoted => Trails(DoubleQuotedAtoms(v, ctx.allowUnicode))
      case Literal => true
      case Folded => !AnyFoldsBeforeTab(Split(BlockBody(v)), ctx)
    }
  }

  predicate IsBlockStyle(style: ScalarStyle) {
    style == Literal || style == Folded
  }

  predicate Gives(r: Option<ScanResult>, v: string) {
    r.Some? && r.value.Ok? && r.value.value.value == v
  }

  // ------------------------------------------------------------------ what follows

  lemma EndingBegins(e: Ending, indent: int, flow: bool)
    requires e.Valid(indent, flow)
    ensures e.Comment? ==> e.Text() == [' '] + (Spaces(e.spaces) + "#" + e.rest)
    ensures e.NextLine? ==> IsBreak(Peek(e.Text()))
    ensures e.Here? ==> e.Text() == e.rest && !IsBlank(Peek(e.rest))
    ensures Peek(e.Text()) != '\'' && Peek(e.Text()) != '#'
  {
  }

  lemma {:induction false} SpacesLead(n: nat, rest: string)
    requires !IsBlank(Peek(rest))
    ensures LeadingWs(Spaces(n) + rest, true) == n
  {
    if n == 0 {
      assert Spaces(n) + rest == rest;
    } else {
      assert (Spaces(n) + rest)[1..] == Spaces(n - 1) + rest;
      SpacesLead(n - 1, rest);
    }
  }

  // Behind a quoted scalar the white space and the comment are skipped.
  lemma EndingSkipped(e: Ending, indent: int, flow: bool)
    requires e.Valid(indent, flow)
    ensures var t := e.Text();
            var eol := SkipWsToEol(t, true);
            && eol.ok
            && (if e.Here? then Peek(Drop(t, eol.count)) == Peek(e.rest) else IsBreakz(Peek(Drop(t, eol.count))))
  {
    var t := e.Text();
    EndingBegins(e, indent, flow);
    if e.Comment? {
      assert t == Spaces(e.spaces + 1) + ("#" + e.rest);
      SpacesLead(e.spaces + 1, "#" + e.rest);
      CommentSkipped(t, e.spaces + 1);
    } else {
      hide Ending.Valid, InWord;
      assert t == [] || !IsBlank(t[0]);
      assert LeadingWs(t, true) == 0;
      assert Drop(t, 0) == t;
    }
  }

  lemma CommentSkipped(t: string, n: nat)
    requires n > 0 && LeadingWs(t, true) == n && PeekNth(t, n) == '#'
    ensures var eol := SkipWsToEol(t, true); eol.ok && IsBreakz(Peek(Drop(t, eol.count)))
  {
    var k := LeadingNonBreakz(t[n..]);
    assert t[n] == t[n..][0] && k > 0;
    assert Drop(t, n + k) == t[n + k..];
    assert PeekNth(t, n + k) == Peek(t[n + k..]);
  }

  // A quoted scalar reads back exactly when what follows it may.
  lemma QuotedSurvives(r: ScanResult, v: string, site: Site, atoms: seq<string>)
    requires site.Valid()
    requires ReadsBack(r, v, site.ending.Text(), site.flowLevel, FoldCount(atoms, 0, site.ctx.indent, site.ctx) == 0)
    ensures (r.Ok? && r.value.value == v) <==> site.Trails(atoms)
  {
    EndingSkipped(site.ending, site.outer + 1, site.flowLevel > 0);
  }

  lemma {:induction false} DepthSkipped(n: nat, rest: string, col: nat, indent: nat)
    requires col + n < indent && !IsBlank(Peek(rest)) && !IsBreak(Peek(rest))
    ensures SkipIndent(Cursor(Spaces(n) + rest, col, 0), indent) == Indented(0, Cursor(rest, col + n, 0))
  {
    if n == 0 {
      assert Spaces(n) + rest == rest;
    } else {
      assert (Spaces(n) + rest)[1..] == Spaces(n - 1) + rest;
      DepthSkipped(n - 1, rest, col + 1, indent);
    }
  }

  lemma BlockFollowed(site: Site, literal: bool, chomping: Chomping)
    requires site.Valid() && site.HoldsBlock()
    ensures Block(site.ctx, literal, chomping, Spaces(site.ending.depth) + site.ending.rest).Valid()
  {
    DepthSkipped(site.ending.depth, site.ending.rest, 0, site.ctx.indent);
  }

  // ------------------------------------------------------------------ the way to the routine

  // The first two characters of a plain scalar's text.
  lemma PlainFront(j: PlainReading)
    requires j.Valid()
    ensures var s := j.Text(0, j.ctx.indent);
            && Peek(s) == j.v[0] && !IsBlankOrBreakz(j.v[0])
            && (IsIndicator(j.v[0]) ==> |j.v| > 1 && j.v[0] in "-?:" && PeekNth(s, 1) == j.v[1] && !IsBlankOrBreakz(j.v[1]))
  {
    var w := j.ctx.indent;
    ValueChars(j, 0);
    WordChar(j, 0, w);
    FrontChar(j, 1, w + 1);
    assert PeekNth(j.Text(0, w), 1) == Peek(j.Text(1, w + 1));
    if IsIndicator(j.v[0]) {
      assert j.v[0] in "-?:" && |j.v| > 1 && j.v[1] != ' ';
      ValueChars(j, 1);
    }
  }

  lemma PlainCharsDispatch(s: string, col: nat, flowLevel: nat)
    requires !IsBlankOrBreakz(Peek(s)) && !NextIsDocumentIndicator(s)
    requires IsIndicator(Peek(s)) ==>
               Peek(s) in "-?:" && !IsBlankOrBreakz(PeekNth(s, 1)) && (flowLevel > 0 ==> !IsFlow(PeekNth(s, 1)))
    ensures Dispatch(s, col, flowLevel, false) == ToPlain
    ensures flowLevel == 0 ==> Dispatch(s, col, flowLevel, true) == ToPlain
  {
    hide NextIsDocumentIndicator;
  }

  lemma PlainValid(v: string, site: Site)
    requires site.Valid() && PlainSyntaxReason(v, site.ctx).None?
    ensures PlainReading(v, site.ctx, site.outer + 1, site.flowLevel > 0, site.ending.Text()).Valid()
    ensures site.flowLevel > 0 ==> forall c | c in v :: !IsFlow(c)
  {
    assert site.flowLevel > 0 ==> forall c | c in v :: !IsFlow(c);
    assert v != [];
    hide InWord, Ending.Valid, PlainSyntaxReason, Ending.Text;
    EndingEnds(v, site.ending, site.col + 1, site.line, site.outer + 1, site.flowLevel > 0);
  }

  lemma PlainRendered(v: string, ctx: ScalarContext)
    requires PlainSyntaxReason(v, ctx).None?
    ensures Rendered(v, Plain, ctx) == Ok(AtomText(CharAtoms(v), 0, ctx.indent, ctx))
  {
    hide PlainSyntaxReason, AtomText;
  }

  // A plain scalar is taken for nothing else, whichever indicator it starts with.
  lemma PlainDispatched(v: string, site: Site)
    requires site.Valid() && PlainSyntaxReason(v, site.ctx).None?
    ensures var s := Rendered(v, Plain, site.ctx).value + site.ending.Text();
            Dispatch(s, site.col, site.flowLevel, site.adjacent) == ToPlain
  {
    var j := PlainReading(v, site.ctx, site.outer + 1, site.flowLevel > 0, site.ending.Text());
    PlainValid(v, site);
    PlainRendered(v, site.ctx);
    PlainFront(j);
    NoMarkerInFront(j);
    assert Rendered(v, Plain, site.ctx).value + site.ending.Text() == j.Text(0, site.ctx.indent);
    assert site.flowLevel > 0 ==> !site.adjacent;
    hide *;
    PlainCharsDispatch(j.Text(0, site.ctx.indent), site.col, site.flowLevel);
  }

  lemma QuoteDispatched(q: char, text: string, site: Site)
    requires q == '\'' || q == '"'
    ensures Dispatch([q] + text, site.col, site.flowLevel, site.adjacent) == ToFlow(q == '\'')
  {
  }

  lemma BlockDispatched(q: char, text: string, site: Site)
    requires (q == '|' || q == '>') && site.flowLevel == 0
    ensures Dispatch([q] + text, site.col, 0, site.adjacent) == ToBlock(q == '|')
  {
  }

  // ------------------------------------------------------------------ style by style

  lemma PlainComesBack(v: string, site: Site)
    requires site.Valid() && PlainSyntaxReason(v, site.ctx).None?
    ensures Gives(site.Fetched(Rendered(v, Plain, site.ctx).value), v) <==> site.Survives(v, Plain)
  {
    hide PlainSyntaxReason, Rendered, Dispatch, ScanPlain, Ending.Valid;
    PlainDispatched(v, site);
    PlainRoundTrip.PlainRoundTrip(v, site.ctx, site.ending, site.col, site.line, site.lw, site.outer, site.flowLevel > 0);
  }

  lemma SingleComesBack(v: string, site: Site)
    requires site.Valid() && SingleSyntaxReason(v).None?
    ensures Gives(site.Fetched(Rendered(v, ScalarStyle.SingleQuoted, site.ctx).value), v)
       <==> site.Survives(v, ScalarStyle.SingleQuoted)
  {
    hide SingleSyntaxReason, Dispatch, ScanFlow, Ending.Valid, ReadsBack, FoldTouchesTab, FoldCount, Ending.Text;
    var atoms := SingleQuotedAtoms(v);
    var tail := site.ending.Text();
    var text := "'" + AtomText(atoms, 0, site.ctx.indent, site.ctx) + "'";
    var c := Cursor(text + tail, site.col, site.line);
    EndingBegins(site.ending, site.outer + 1, site.flowLevel > 0);
    QuoteDispatched('\'', AtomText(atoms, 0, site.ctx.indent, site.ctx) + "'" + tail, site);
    assert c.s == ['\''] + (AtomText(atoms, 0, site.ctx.indent, site.ctx) + "'" + tail);
    SingleQuotedRoundTrip(v, site.ctx, tail, site.col, site.line, site.outer, site.flowLevel);
    if !FoldTouchesTab(atoms, 0, site.ctx.indent, site.ctx) {
      QuotedSurvives(ScanFlow(c, true, site.outer, site.flowLevel), v, site, atoms);
    }
  }

  lemma DoubleComesBack(v: string, site: Site)
    requires site.Valid()
    ensures Gives(site.Fetched(Rendered(v, DoubleQuoted, site.ctx).value), v) <==> site.Survives(v, DoubleQuoted)
  {
    hide Dispatch, ScanFlow, Ending.Valid, ReadsBack, FoldCount, Ending.Text;
    var atoms := DoubleQuotedAtoms(v, site.ctx.allowUnicode);
    var tail := site.ending.Text();
    var inside := AtomText(atoms, 0, site.ctx.indent, site.ctx);
    var c := Cursor("\"" + inside + "\"" + tail, site.col, site.line);
    QuoteDispatched('"', inside + "\"" + tail, site);
    assert c.s == ['"'] + (inside + "\"" + tail);
    DoubleQuotedRoundTrip(v, site.ctx, tail, site.col, site.line, site.outer, site.flowLevel);
    QuotedSurvives(ScanFlow(c, false, site.outer, site.flowLevel), v, site, atoms);
  }

  lemma BlockTextBegins(v: string, folded: bool, ctx: ScalarContext)
    ensures var text := BlockText(v, folded, ctx); text != [] && text[0] == if folded then '>' else '|'
  {
    hide IndentedLines, BlockBodyLines, ChompIndicator;
  }

  lemma Regrouped(a: string, b: string, c: string, d: string)
    ensures a + b + (c + d) == a + (b + c + d)
  {
  }

  lemma BlockLeadsThere(v: string, folded: bool, site: Site)
    requires site.flowLevel == 0
    ensures Dispatch(BlockText(v, folded, site.ctx) + site.ending.Text(), site.col, 0, site.adjacent) == ToBlock(!folded)
  {
    hide Dispatch, BlockText, Ending.Text;
    var text := BlockText(v, folded, site.ctx);
    var q := if folded then '>' else '|';
    BlockTextBegins(v, folded, site.ctx);
    var s := text + site.ending.Text();
    assert s == [q] + s[1..];
    BlockDispatched(q, s[1..], site);
  }

  lemma BlockFetched(v: string, folded: bool, site: Site)
    requires site.flowLevel == 0 && site.outer >= -1
    ensures var c := Cursor(BlockText(v, folded, site.ctx) + site.ending.Text(), site.col, site.line);
            site.Fetched(BlockText(v, folded, site.ctx)) == Some(ScanBlock(c, !folded, site.outer))
  {
    hide Dispatch, ScanBlock, BlockText, Ending.Text;
    BlockLeadsThere(v, folded, site);
  }

  lemma BlockRendered(v: string, folded: bool, ctx: ScalarContext)
    requires BlockSyntaxReason(v, ctx, folded).None?
    ensures Rendered(v, if folded then Folded else Literal, ctx) == Ok(BlockText(v, folded, ctx))
    ensures !ctx.inFlow
  {
    assert !ctx.inFlow;
    hide BlockText, BlockSyntaxReason;
  }

  lemma BlockReads(v: string, folded: bool, site: Site, s: string)
    requires site.Valid() && site.HoldsBlock() && BlockSyntaxReason(v, site.ctx, folded).None?
    requires s == BlockText(v, folded, site.ctx) + site.ctx.lineBreak.Text() + (Spaces(site.ending.depth) + site.ending.rest)
    ensures var r := ScanBlock(Cursor(s, site.col, site.line), !folded, site.outer);
            r.Ok? && (r.value.value == v <==> site.Survives(v, if folded then Folded else Literal))
  {
    var follow := Spaces(site.ending.depth) + site.ending.rest;
    BlockFollowed(site, !folded, ChompingFor(v));
    BlockRendered(v, folded, site.ctx);
    hide ScanBlock, Ending.Valid, BlockText, AnyFoldsBeforeTab, Block.Valid, BlockSyntaxReason, Rendered, ChompingFor, Spaces;
    if folded {
      FoldedRoundTrip(v, site.ctx, follow, site.col, site.line, site.outer);
    } else {
      LiteralRoundTrip(v, site.ctx, follow, site.col, site.line, site.outer);
    }
  }

  lemma BlockComesBack(v: string, folded: bool, site: Site)
    requires site.Valid() && site.HoldsBlock() && BlockSyntaxReason(v, site.ctx, folded).None?
    ensures var style := if folded then Folded else Literal;
            Gives(site.Fetched(Rendered(v, style, site.ctx).value), v) <==> site.Survives(v, style)
  {
    assert site.ending.Text() == site.ctx.lineBreak.Text() + Spaces(site.ending.depth) + site.ending.rest;
    hide Ending.Text, Ending.Valid, BlockText, BlockSyntaxReason, Rendered, Site.Fetched, Site.Survives, ScanBlock, Spaces;
    Regrouped(BlockText(v, folded, site.ctx), site.ctx.lineBreak.Text(), Spaces(site.ending.depth), site.ending.rest);
    BlockRendered(v, folded, site.ctx);
    BlockFetched(v, folded, site);
    BlockReads(v, folded, site, BlockText(v, folded, site.ctx) + site.ending.Text());
  }

  // ------------------------------------------------------------------ the theorems

  // In every style, wherever the scalar stands, the token fetched is the scalar just when
  // `Survives` says so.
  lemma WrittenScalarComesBack(v: string, style: ScalarStyle, site: Site)
    requires site.Valid() && (IsBlockStyle(style) ==> site.HoldsBlock())
    requires Rendered(v, style, site.ctx).Ok?
    ensures Gives(site.Fetched(Rendered(v, style, site.ctx).value), v) <==> site.Survives(v, style)
  {
    match style
    case Plain => PlainComesBack(v, site);
    case SingleQuoted => SingleComesBack(v, site);
    case DoubleQuoted => DoubleComesBack(v, site);
    case Literal => BlockComesBack(v, false, site);
    case Folded => BlockComesBack(v, true, site);
  }

  // Which of the styles that need not be asked for comes first.
  function Rank(style: ScalarStyle): nat {
    match style
    case Plain => 0
    case SingleQuoted => 1
    case DoubleQuoted => 2
    case _ => 3
  }

  // The style chosen can always be written; it is the one asked for whenever that one is legal,
  // it is never a block style nobody asked for, and text that would be read as something other
  // than a string is never left plain. If it is not the one asked for, no style that comes before it
  // would have done: plain, then single quotes, then double quotes.
  lemma ChosenStyleIsWritten(v: string, requested: Option<ScalarStyle>, ctx: ScalarContext, typed: bool)
    ensures var style := ChooseStyle(v, requested, ctx, typed);
            && Rendered(v, style, ctx).Ok?
            && (requested.Some? && Rendered(v, requested.value, ctx).Ok? && !(typed && requested.value == Plain) ==>
                  style == requested.value)
            && (IsBlockStyle(style) ==> requested == Some(style))
            && (style == Plain ==> !typed)
            && (requested != Some(style) ==>
                  Rank(style) <= 2
                  && forall other | Rank(other) < Rank(style) :: Rendered(v, other, ctx).Err? || (other == Plain && typed))
  {
    hide PlainSyntaxReason, SingleSyntaxReason, BlockSyntaxReason;
  }

  // Where nothing is folded, as in every key, every value comes back in whatever style was asked
  // for, unless a lone `-` ends it in front of a flow indicator.
  lemma UnfoldedScalarComesBack(v: string, requested: Option<ScalarStyle>, typed: bool, site: Site)
    requires site.Valid() && !Folding(site.ctx)
    requires IsBlockStyle(ChooseStyle(v, requested, site.ctx, typed)) ==> site.HoldsBlock()
    requires site.ending.Here? ==> TrailingOk(Peek(site.ending.rest), site.flowLevel, true)
    ensures var style := ChooseStyle(v, requested, site.ctx, typed);
            && (Gives(site.Fetched(Rendered(v, style, site.ctx).value), v)
                <==> !(style == Plain && DashRefused(v, site.flowLevel > 0, site.ending.Text())))
  {
    var style := ChooseStyle(v, requested, site.ctx, typed);
    ChosenStyleIsWritten(v, requested, site.ctx, typed);
    WrittenScalarComesBack(v, style, site);
    NoFolds(SingleQuotedAtoms(v), 0, site.ctx.indent, site.ctx);
    NoFolds(DoubleQuotedAtoms(v, site.ctx.allowUnicode), 0, site.ctx.indent, site.ctx);
    hide FoldsBeforeTab, FoldTouchesTab, FoldCount, Rendered, DashRefused, Site.Fetched;
    if style == Folded {
      forall l | l in Split(BlockBody(v)) ensures !FoldsBeforeTab(l, 0, site.ctx.indent, site.ctx) {
        UnfoldedKeepsTabs(l, 0, site.ctx.indent, site.ctx);
      }
    }
  }

  // `a -` is legal as a plain scalar of a flow sequence, and refused in front of its `,`.
  lemma DashIsRefused(width: nat, rest: string)
    ensures var ctx := ScalarContext(2, true, false, width, Lf, true);
            var site := Site(ctx, -1, 1, 1, 0, false, false, Here("," + rest));
            && site.Valid() && Rendered("a -", Plain, ctx).Ok?
            && site.Fetched(Rendered("a -", Plain, ctx).value) == Some(Err(DashBeforeFlowIndicator))
  {
    var ctx := ScalarContext(2, true, false, width, Lf, true);
    var site := Site(ctx, -1, 1, 1, 0, false, false, Here("," + rest));
    var v := "a -";
    assert v[0] == 'a' && v[1] == ' ' && v[2] == '-' && |v| == 3;
    assert PlainSyntaxReason(v, ctx).None?;
    assert site.Valid() && DashRefused(v, true, site.ending.Text());
    hide PlainSyntaxReason, Ending.Valid, Site.Valid, DashRefused, Dispatch, Rendered, ScanPlain;
    PlainRoundTrip.PlainRoundTrip(v, ctx, site.ending, 1, 0, false, -1, true);
    PlainDispatched(v, site);
  }
}
