// Which styles a scalar may be written in, and how it is written in each of them
// (crates/yamluna-core/src/emitter/scalar.rs).
module ScalarEmitter {
  import opened CharTraits
  import opened Results
  import Hex

  datatype ScalarStyle = Plain | SingleQuoted | DoubleQuoted | Literal | Folded

  // The three line breaks the emitter can be told to write.
  datatype LineBreak = Lf | CrLf | Cr {
    function Text(): (s: string)
      ensures 1 <= |s| <= 2 && IsBreak(s[0])
    {
      match this
      case Lf => "\n"
      case CrLf => "\r\n"
      case Cr => "\r"
    }
  }

  datatype ScalarContext = ScalarContext(
    indent: nat,
    inFlow: bool,
    isKey: bool,
    width: nat,
    lineBreak: LineBreak,
    allowUnicode: bool)

  datatype Reason =
    | EmptyScalar
    | NoEscapes
    | StartsWithIndicator
    | EdgeSpace
    | DocumentMarker
    | ColonSpace
    | SpaceHash
    | FlowIndicator
    | BlockInFlow
    | BlockKey
    | NoIndent
    | OnlyBreaks
    | NeedsIndentIndicator
    | FoldedLeadingBreak
    | FoldedMoreIndented
    | FoldedManyBreaks

  // ------------------------------------------------------------------ character classes

  predicate IsIndicator(c: char) {
    c in "-?:,[]{}#&*!|>'\"%@`"
  }

  predicate Printable(c: char) {
    || c == '\t' || c == '\n' || c == '\r'
    || '\U{20}' <= c <= '\U{7e}'
    || c == '\U{85}'
    || '\U{a0}' <= c <= '\U{d7ff}'
    || '\U{e000}' <= c <= '\U{fffd}'
    || '\U{10000}' <= c
  }

  predicate NeedsEscape(c: char) {
    || !Printable(c)
    || c == '\r' || c == '\U{85}' || c == '\U{2028}' || c == '\U{2029}' || c == '\U{feff}'
  }

  // ------------------------------------------------------------------ legality

  // Whether `a` is followed directly by `b` somewhere in `v`.
  predicate HasPair(v: string, a: char, b: char) {
    exists i | 0 <= i < |v| - 1 :: v[i] == a && v[i + 1] == b
  }

  predicate StartsWith3(v: string, c: char) {
    |v| >= 3 && v[0] == c && v[1] == c && v[2] == c
  }

  function PlainSyntaxReason(v: string, ctx: ScalarContext): Option<Reason> {
    if v == [] then Some(EmptyScalar)
    else if exists c | c in v :: NeedsEscape(c) || c == '\n' || c == '\t' then Some(NoEscapes)
    else if IsIndicator(v[0]) &&
            (!(v[0] in "-?:") || |v| == 1 || v[1] == ' ' || v[1] == '\t') then
      Some(StartsWithIndicator)
    else if v[0] == ' ' || v[|v| - 1] == ' ' then Some(EdgeSpace)
    else if StartsWith3(v, '-') || StartsWith3(v, '.') then Some(DocumentMarker)
    else if HasPair(v, ':', ' ') || v[|v| - 1] == ':' then Some(ColonSpace)
    else if HasPair(v, ' ', '#') then Some(SpaceHash)
    else if ctx.inFlow && exists c | c in v :: IsFlow(c) then Some(FlowIndicator)
    else None
  }

  function SingleSyntaxReason(v: string): Option<Reason> {
    if exists c | c in v :: NeedsEscape(c) || c == '\n' then Some(NoEscapes) else None
  }

  // How many line breaks the value ends with.
  function TrailingBreaks(v: string): (n: nat)
    ensures n <= |v|
  {
    if v != [] && v[|v| - 1] == '\n' then 1 + TrailingBreaks(v[..|v| - 1]) else 0
  }

  // `v.split('\n')`: never empty, and none of the pieces holds a line break.
  function Split(v: string): (ls: seq<string>)
    ensures |ls| >= 1
    ensures forall i :: 0 <= i < |ls| ==> '\n' !in ls[i]
  {
    if v == [] then [[]]
    else if v[0] == '\n' then [[]] + Split(v[1..])
    else
      var rest := Split(v[1..]);
      [[v[0]] + rest[0]] + rest[1..]
  }

  predicate StartsBlank(l: string) {
    l != [] && IsBlank(l[0])
  }

  // Whether the first non-empty line starts with white space.
  predicate FirstContentBlank(ls: seq<string>) {
    if ls == [] then false
    else if ls[0] != [] then StartsBlank(ls[0])
    else FirstContentBlank(ls[1..])
  }

  function BlockSyntaxReason(v: string, ctx: ScalarContext, folded: bool): Option<Reason> {
    if ctx.inFlow then Some(BlockInFlow)
    else if ctx.isKey then Some(BlockKey)
    else if ctx.indent == 0 then Some(NoIndent)
    else if v == [] then Some(EmptyScalar)
    else if exists c | c in v :: NeedsEscape(c) then Some(NoEscapes)
    else if forall c | c in v :: c == '\n' then Some(OnlyBreaks)
    else if FirstContentBlank(Split(v)) then Some(NeedsIndentIndicator)
    else if folded && v[0] == '\n' then Some(FoldedLeadingBreak)
    else if folded && (exists l | l in Split(v) :: StartsBlank(l)) then Some(FoldedMoreIndented)
    else if folded && TrailingBreaks(v) > 1 then Some(FoldedManyBreaks)
    else None
  }

  // `analyze`: whether each style is legal. `typed` says whether the plain text would resolve as
  // something other than a string; the resolver itself is not modelled.
  predicate Legal(v: string, style: ScalarStyle, ctx: ScalarContext, typed: bool) {
    match style
    case Plain => PlainSyntaxReason(v, ctx).None? && !typed
    case SingleQuoted => SingleSyntaxReason(v).None?
    case DoubleQuoted => true
    case Literal => BlockSyntaxReason(v, ctx, false).None?
    case Folded => BlockSyntaxReason(v, ctx, true).None?
  }

  function ChooseStyle(v: string, requested: Option<ScalarStyle>, ctx: ScalarContext, typed: bool)
    : ScalarStyle
  {
    if requested.Some? && Legal(v, requested.value, ctx, typed) then requested.value
    else if Legal(v, Plain, ctx, typed) then Plain
    else if Legal(v, SingleQuoted, ctx, typed) then SingleQuoted
    else DoubleQuoted
  }

  // ------------------------------------------------------------------ atoms

  function CharAtoms(v: string): (atoms: seq<string>)
    ensures |atoms| == |v|
    ensures forall i :: 0 <= i < |v| ==> atoms[i] == [v[i]]
  {
    seq(|v|, i requires 0 <= i < |v| => [v[i]])
  }

  function SingleQuotedAtom(c: char): string {
    if c == '\'' then "''" else [c]
  }

  function SingleQuotedAtoms(v: string): (atoms: seq<string>)
    ensures |atoms| == |v|
    ensures forall i :: 0 <= i < |v| ==> atoms[i] == SingleQuotedAtom(v[i])
  {
    seq(|v|, i requires 0 <= i < |v| => SingleQuotedAtom(v[i]))
  }

  // The escapes that have a name of their own; NUL when there is none.
  function NamedEscape(c: char): char {
    if c == '"' then '"'
    else if c == '\\' then '\\'
    else if c == '\0' then '0'
    else if c == '\U{7}' then 'a'
    else if c == '\U{8}' then 'b'
    else if c == '\t' then 't'
    else if c == '\n' then 'n'
    else if c == '\U{b}' then 'v'
    else if c == '\U{c}' then 'f'
    else if c == '\r' then 'r'
    else if c == '\U{1b}' then 'e'
    else if c == '\U{85}' then 'N'
    else if c == '\U{a0}' then '_'
    else if c == '\U{2028}' then 'L'
    else if c == '\U{2029}' then 'P'
    else NUL
  }

  predicate AsciiGraphic(c: char) {
    '\U{21}' <= c <= '\U{7e}'
  }

  function DoubleQuotedAtom(c: char, allowUnicode: bool): string {
    var e := NamedEscape(c);
    if e != NUL then ['\\', e]
    else if c == ' ' || AsciiGraphic(c) then [c]
    else if Printable(c) && c != '\U{feff}' && allowUnicode then [c]
    else
      var u := c as int;
      assert Hex.Pow16(2) == 0x100 && Hex.Pow16(4) == 0x1_0000 && Hex.Pow16(8) == 0x1_0000_0000;
      if u <= 0xff then "\\x" + Hex.Digits(u, 2)
      else if u <= 0xffff then "\\u" + Hex.Digits(u, 4)
      else "\\U" + Hex.Digits(u, 8)
  }

  function DoubleQuotedAtoms(v: string, allowUnicode: bool): (atoms: seq<string>)
    ensures |atoms| == |v|
    ensures forall i :: 0 <= i < |v| ==> atoms[i] == DoubleQuotedAtom(v[i], allowUnicode)
  {
    seq(|v|, i requires 0 <= i < |v| => DoubleQuotedAtom(v[i], allowUnicode))
  }

  // Whether a line break may replace `atoms[i]`, a lone space.
  predicate Breakable(atoms: seq<string>, i: nat)
    requires i < |atoms|
  {
    && i > 0
    && atoms[i - 1] != " "
    && i + 1 < |atoms|
    && atoms[i + 1] != " "
    && !(atoms[i + 1] != [] && atoms[i + 1][0] == '#')
  }

  // ------------------------------------------------------------------ flow and plain text

  function Spaces(n: nat): (s: string)
    ensures |s| == n
    ensures forall k :: 0 <= k < n ==> s[k] == ' '
  {
    seq(n, _ => ' ')
  }

  function Continuation(ctx: ScalarContext): nat {
    if ctx.indent > 1 then ctx.indent else 1
  }

  // Keys are never broken, and width 0 turns folding off.
  predicate Folding(ctx: ScalarContext) {
    ctx.width > 0 && !ctx.isKey
  }

  // Whether the writer, having reached column `col`, turns `atoms[i]` into a line break.
  predicate FoldsAt(atoms: seq<string>, i: nat, col: nat, ctx: ScalarContext)
    requires i < |atoms|
  {
    Folding(ctx) && col >= ctx.width && atoms[i] == " " && Breakable(atoms, i)
  }

  // What `write_atoms` appends for the atoms from `i` on, the cursor standing in column `col`.
  function AtomText(atoms: seq<string>, i: nat, col: nat, ctx: ScalarContext): string
    requires i <= |atoms|
    decreases |atoms| - i
  {
    if i == |atoms| then []
    else if FoldsAt(atoms, i, col, ctx) then
      ctx.lineBreak.Text() + Spaces(Continuation(ctx))
      + AtomText(atoms, i + 1, Continuation(ctx), ctx)
    else atoms[i] + AtomText(atoms, i + 1, col + |atoms[i]|, ctx)
  }

  method WriteAtoms(atoms: seq<string>, ctx: ScalarContext, out: string) returns (r: string)
    ensures r == out + AtomText(atoms, 0, ctx.indent, ctx)
  {
    r := out;
    var continuation := Spaces(if ctx.indent > 1 then ctx.indent else 1);
    var folding := ctx.width > 0 && !ctx.isKey;
    var col: nat := ctx.indent;
    for i := 0 to |atoms|
      invariant r + AtomText(atoms, i, col, ctx) == out + AtomText(atoms, 0, ctx.indent, ctx)
    {
      ghost var rest := AtomText(atoms, i, col, ctx);
      if folding && col >= ctx.width && atoms[i] == " " && Breakable(atoms, i) {
        assert rest == ctx.lineBreak.Text() + continuation
                       + AtomText(atoms, i + 1, |continuation|, ctx);
        r := r + ctx.lineBreak.Text() + continuation;
        col := |continuation|;
      } else {
        assert rest == atoms[i] + AtomText(atoms, i + 1, col + |atoms[i]|, ctx);
        r := r + atoms[i];
        col := col + |atoms[i]|;
      }
    }
  }

  // ------------------------------------------------------------------ block text

  // What `fold_at_spaces` makes of `text` from character `i` on, `current` being the piece
  // collected so far.
  function FoldPieces(text: string, i: nat, col: nat, current: string, ctx: ScalarContext)
    : (ls: seq<string>)
    requires i <= |text|
    ensures |ls| >= 1
    decreases |text| - i
  {
    if i == |text| then [current]
    else if FoldsInBlock(text, i, col, ctx) then
      [current] + FoldPieces(text, i + 1, ctx.indent, [], ctx)
    else FoldPieces(text, i + 1, col + 1, current + [text[i]], ctx)
  }

  predicate FoldsInBlock(text: string, i: nat, col: nat, ctx: ScalarContext)
    requires i < |text|
  {
    ctx.width > 0 && col >= ctx.width && text[i] == ' ' && Breakable(CharAtoms(text), i)
  }

  method FoldAtSpaces(text: string, ctx: ScalarContext) returns (lines: seq<string>)
    ensures lines == FoldPieces(text, 0, ctx.indent, [], ctx)
  {
    if ctx.width == 0 {
      Unfolded(text, 0, ctx.indent, [], ctx);
      assert [] + text[0..] == text;
      return [text];
    }
    var atoms := CharAtoms(text);
    var current := [];
    lines := [];
    var col: nat := ctx.indent;
    for i := 0 to |atoms|
      invariant lines + FoldPieces(text, i, col, current, ctx)
             == FoldPieces(text, 0, ctx.indent, [], ctx)
    {
      if col >= ctx.width && atoms[i] == " " && Breakable(atoms, i) {
        assert lines + ([current] + FoldPieces(text, i + 1, ctx.indent, [], ctx))
            == lines + [current] + FoldPieces(text, i + 1, ctx.indent, [], ctx);
        lines := lines + [current];
        current := [];
        col := ctx.indent;
      } else {
        current := current + atoms[i];
        col := col + 1;
      }
    }
    lines := lines + [current];
  }

  lemma {:induction false} Unfolded(text: string, i: nat, col: nat, current: string, ctx: ScalarContext)
    requires i <= |text| && ctx.width == 0
    ensures FoldPieces(text, i, col, current, ctx) == [current + text[i..]]
    decreases |text| - i
  {
    if i < |text| {
      Unfolded(text, i + 1, col + 1, current + [text[i]], ctx);
      assert current + [text[i]] + text[i + 1..] == current + text[i..];
    } else {
      assert current + text[i..] == current;
    }
  }

  function Blanks(n: nat): seq<string> {
    seq(n, _ => [])
  }

  // The lines `folded_lines` adds for `segments`, after `empties` empty ones; `first` until a
  // line has been written.
  function FoldedFrom(segments: seq<string>, empties: nat, first: bool, ctx: ScalarContext)
    : seq<string>
  {
    if segments == [] then []
    else if segments[0] == [] then FoldedFrom(segments[1..], empties + 1, first, ctx)
    else
      (if first then [] else Blanks(empties + 1))
      + FoldPieces(segments[0], 0, ctx.indent, [], ctx)
      + FoldedFrom(segments[1..], 0, false, ctx)
  }

  method FoldedLines(body: string, ctx: ScalarContext) returns (lines: seq<string>)
    ensures lines == FoldedFrom(Split(body), 0, true, ctx)
  {
    lines := [];
    var empties := 0;
    var segments := Split(body);
    for k := 0 to |segments|
      invariant lines + FoldedFrom(segments[k..], empties, lines == [], ctx)
             == FoldedFrom(segments, 0, true, ctx)
    {
      var segment := segments[k];
      assert segments[k..][0] == segment && segments[k..][1..] == segments[k + 1..];
      ghost var before := lines;
      ghost var rest := FoldedFrom(segments[k + 1..], 0, false, ctx);
      if segment == [] {
        empties := empties + 1;
      } else {
        if lines != [] {
          lines := lines + Blanks(empties + 1);
        }
        var pieces := FoldAtSpaces(segment, ctx);
        assert before + ((if before == [] then [] else Blanks(empties + 1)) + pieces + rest)
            == lines + pieces + rest;
        lines := lines + pieces;
        empties := 0;
      }
    }
  }

  function ChompIndicator(v: string): string {
    var t := TrailingBreaks(v);
    if t == 0 then "-" else if t == 1 then "" else "+"
  }

  // The value without the one break that belongs to the caller.
  function BlockBody(v: string): string {
    if v != [] && v[|v| - 1] == '\n' then v[..|v| - 1] else v
  }

  function BlockBodyLines(v: string, folded: bool, ctx: ScalarContext): seq<string> {
    if folded then FoldedFrom(Split(BlockBody(v)), 0, true, ctx) else Split(BlockBody(v))
  }

  function PadLine(line: string, ctx: ScalarContext): string {
    if line == [] then [] else Spaces(ctx.indent) + line
  }

  function IndentedLines(lines: seq<string>, ctx: ScalarContext): string {
    if lines == [] then []
    else ctx.lineBreak.Text() + PadLine(lines[0], ctx) + IndentedLines(lines[1..], ctx)
  }

  function BlockHeader(v: string, folded: bool): string {
    (if folded then ">" else "|") + ChompIndicator(v)
  }

  function BlockText(v: string, folded: bool, ctx: ScalarContext): string {
    BlockHeader(v, folded) + IndentedLines(BlockBodyLines(v, folded, ctx), ctx)
  }

  method WriteBlock(value: string, style: ScalarStyle, ctx: ScalarContext, out: string)
    returns (r: Result<string, Reason>)
    requires style == Literal || style == Folded
    ensures r == match BlockSyntaxReason(value, ctx, style == Folded)
                 case Some(reason) => Err(reason)
                 case None => Ok(out + BlockText(value, style == Folded, ctx))
  {
    var reason := BlockSyntaxReason(value, ctx, style == Folded);
    if reason.Some? {
      return Err(reason.value);
    }
    var text := WriteHeaderAndBody(value, style == Folded, ctx, out);
    r := Ok(text);
  }

  method WriteHeaderAndBody(value: string, folded: bool, ctx: ScalarContext, out: string)
    returns (text: string)
    ensures text == out + BlockText(value, folded, ctx)
  {
    hide IndentedLines, Split, FoldedFrom, BlockBody, TrailingBreaks;
    var header := if folded then ">" else "|";
    var trailing := TrailingBreaks(value);
    if trailing == 0 {
      header := header + "-";
    } else if trailing > 1 {
      header := header + "+";
    }
    assert header == BlockHeader(value, folded);
    var lines;
    if folded {
      lines := FoldedLines(BlockBody(value), ctx);
    } else {
      lines := Split(BlockBody(value));
    }
    text := WriteLines(lines, ctx, out + header);
  }

  method WriteLines(lines: seq<string>, ctx: ScalarContext, out: string) returns (r: string)
    ensures r == out + IndentedLines(lines, ctx)
  {
    r := out;
    var pad := Spaces(ctx.indent);
    assert IndentedLines(lines[..0], ctx) == [];
    hide IndentedLines;
    for k := 0 to |lines|
      invariant r == out + IndentedLines(lines[..k], ctx)
    {
      var line := lines[k];
      assert lines[..k + 1] == lines[..k] + [line];
      IndentedSnoc(lines[..k], line, ctx);
      r := r + ctx.lineBreak.Text();
      if line != [] {
        r := r + pad + line;
      }
    }
    assert lines[..|lines|] == lines;
  }

  lemma {:induction false} IndentedSnoc(lines: seq<string>, line: string, ctx: ScalarContext)
    ensures IndentedLines(lines + [line], ctx)
         == IndentedLines(lines, ctx) + ctx.lineBreak.Text() + PadLine(line, ctx)
  {
    hide PadLine;
    if lines == [] {
      assert lines + [line] == [line];
      assert IndentedLines([line], ctx) == ctx.lineBreak.Text() + PadLine(line, ctx) + IndentedLines([], ctx);
    } else {
      IndentedSnoc(lines[1..], line, ctx);
      assert (lines + [line])[1..] == lines[1..] + [line];
    }
  }

  // ------------------------------------------------------------------ the entry point

  function Rendered(v: string, style: ScalarStyle, ctx: ScalarContext): Result<string, Reason> {
    match style
    case Plain =>
      (match PlainSyntaxReason(v, ctx)
       case Some(reason) => Err(reason)
       case None => Ok(AtomText(CharAtoms(v), 0, ctx.indent, ctx)))
    case SingleQuoted =>
      (match SingleSyntaxReason(v)
       case Some(reason) => Err(reason)
       case None => Ok("'" + AtomText(SingleQuotedAtoms(v), 0, ctx.indent, ctx) + "'"))
    case DoubleQuoted =>
      Ok("\"" + AtomText(DoubleQuotedAtoms(v, ctx.allowUnicode), 0, ctx.indent, ctx) + "\"")
    case _ =>
      (match BlockSyntaxReason(v, ctx, style == Folded)
       case Some(reason) => Err(reason)
       case None => Ok(BlockText(v, style == Folded, ctx)))
  }

  method Write(value: string, style: ScalarStyle, ctx: ScalarContext, out: string)
    returns (r: Result<string, Reason>)
    ensures match Rendered(value, style, ctx)
            case Err(reason) => r == Err(reason)
            case Ok(text) => r == Ok(out + text)
  {
    match style
    case Plain =>
      var reason := PlainSyntaxReason(value, ctx);
      if reason.Some? {
        return Err(reason.value);
      }
      var text := WriteAtoms(CharAtoms(value), ctx, out);
      r := Ok(text);
    case SingleQuoted =>
      var reason := SingleSyntaxReason(value);
      if reason.Some? {
        return Err(reason.value);
      }
      var text := WriteAtoms(SingleQuotedAtoms(value), ctx, out + "'");
      assert text + "'" == out + Rendered(value, style, ctx).value;
      r := Ok(text + "'");
    case DoubleQuoted =>
      var text := WriteAtoms(DoubleQuotedAtoms(value, ctx.allowUnicode), ctx, out + "\"");
      assert text + "\"" == out + Rendered(value, style, ctx).value;
      r := Ok(text + "\"");
    case Literal =>
      r := WriteBlock(value, style, ctx, out);
    case Folded =>
      r := WriteBlock(value, style, ctx, out);
  }
}
