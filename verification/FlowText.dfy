// Flow collections as they are written: the pieces of their text, and the trees the scanner makes of
// them (crates/yamluna-scanner/src/scanner.rs, `fetch_flow_value`, `fetch_value`, `fetch_flow_entry`).
module FlowText {
  import opened Results
  import opened ScalarEmitter
  import opened Events
  import opened TokenBalance
  import opened TokenSteps
  import ParserStep
  import Written

  // A node, with the pieces it is made of. `props` are its anchor and its tag.
  datatype Form =
    | Missing
    | Leaf(props: seq<Piece>, content: Option<Piece>)
    | Seq(props: seq<Piece>, open: Piece, row: Row, close: Piece)
    | Map(props: seq<Piece>, open: Piece, row: Row, close: Piece)

  // What stands between brackets or braces; a `,` may come last.
  datatype Row =
    | NoRow
    | Last(entry: Entry)
    | More(entry: Entry, comma: Piece, tail: Row)

  // `a`, `a: b`, `: b`, `? a` and `? a : b`; a node may be missing behind a `?` or a `:`.
  datatype Entry =
    | Lone(node: Form)
    | Simple(key: Form, colon: Piece, value: Form)
    | Bare(colon: Piece, value: Form)
    | Asked(question: Piece, key: Form)
    | AskedFor(question: Piece, key: Form, colon: Piece, value: Form)

  // ------------------------------------------------------------------ the text

  function Pieces(f: Form): seq<Piece> {
    match f
    case Missing => []
    case Leaf(props, content) => props + if content.Some? then [content.value] else []
    case Seq(props, open, row, close) => props + ([open] + (RowPieces(row) + [close]))
    case Map(props, open, row, close) => props + ([open] + (RowPieces(row) + [close]))
  }

  function RowPieces(r: Row): seq<Piece> {
    match r
    case NoRow => []
    case Last(e) => EntryPieces(e)
    case More(e, comma, tail) => EntryPieces(e) + ([comma] + RowPieces(tail))
  }

  function EntryPieces(e: Entry): seq<Piece> {
    match e
    case Lone(n) => Pieces(n)
    case Simple(k, colon, v) => Pieces(k) + ([colon] + Pieces(v))
    case Bare(colon, v) => [colon] + Pieces(v)
    case Asked(question, k) => [question] + Pieces(k)
    case AskedFor(question, k, colon, v) => [question] + (Pieces(k) + ([colon] + Pieces(v)))
  }

  // How deep collections are nested.
  function Depth(f: Form): nat {
    match f
    case Seq(_, _, row, _) => 1 + RowDepth(row)
    case Map(_, _, row, _) => 1 + RowDepth(row)
    case _ => 0
  }

  function RowDepth(r: Row): nat {
    match r
    case NoRow => 0
    case Last(e) => EntryDepth(e)
    case More(e, _, tail) => Most(EntryDepth(e), RowDepth(tail))
  }

  function EntryDepth(e: Entry): nat {
    match e
    case Lone(n) => Depth(n)
    case Simple(k, _, v) => Most(Depth(k), Depth(v))
    case Bare(_, v) => Depth(v)
    case Asked(_, k) => Depth(k)
    case AskedFor(_, k, _, v) => Most(Depth(k), Depth(v))
  }

  function Most(a: nat, b: nat): nat {
    if a < b then b else a
  }

  // ------------------------------------------------------------------ what may be written where

  // Further in than the block around the collection, and no comments next to it.
  predicate Clear(p: Piece, indent: int) {
    p.comments == [] && p.trailing == [] && p.mark.col > indent
  }

  predicate IsProp(p: Piece, indent: int) {
    Clear(p, indent) && p.lexeme.Property? && (p.lexeme.token.Anchor? || p.lexeme.token.Tag?)
  }

  predicate FitsProps(ps: seq<Piece>, indent: int) {
    && |ps| <= 2 && (forall i | 0 <= i < |ps| :: IsProp(ps[i], indent))
    && (|ps| == 2 ==> ps[0].lexeme.token.Anchor? != ps[1].lexeme.token.Anchor?)
  }

  // A scalar; or an alias, which has no properties.
  predicate FitsContent(p: Piece, props: seq<Piece>, indent: int) {
    && Clear(p, indent)
    && match p.lexeme
       case Quoted(t, _) => t.Scalar?
       case Plain(t, _) => t.Scalar?
       case Property(t) => t.Alias? && props == []
       case _ => false
  }

  predicate Fits(f: Form, indent: int) {
    match f
    case Missing => true
    case Leaf(props, content) =>
      FitsProps(props, indent) && if content.Some? then FitsContent(content.value, props, indent) else props != []
    case Seq(props, open, row, close) =>
      && FitsProps(props, indent) && open.lexeme == FlowStart(true) && Clear(open, indent)
      && FitsRow(row, indent, true) && close.lexeme == FlowEnd(true) && Clear(close, indent)
    case Map(props, open, row, close) =>
      && FitsProps(props, indent) && open.lexeme == FlowStart(false) && Clear(open, indent)
      && FitsRow(row, indent, false) && close.lexeme == FlowEnd(false) && Clear(close, indent)
  }

  predicate FitsRow(r: Row, indent: int, brackets: bool) {
    match r
    case NoRow => true
    case Last(e) => FitsEntry(e, indent, brackets)
    case More(e, comma, tail) =>
      FitsEntry(e, indent, brackets) && comma.lexeme == Lexeme.Comma && Clear(comma, indent) && FitsRow(tail, indent, brackets)
  }

  // Between brackets a key without a `?` is on the line of its `:`.
  predicate FitsEntry(e: Entry, indent: int, brackets: bool) {
    match e
    case Lone(n) => !n.Missing? && Fits(n, indent)
    case Simple(k, colon, v) =>
      && !k.Missing? && Fits(k, indent) && Fits(v, indent) && IsColon(colon, indent)
      && (brackets ==> colon.mark.line <= First(k).mark.line)
    case Bare(colon, v) => Fits(v, indent) && IsColon(colon, indent)
    case Asked(question, k) => Fits(k, indent) && IsQuestion(question, indent)
    case AskedFor(question, k, colon, v) =>
      Fits(k, indent) && Fits(v, indent) && IsQuestion(question, indent) && IsColon(colon, indent)
  }

  predicate IsColon(p: Piece, indent: int) {
    p.lexeme == Colon && Clear(p, indent)
  }

  predicate IsQuestion(p: Piece, indent: int) {
    p.lexeme == Question && Clear(p, indent)
  }

  // The first piece of a node.
  function First(f: Form): Piece
    requires !f.Missing?
  {
    if f.props != [] then f.props[0]
    else
      match f
      case Leaf(_, content) => if content.Some? then content.value else AtEnd(Mark(0, 0, 0))
      case Seq(_, open, _, _) => open
      case Map(_, open, _, _) => open
  }

  // ------------------------------------------------------------------ the flag

  // The scanner remembers in a single flag that it is inside a mapping; it is set by `{` and `?`, and
  // cleared by the end of a pair that it has given a `FlowMappingStart` of its own. What the flag is
  // behind a node, from what it was in front of it.
  function Flag(f: Form, m: bool): bool
    decreases f, 0
  {
    match f
    case Seq(_, _, row, _) => RowFlag(row, m)
    case Map(_, _, _, _) => true
    case _ => m
  }

  function RowFlag(r: Row, m: bool): bool
    decreases r, 0
  {
    match r
    case NoRow => m
    case Last(e) => ClosedFlag(e, m)
    case More(e, _, tail) => RowFlag(tail, ClosedFlag(e, m))
  }

  function EntryFlag(e: Entry, m: bool): bool
    decreases e, 0
  {
    match e
    case Lone(n) => Flag(n, m)
    case Simple(k, _, v) => Flag(v, Flag(k, m))
    case Bare(_, v) => Flag(v, m)
    case Asked(_, k) => Flag(k, true)
    case AskedFor(_, k, _, v) => Flag(v, Flag(k, true))
  }

  // Whether the `:` of an entry begins a mapping without braces.
  predicate Opens(e: Entry, m: bool)
    decreases e, 0
  {
    match e
    case Simple(k, _, _) => !Flag(k, m)
    case Bare(_, _) => !m
    case _ => false
  }

  // The flag behind the `,` or `]` that ends an entry between brackets.
  function ClosedFlag(e: Entry, m: bool): bool
    decreases e, 1
  {
    !Opens(e, m) && EntryFlag(e, m)
  }

  // Once set, the flag stays set.
  lemma {:induction false} FlagStays(f: Form)
    ensures Flag(f, true)
  {
    match f {
      case Seq(_, _, row, _) => RowFlagStays(row);
      case _ =>
    }
  }

  lemma {:induction false} RowFlagStays(r: Row)
    ensures RowFlag(r, true)
  {
    match r {
      case NoRow =>
      case Last(e) => EntryFlagStays(e);
      case More(e, _, tail) =>
        EntryFlagStays(e);
        RowFlagStays(tail);
    }
  }

  lemma {:induction false} EntryFlagStays(e: Entry)
    ensures EntryFlag(e, true) && !Opens(e, true)
  {
    match e {
      case Lone(n) => FlagStays(n);
      case Simple(k, _, v) =>
        FlagStays(k);
        FlagStays(v);
      case Bare(_, v) => FlagStays(v);
      case Asked(_, k) => FlagStays(k);
      case AskedFor(_, k, _, v) =>
        FlagStays(k);
        FlagStays(v);
    }
  }

  // ------------------------------------------------------------------ the condition

  // No `,` between braces stands in a pair without braces, unless there are brackets between the two;
  // `inside` is whether the node does.
  predicate Good(f: Form, m: bool, inside: bool) {
    match f
    case Seq(_, _, row, _) => GoodCells(row, m)
    case Map(_, _, row, _) => GoodMembers(row, inside)
    case _ => true
  }

  predicate GoodCells(r: Row, m: bool) {
    match r
    case NoRow => true
    case Last(e) => GoodEntry(e, m, false)
    case More(e, _, tail) => GoodEntry(e, m, false) && GoodCells(tail, ClosedFlag(e, m))
  }

  predicate GoodMembers(r: Row, inside: bool) {
    match r
    case NoRow => true
    case Last(e) => GoodEntry(e, true, inside)
    case More(e, _, tail) => GoodEntry(e, true, inside) && !inside && GoodMembers(tail, inside)
  }

  predicate GoodEntry(e: Entry, m: bool, inside: bool) {
    match e
    case Lone(n) => Good(n, m, inside)
    case Simple(k, _, v) => Good(k, m, inside) && Good(v, Flag(k, m), inside || Opens(e, m))
    case Bare(_, v) => Good(v, m, inside || Opens(e, m))
    case Asked(_, k) => Good(k, true, inside)
    case AskedFor(_, k, _, v) => Good(k, true, inside) && Good(v, true, inside)
  }

  // ------------------------------------------------------------------ the tree

  const NoProps: Written.Props := Written.Props(None, None, false)

  function PropsOf(ps: seq<Piece>): Written.Props {
    var anchors := if |ps| > 0 && IsAnchor(ps[0]) then Some(ps[0]) else if |ps| > 1 && IsAnchor(ps[1]) then Some(ps[1]) else None;
    var tags := if |ps| > 0 && IsTag(ps[0]) then Some(ps[0]) else if |ps| > 1 && IsTag(ps[1]) then Some(ps[1]) else None;
    Written.Props(
      if anchors.Some? then Some(anchors.value.lexeme.token.name) else None,
      if tags.Some? then Some((tags.value.lexeme.token.handle, tags.value.lexeme.token.suffix)) else None,
      |ps| > 0 && IsTag(ps[0]))
  }

  predicate IsAnchor(p: Piece) {
    p.lexeme.Property? && p.lexeme.token.Anchor?
  }

  predicate IsTag(p: Piece) {
    p.lexeme.Property? && p.lexeme.token.Tag?
  }

  function LeafTree(props: Written.Props, l: Lexeme): Written.Node {
    match l
    case Quoted(t, _) => if t.Scalar? then Written.Text(props, t.style, t.value) else Written.Missing
    case Plain(t, _) => if t.Scalar? then Written.Text(props, t.style, t.value) else Written.Missing
    case Property(t) => if t.Alias? then Written.Reference(t.name) else Written.Missing
    case _ => Written.Missing
  }

  // The tree a node is taken for, from what the flag is in front of it. A pair without braces and
  // without `?` is a mapping of its own when the flag is clear.
  function Tree(f: Form, m: bool): Written.Node {
    match f
    case Missing => Written.Missing
    case Leaf(props, content) =>
      if content.None? then Written.Bare(PropsOf(props)) else LeafTree(PropsOf(props), content.value.lexeme)
    case Seq(props, _, row, _) => Written.FlowSeq(PropsOf(props), Cells(row, m))
    case Map(props, _, row, _) => Written.FlowMap(PropsOf(props), Members(row))
  }

  function Cells(r: Row, m: bool): Written.Cells {
    match r
    case NoRow => Written.NoCells
    case Last(e) => Cell(e, m, Written.NoCells)
    case More(e, _, tail) => Cell(e, m, if tail.NoRow? then Written.Comma else Cells(tail, ClosedFlag(e, m)))
  }

  function Cell(e: Entry, m: bool, tail: Written.Cells): Written.Cells {
    match e
    case Lone(n) => Written.Item(Tree(n, m), tail)
    case Simple(k, _, v) => PairOf(Opens(e, m), Written.KeyAndValue, Tree(k, m), Tree(v, Flag(k, m)), tail)
    case Bare(_, v) => PairOf(Opens(e, m), Written.ValueOnly, Written.Missing, Tree(v, m), tail)
    case Asked(_, k) => Written.Pair(Written.KeyOnly, Tree(k, true), Written.Missing, tail)
    case AskedFor(_, k, _, v) => Written.Pair(Written.KeyAndValue, Tree(k, true), Tree(v, true), tail)
  }

  function PairOf(opens: bool, half: Written.Halves, k: Written.Node, v: Written.Node, tail: Written.Cells): Written.Cells {
    if opens then Written.Item(Written.FlowMap(NoProps, Written.Member(half, k, v, Written.NoMembers)), tail)
    else Written.Pair(half, k, v, tail)
  }

  function Members(r: Row): Written.Members {
    match r
    case NoRow => Written.NoMembers
    case Last(e) => Member(e, Written.NoMembers)
    case More(e, _, tail) => Member(e, if tail.NoRow? then Written.LastComma else Members(tail))
  }

  function Member(e: Entry, tail: Written.Members): Written.Members {
    match e
    case Lone(n) => Written.Lone(Tree(n, true), tail)
    case Simple(k, _, v) => Written.Member(Written.KeyAndValue, Tree(k, true), Tree(v, true), tail)
    case Bare(_, v) => Written.Member(Written.ValueOnly, Written.Missing, Tree(v, true), tail)
    case Asked(_, k) => Written.Member(Written.KeyOnly, Tree(k, true), Written.Missing, tail)
    case AskedFor(_, k, _, v) => Written.Member(Written.KeyAndValue, Tree(k, true), Tree(v, true), tail)
  }

  // ------------------------------------------------------------------ trees that may be written

  lemma PropsShown(ps: seq<Piece>, indent: int)
    requires FitsProps(ps, indent)
    ensures ps != [] ==> PropsOf(ps).anchor.Some? || PropsOf(ps).tag.Some?
    ensures |Written.PropWords(PropsOf(ps))| == |ps|
    ensures forall i | 0 <= i < |ps| :: Written.PropWords(PropsOf(ps))[i] == ps[i].lexeme.token
  {
    if |ps| > 0 {
      assert IsProp(ps[0], indent);
    }
    if |ps| > 1 {
      assert IsProp(ps[1], indent);
    }
  }

  lemma {:induction false} TreeFlows(f: Form, m: bool, indent: int)
    requires Fits(f, indent)
    ensures Written.Flows(Tree(f, m)) && (Tree(f, m).Missing? <==> f.Missing?)
  {
    hide PropsOf;
    match f {
      case Missing =>
      case Leaf(props, content) => PropsShown(props, indent);
      case Seq(_, _, row, _) => CellsFlow(row, m, indent);
      case Map(_, _, row, _) => MembersFlow(row, indent);
    }
  }

  lemma {:induction false} CellsFlow(r: Row, m: bool, indent: int)
    requires FitsRow(r, indent, true)
    ensures Written.CellsFlow(Cells(r, m)) && !Cells(r, m).Comma? && (Cells(r, m).NoCells? <==> r.NoRow?)
  {
    hide Tree;
    match r {
      case NoRow =>
      case Last(e) => CellFlows(e, m, Written.NoCells, indent);
      case More(e, _, tail) =>
        CellsFlow(tail, ClosedFlag(e, m), indent);
        CellFlows(e, m, if tail.NoRow? then Written.Comma else Cells(tail, ClosedFlag(e, m)), indent);
    }
  }

  lemma {:induction false} CellFlows(e: Entry, m: bool, tail: Written.Cells, indent: int)
    requires FitsEntry(e, indent, true) && Written.CellsFlow(tail)
    ensures Written.CellsFlow(Cell(e, m, tail)) && (Cell(e, m, tail).Item? || Cell(e, m, tail).Pair?)
  {
    hide Tree;
    match e {
      case Lone(n) => TreeFlows(n, m, indent);
      case Simple(k, _, v) =>
        TreeFlows(k, m, indent);
        TreeFlows(v, Flag(k, m), indent);
        PairFlows(Opens(e, m), Written.KeyAndValue, Tree(k, m), Tree(v, Flag(k, m)), tail);
      case Bare(_, v) =>
        TreeFlows(v, m, indent);
        PairFlows(Opens(e, m), Written.ValueOnly, Written.Missing, Tree(v, m), tail);
      case Asked(_, k) => TreeFlows(k, true, indent);
      case AskedFor(_, k, _, v) =>
        TreeFlows(k, true, indent);
        TreeFlows(v, true, indent);
    }
  }

  lemma PairFlows(opens: bool, half: Written.Halves, k: Written.Node, v: Written.Node, tail: Written.Cells)
    requires Written.Flows(k) && Written.Flows(v) && Written.Halved(half, k, v) && Written.CellsFlow(tail)
    ensures Written.CellsFlow(PairOf(opens, half, k, v, tail))
  {
    hide Written.Halved;
    var member := Written.Member(half, k, v, Written.NoMembers);
    assert Written.MembersFlow(member);
    assert Written.Flows(Written.FlowMap(NoProps, member));
  }

  lemma {:induction false} MembersFlow(r: Row, indent: int)
    requires FitsRow(r, indent, false)
    ensures Written.MembersFlow(Members(r)) && !Members(r).LastComma? && (Members(r).NoMembers? <==> r.NoRow?)
  {
    hide Tree;
    match r {
      case NoRow =>
      case Last(e) => MemberFlows(e, Written.NoMembers, indent);
      case More(e, _, tail) =>
        MembersFlow(tail, indent);
        MemberFlows(e, if tail.NoRow? then Written.LastComma else Members(tail), indent);
    }
  }

  lemma {:induction false} MemberFlows(e: Entry, tail: Written.Members, indent: int)
    requires FitsEntry(e, indent, false) && Written.MembersFlow(tail)
    ensures Written.MembersFlow(Member(e, tail)) && (Member(e, tail).Lone? || Member(e, tail).Member?)
  {
    hide Tree;
    match e {
      case Lone(n) => TreeFlows(n, true, indent);
      case Simple(k, _, v) =>
        TreeFlows(k, true, indent);
        TreeFlows(v, true, indent);
      case Bare(_, v) => TreeFlows(v, true, indent);
      case Asked(_, k) => TreeFlows(k, true, indent);
      case AskedFor(_, k, _, v) =>
        TreeFlows(k, true, indent);
        TreeFlows(v, true, indent);
    }
  }

  // ------------------------------------------------------------------ the tree's meaning

  // What a node means does not depend on the flag: a pair means the same as a mapping of its own.
  lemma {:induction false} TreeMeans(f: Form, m: bool, n: bool, env: ParserStep.Env)
    ensures Written.Mean(Tree(f, m), env, false) == Written.Mean(Tree(f, n), env, false)
  {
    hide Written.MeanCells, Written.MeanProps;
    if f.Seq? {
      var props := Written.MeanProps(PropsOf(f.props), env);
      if props.Ok? {
        CellsMean(f.row, m, n, props.value.1);
      }
    }
  }

  lemma {:induction false} CellsMean(r: Row, m: bool, n: bool, env: ParserStep.Env)
    ensures Written.MeanCells(Cells(r, m), env, false) == Written.MeanCells(Cells(r, n), env, false)
  {
    hide Tree, Written.MeanCells, Cell;
    match r {
      case NoRow =>
      case Last(e) => CellMeans(e, m, n, Written.NoCells, Written.NoCells, env);
      case More(e, _, tail) =>
        var a := if tail.NoRow? then Written.Comma else Cells(tail, ClosedFlag(e, m));
        var b := if tail.NoRow? then Written.Comma else Cells(tail, ClosedFlag(e, n));
        forall x ensures Written.MeanCells(a, x, false) == Written.MeanCells(b, x, false) {
          CellsMean(tail, ClosedFlag(e, m), ClosedFlag(e, n), x);
        }
        CellMeans(e, m, n, a, b, env);
    }
  }

  lemma {:induction false} CellMeans(e: Entry, m: bool, n: bool, a: Written.Cells, b: Written.Cells, env: ParserStep.Env)
    requires forall x :: Written.MeanCells(a, x, false) == Written.MeanCells(b, x, false)
    ensures Written.MeanCells(Cell(e, m, a), env, false) == Written.MeanCells(Cell(e, n, b), env, false)
  {
    hide Tree, Written.MeanCells, Written.Mean, PairOf;
    match e {
      case Lone(f) =>
        TreeMeans(f, m, n, env);
        ItemAlike(Tree(f, m), Tree(f, n), a, b, env);
      case Simple(k, _, v) =>
        TreeMeans(k, m, n, env);
        forall x ensures Written.Mean(Tree(v, Flag(k, m)), x, false) == Written.Mean(Tree(v, Flag(k, n)), x, false) {
          TreeMeans(v, Flag(k, m), Flag(k, n), x);
        }
        PairAlike(Opens(e, m), Opens(e, n), Written.KeyAndValue, Tree(k, m), Tree(k, n), Tree(v, Flag(k, m)), Tree(v, Flag(k, n)), a, b, env);
      case Bare(_, v) =>
        forall x ensures Written.Mean(Tree(v, m), x, false) == Written.Mean(Tree(v, n), x, false) {
          TreeMeans(v, m, n, x);
        }
        PairAlike(Opens(e, m), Opens(e, n), Written.ValueOnly, Written.Missing, Written.Missing, Tree(v, m), Tree(v, n), a, b, env);
      case Asked(_, k) =>
        Unbraced(Written.KeyOnly, Tree(k, true), Written.Missing, a, b);
        PairAlike(false, false, Written.KeyOnly, Tree(k, true), Tree(k, true), Written.Missing, Written.Missing, a, b, env);
      case AskedFor(_, k, _, v) =>
        Unbraced(Written.KeyAndValue, Tree(k, true), Tree(v, true), a, b);
        PairAlike(false, false, Written.KeyAndValue, Tree(k, true), Tree(k, true), Tree(v, true), Tree(v, true), a, b, env);
    }
  }

  lemma Unbraced(half: Written.Halves, k: Written.Node, v: Written.Node, a: Written.Cells, b: Written.Cells)
    ensures PairOf(false, half, k, v, a) == Written.Pair(half, k, v, a) && PairOf(false, half, k, v, b) == Written.Pair(half, k, v, b)
  {
  }

  lemma ItemAlike(t: Written.Node, u: Written.Node, a: Written.Cells, b: Written.Cells, env: ParserStep.Env)
    requires Written.Mean(t, env, false) == Written.Mean(u, env, false)
    requires forall x :: Written.MeanCells(a, x, false) == Written.MeanCells(b, x, false)
    ensures Written.MeanCells(Written.Item(t, a), env, false) == Written.MeanCells(Written.Item(u, b), env, false)
  {
    hide Written.Mean;
  }

  lemma PairAlike(opens: bool, opens2: bool, half: Written.Halves, k: Written.Node, k2: Written.Node, v: Written.Node, v2: Written.Node,
                  a: Written.Cells, b: Written.Cells, env: ParserStep.Env)
    requires Written.Mean(k, env, false) == Written.Mean(k2, env, false)
    requires forall x :: Written.Mean(v, x, false) == Written.Mean(v2, x, false)
    requires forall x :: Written.MeanCells(a, x, false) == Written.MeanCells(b, x, false)
    ensures Written.MeanCells(PairOf(opens, half, k, v, a), env, false) == Written.MeanCells(PairOf(opens2, half, k2, v2, b), env, false)
  {
    hide Written.Mean, Written.MeanCells, PairOf;
    PairMeans(opens, half, k, v, a, env);
    PairMeans(opens2, half, k2, v2, b, env);
  }

  // The events of a pair: its start, the key, the value, its end.
  function PairMeaning(k: Written.Node, v: Written.Node, env: ParserStep.Env): Written.Meaning {
    var a := Written.Mean(k, env, false);
    var rest :=
      if a.verdict.Err? then a
      else
        var b := Written.Mean(v, a.verdict.value, false);
        Written.Append(a, if b.verdict.Err? then b else Written.Append(b, Written.Single(MappingEnd, b.verdict.value)));
    Written.Prefix(MappingStart(NoAnchor, None, Flow), rest)
  }

  lemma PairMeans(opens: bool, half: Written.Halves, k: Written.Node, v: Written.Node, tail: Written.Cells, env: ParserStep.Env)
    ensures var p := PairMeaning(k, v, env);
            Written.MeanCells(PairOf(opens, half, k, v, tail), env, false) ==
            if p.verdict.Err? then p else Written.Append(p, Written.MeanCells(tail, p.verdict.value, false))
  {
    hide Written.Mean;
    if opens {
      MapMeans(half, k, v, env);
    }
  }

  lemma MapMeans(half: Written.Halves, k: Written.Node, v: Written.Node, env: ParserStep.Env)
    ensures Written.Mean(Written.FlowMap(NoProps, Written.Member(half, k, v, Written.NoMembers)), env, false) == PairMeaning(k, v, env)
  {
    var members := Written.Member(half, k, v, Written.NoMembers);
    var p := ParserStep.Properties(NoAnchor, None);
    assert Written.MeanProps(NoProps, env) == Ok((p, env));
    assert Written.Mean(Written.FlowMap(NoProps, members), env, false)
        == Written.Prefix(MappingStart(NoAnchor, None, Flow), Written.MeanMembers(members, env, false));
    hide Written.Mean;
    assert forall x :: Written.MeanMembers(Written.NoMembers, x, false) == Written.Single(MappingEnd, x);
  }
}
