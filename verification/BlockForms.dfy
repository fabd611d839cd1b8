// Block collections as they are written: the pieces of their text, the columns these stand at, and the
// trees they are (crates/yamluna-scanner/src/scanner.rs, `fetch_block_entry`, `fetch_key`,
// `fetch_value`, `roll_indent`).
module BlockForms {
  import opened Results
  import opened ScalarEmitter
  import opened Events
  import opened TokenBalance
  import opened TokenSteps
  import opened FlowText
  import Written

  // A node: a flow node, a block scalar, the items behind `-`, or the entries of a mapping. `props` are
  // its anchor and its tag.
  datatype Shape =
    | InFlow(form: Form)
    | Lines(props: seq<Piece>, scalar: Piece)
    | Dashes(props: seq<Piece>, items: Items)
    | Pairs(props: seq<Piece>, entries: Entries)

  datatype Items = NoItems | Item(dash: Piece, node: Shape, tail: Items)

  // `a: b`, `: b`, `? a`, and `? a` with a `: b` under it.
  datatype Entries =
    | NoEntries
    | Inline(key: Form, colon: Piece, value: Shape, tail: Entries)
    | Keyless(colon: Piece, value: Shape, tail: Entries)
    | Explicit(question: Piece, name: Shape, tail: Entries)
    | ExplicitFor(question: Piece, name: Shape, colon: Piece, value: Shape, tail: Entries)

  // ------------------------------------------------------------------ the text

  function ShapePieces(s: Shape): seq<Piece> {
    match s
    case InFlow(f) => Pieces(f)
    case Lines(props, scalar) => props + [scalar]
    case Dashes(props, items) => props + ItemPieces(items)
    case Pairs(props, entries) => props + EntriesPieces(entries)
  }

  function ItemPieces(i: Items): seq<Piece> {
    if i.NoItems? then [] else [i.dash] + (ShapePieces(i.node) + ItemPieces(i.tail))
  }

  function EntriesPieces(e: Entries): seq<Piece> {
    match e
    case NoEntries => []
    case Inline(k, colon, v, tail) => (Pieces(k) + [colon]) + (ShapePieces(v) + EntriesPieces(tail))
    case Keyless(colon, v, tail) => [colon] + (ShapePieces(v) + EntriesPieces(tail))
    case Explicit(question, k, tail) => [question] + (ShapePieces(k) + EntriesPieces(tail))
    case ExplicitFor(question, k, colon, v, tail) =>
      [question] + (ShapePieces(k) + ([colon] + (ShapePieces(v) + EntriesPieces(tail))))
  }

  // The first piece of an entry.
  function StartOf(e: Entries): Piece
    requires !e.NoEntries?
  {
    match e
    case Inline(k, colon, _, _) => if k.Missing? then colon else First(k)
    case Keyless(colon, _, _) => colon
    case Explicit(question, _, _) => question
    case ExplicitFor(question, _, _, _, _) => question
  }

  // The last of some pieces, or the one in front of them.
  function LastOf(ps: seq<Piece>, before: Piece): Piece {
    if ps == [] then before else ps[|ps| - 1]
  }

  // ------------------------------------------------------------------ lines

  // Pieces that leave the scanner ready for a key: those behind which it has looked past the end of
  // their line, and indicators that let a key follow.
  predicate EndsLine(p: Piece) {
    match p.lexeme
    case Plain(_, newline) => newline
    case Quoted(_, newline) => newline
    case BlockScalar(_) => true
    case Dash(_, _) => true
    case Question => true
    case _ => false
  }

  // On a line of its own behind `last`.
  predicate Fresh(last: Piece, p: Piece) {
    last.mark.line < p.mark.line && (p.newline || EndsLine(last))
  }

  // A collection begins on the line of what it belongs to where a key may, and else on a line of its
  // own; behind properties always.
  predicate Begins(props: seq<Piece>, p: Piece, free: bool) {
    if props == [] then free || p.newline else Fresh(props[|props| - 1], p)
  }

  predicate Ordered(ps: seq<Piece>) {
    forall i, j | 0 <= i <= j < |ps| :: ps[i].mark.line <= ps[j].mark.line
  }

  predicate Alone(p: Piece) {
    p.comments == [] && p.trailing == []
  }

  // No more than a line and 1024 characters.
  predicate Near(from: Mark, to: Mark) {
    to.line <= from.line && to.index <= from.index + 1024
  }

  // ------------------------------------------------------------------ what may be written where

  // A flow node: further in than `outer`, and inside its brackets further in than `base`.
  predicate FitsForm(f: Form, outer: int, base: int) {
    match f
    case Missing => true
    case Leaf(props, content) =>
      FitsProps(props, outer) && if content.Some? then FitsContent(content.value, props, outer) else props != []
    case Seq(props, open, row, close) =>
      && FitsProps(props, outer) && open.lexeme == FlowStart(true) && Clear(open, outer)
      && FitsRow(row, base, true) && close.lexeme == FlowEnd(true) && Clear(close, base)
    case Map(props, open, row, close) =>
      && FitsProps(props, outer) && open.lexeme == FlowStart(false) && Clear(open, outer)
      && FitsRow(row, base, false) && close.lexeme == FlowEnd(false) && Clear(close, base)
  }

  // A key without a `?`: a flow node on the line of its `:`.
  predicate IsKey(k: Form, colon: Piece, col: nat) {
    && !k.Missing? && FitsForm(k, col - 1, col) && Depth(k) <= 255 && First(k).mark.col == col
    && (forall i | 0 < i < |Pieces(k)| :: !Pieces(k)[i].newline && Pieces(k)[i].mark.col > col)
    && (forall i | 0 <= i < |Pieces(k)| :: Near(First(k).mark, Pieces(k)[i].mark))
    && colon.lexeme == Colon && Clear(colon, col) && Near(First(k).mark, colon.mark)
  }

  predicate StandsAlone(p: Piece, l: Lexeme, col: nat) {
    p.lexeme == l && Alone(p) && p.mark.col == col
  }

  // `indent` is the column of the block around the first `-`. At the margin, what stands in front of a
  // `-` that begins no document must not be a property.
  predicate IsDash(p: Piece, col: nat, indent: int) {
    p.lexeme.Dash? && Alone(p) && p.mark.col == col && (p.lexeme.anchored && col == 0 ==> indent == -1)
  }

  // Inside a block at column `indent`. `inMap` is whether items may stand in the column of the block,
  // `free` whether a key may follow on the same line.
  predicate FitsShape(s: Shape, indent: int, inMap: bool, free: bool) {
    match s
    case InFlow(f) => FitsForm(f, indent, indent) && Depth(f) <= 255 && Ordered(Pieces(f))
    case Lines(props, scalar) =>
      && FitsProps(props, indent) && Ordered(props + [scalar]) && Clear(scalar, indent)
      && scalar.lexeme.BlockScalar? && scalar.lexeme.token.Scalar?
    case Dashes(props, items) =>
      && FitsProps(props, indent) && Ordered(props) && items.Item? && Begins(props, items.dash, free)
      && (items.dash.mark.col > indent || (inMap && items.dash.mark.col == indent))
      && FitsItems(items, items.dash.mark.col, indent)
    case Pairs(props, entries) =>
      && FitsProps(props, indent) && Ordered(props) && !entries.NoEntries? && Begins(props, StartOf(entries), free)
      && StartOf(entries).mark.col > indent && FitsEntries(entries, StartOf(entries).mark.col)
  }

  predicate FitsItems(i: Items, col: nat, indent: int) {
    i.Item? ==>
      && IsDash(i.dash, col, indent) && FitsShape(i.node, col, false, true) && FitsItems(i.tail, col, col)
      && (i.tail.Item? ==> Fresh(LastOf(ShapePieces(i.node), i.dash), i.tail.dash))
  }

  predicate FollowsOn(last: Piece, e: Entries) {
    e.NoEntries? || Fresh(last, StartOf(e))
  }

  predicate FitsEntries(e: Entries, col: nat) {
    match e
    case NoEntries => true
    case Inline(k, colon, v, tail) =>
      && IsKey(k, colon, col) && FitsShape(v, col, true, false)
      && FollowsOn(LastOf(ShapePieces(v), colon), tail) && FitsEntries(tail, col)
    case Keyless(colon, v, tail) =>
      && StandsAlone(colon, Colon, col) && FitsShape(v, col, true, true)
      && FollowsOn(LastOf(ShapePieces(v), colon), tail) && FitsEntries(tail, col)
    case Explicit(question, k, tail) =>
      && StandsAlone(question, Question, col) && FitsShape(k, col, true, true) && !tail.Keyless?
      && FollowsOn(LastOf(ShapePieces(k), question), tail) && FitsEntries(tail, col)
    case ExplicitFor(question, k, colon, v, tail) =>
      && StandsAlone(question, Question, col) && FitsShape(k, col, true, true)
      && StandsAlone(colon, Colon, col) && Fresh(LastOf(ShapePieces(k), question), colon) && FitsShape(v, col, true, true)
      && FollowsOn(LastOf(ShapePieces(v), colon), tail) && FitsEntries(tail, col)
  }

  // ------------------------------------------------------------------ the flag

  // Outside brackets the flag is what flow collections have left it.
  function FlagOf(s: Shape, m: bool): bool {
    match s
    case InFlow(f) => Flag(f, m)
    case Lines(_, _) => m
    case Dashes(_, items) => ItemsFlag(items, m)
    case Pairs(_, entries) => EntriesFlag(entries, m)
  }

  function ItemsFlag(i: Items, m: bool): bool {
    if i.NoItems? then m else ItemsFlag(i.tail, FlagOf(i.node, m))
  }

  function EntriesFlag(e: Entries, m: bool): bool {
    match e
    case NoEntries => m
    case Inline(k, _, v, tail) => EntriesFlag(tail, FlagOf(v, Flag(k, m)))
    case Keyless(_, v, tail) => EntriesFlag(tail, FlagOf(v, m))
    case Explicit(_, k, tail) => EntriesFlag(tail, FlagOf(k, m))
    case ExplicitFor(_, k, _, v, tail) => EntriesFlag(tail, FlagOf(v, FlagOf(k, m)))
  }

  // No `,` between braces stands in a pair without braces, in any of the flow collections.
  predicate GoodShape(s: Shape, m: bool) {
    match s
    case InFlow(f) => Good(f, m, false)
    case Lines(_, _) => true
    case Dashes(_, items) => GoodItems(items, m)
    case Pairs(_, entries) => GoodEntries(entries, m)
  }

  predicate GoodItems(i: Items, m: bool) {
    i.Item? ==> GoodShape(i.node, m) && GoodItems(i.tail, FlagOf(i.node, m))
  }

  predicate GoodEntries(e: Entries, m: bool) {
    match e
    case NoEntries => true
    case Inline(k, _, v, tail) =>
      Good(k, m, false) && GoodShape(v, Flag(k, m)) && GoodEntries(tail, FlagOf(v, Flag(k, m)))
    case Keyless(_, v, tail) => GoodShape(v, m) && GoodEntries(tail, FlagOf(v, m))
    case Explicit(_, k, tail) => GoodShape(k, m) && GoodEntries(tail, FlagOf(k, m))
    case ExplicitFor(_, k, _, v, tail) =>
      GoodShape(k, m) && GoodShape(v, FlagOf(k, m)) && GoodEntries(tail, FlagOf(v, FlagOf(k, m)))
  }

  // ------------------------------------------------------------------ the tree

  // Items in the column of the mapping around them are a sequence without indentation of its own.
  function TreeOf(s: Shape, indent: int, m: bool): Written.Node {
    match s
    case InFlow(f) => Tree(f, m)
    case Lines(props, scalar) =>
      if scalar.lexeme.BlockScalar? && scalar.lexeme.token.Scalar? then
        Written.Text(PropsOf(props), scalar.lexeme.token.style, scalar.lexeme.token.value)
      else Written.Missing
    case Dashes(props, items) =>
      if items.Item? && items.dash.mark.col == indent then Written.Indentless(PropsOf(props), ItemsOf(items, m))
      else Written.BlockSeq(PropsOf(props), ItemsOf(items, m))
    case Pairs(props, entries) => Written.BlockMap(PropsOf(props), EntriesOf(entries, m))
  }

  function ItemsOf(i: Items, m: bool): Written.Items {
    if i.NoItems? then Written.NoItems
    else Written.Items(TreeOf(i.node, i.dash.mark.col, m), ItemsOf(i.tail, FlagOf(i.node, m)))
  }

  function EntriesOf(e: Entries, m: bool): Written.Entries {
    match e
    case NoEntries => Written.NoEntries
    case Inline(k, _, v, tail) =>
      var n := Flag(k, m);
      Written.Entries(Written.KeyAndValue, Tree(k, m), TreeOf(v, StartOf(e).mark.col, n), EntriesOf(tail, FlagOf(v, n)))
    case Keyless(colon, v, tail) =>
      Written.Entries(Written.ValueOnly, Written.Missing, TreeOf(v, colon.mark.col, m), EntriesOf(tail, FlagOf(v, m)))
    case Explicit(question, k, tail) =>
      Written.Entries(Written.KeyOnly, TreeOf(k, question.mark.col, m), Written.Missing, EntriesOf(tail, FlagOf(k, m)))
    case ExplicitFor(question, k, _, v, tail) =>
      var n := FlagOf(k, m);
      Written.Entries(Written.KeyAndValue, TreeOf(k, question.mark.col, m), TreeOf(v, question.mark.col, n), EntriesOf(tail, FlagOf(v, n)))
  }

  // ------------------------------------------------------------------ trees that may be written

  lemma FormFlows(f: Form, m: bool, outer: int, base: int)
    requires FitsForm(f, outer, base)
    ensures Written.Flows(Tree(f, m)) && (Tree(f, m).Missing? <==> f.Missing?)
  {
    hide PropsOf;
    match f {
      case Missing =>
      case Leaf(props, content) => PropsShown(props, outer);
      case Seq(_, _, row, _) => CellsFlow(row, m, base);
      case Map(_, _, row, _) => MembersFlow(row, base);
    }
  }

  lemma FlowsStand(n: Written.Node, inMap: bool)
    requires Written.Flows(n)
    ensures Written.Blocks(n, inMap)
  {
  }

  lemma {:induction false} ShapeBlocks(s: Shape, m: bool, indent: int, inMap: bool, free: bool)
    requires FitsShape(s, indent, inMap, free)
    ensures Written.Blocks(TreeOf(s, indent, m), inMap) && (TreeOf(s, indent, m).Missing? <==> s.InFlow? && s.form.Missing?)
  {
    hide FitsForm, Tree, Ordered, FitsProps, PropsOf, Begins;
    match s {
      case InFlow(f) =>
        FormFlows(f, m, indent, indent);
        FlowsStand(Tree(f, m), inMap);
      case Lines(_, _) =>
      case Dashes(_, items) => ItemsStand(items, m, items.dash.mark.col, indent);
      case Pairs(_, entries) => EntriesStand(entries, m, StartOf(entries).mark.col);
    }
  }

  lemma {:induction false} ItemsStand(i: Items, m: bool, col: nat, indent: int)
    requires FitsItems(i, col, indent)
    ensures Written.ItemsBlock(ItemsOf(i, m)) && (ItemsOf(i, m).Items? <==> i.Item?)
  {
    hide FitsShape, TreeOf, Fresh, Written.Blocks;
    if i.Item? {
      ShapeBlocks(i.node, m, col, false, true);
      ItemsStand(i.tail, FlagOf(i.node, m), col, col);
    }
  }

  lemma {:induction false} EntriesStand(e: Entries, m: bool, col: nat)
    requires FitsEntries(e, col)
    ensures Written.EntriesBlock(EntriesOf(e, m))
    ensures EntriesOf(e, m).Entries? <==> !e.NoEntries?
    ensures EntriesOf(e, m).Entries? && EntriesOf(e, m).half.ValueOnly? <==> e.Keyless?
  {
    hide FitsForm, FitsShape, TreeOf, Tree, Fresh, Near, Written.Flows;
    match e {
      case NoEntries =>
      case Inline(k, _, v, tail) =>
        FormFlows(k, m, col - 1, col);
        FlowsStand(Tree(k, m), true);
        ShapeBlocks(v, Flag(k, m), col, true, false);
        EntriesStand(tail, FlagOf(v, Flag(k, m)), col);
      case Keyless(_, v, tail) =>
        ShapeBlocks(v, m, col, true, true);
        EntriesStand(tail, FlagOf(v, m), col);
        FlowsStand(Written.Missing, true);
      case Explicit(_, k, tail) =>
        ShapeBlocks(k, m, col, true, true);
        EntriesStand(tail, FlagOf(k, m), col);
        FlowsStand(Written.Missing, true);
      case ExplicitFor(_, k, _, v, tail) =>
        ShapeBlocks(k, m, col, true, true);
        ShapeBlocks(v, FlagOf(k, m), col, true, true);
        EntriesStand(tail, FlagOf(v, FlagOf(k, m)), col);
    }
  }
}
