// Over every node of a block: read piece by piece, it gives the words of its tree
// (crates/yamluna-scanner/src/scanner.rs).
module BlockTree {
  import opened Results
  import opened ScalarEmitter
  import opened Events
  import opened TokenBalance
  import opened TokenSteps
  import opened FlowText
  import opened FlowTokens
  import opened FlowReads
  import opened BlockForms
  import opened BlockReads
  import opened BlockNodes
  import opened BlockWords
  import Written

  // ------------------------------------------------------------------ in front of a collection

  // In front of the first piece of a collection, its properties read.
  predicate Entering(q: Queue, m: Queue, at: Place, p: Piece) {
    && AtBlock(m, p, at) && m.inMapping == q.inMapping && (m.allowed || p.newline)
    && (m.keys[0].possible ==> m.keys[0].mark.line < p.mark.line)
  }

  lemma PropsAhead(props: seq<Piece>, q: Queue, at: Place, free: bool, last: Piece)
    requires Opening(q, at, free, last) && FitsProps(props, at.indent) && Ordered(props)
    ensures Ahead(q, props, at, None, true)
  {
    hide Opening, Ordered, Ahead;
    forall i | 0 <= i < |props| ensures Clear(props[i], at.indent) {
      assert IsProp(props[i], at.indent);
    }
    OpeningAhead(props, q, at, free, last);
  }

  lemma PropsGive(props: seq<Piece>, p: Piece, q: Queue, at: Place, free: bool, last: Piece) returns (m: Queue)
    requires Opening(q, at, free, last) && FitsProps(props, at.indent) && Ordered(props) && Begins(props, p, free)
    requires Alone(p) && p.mark.col >= at.indent
    ensures Gives(q, at, props, Written.PropWords(PropsOf(props)), true, m, at) && Entering(q, m, at, p)
  {
    OpeningPending(q, at, free, last);
    PropsAhead(props, q, at, free, last);
    PropWordsOf(props, at.indent);
    hide Ahead, Ended, Stands, Pending, Gives, Gets, TokensOf, PropsOf, Levels, KeyLeft;
    assert props + [] == props;
    m := PropsRead(q, props, [], props, at, None, true, at.indent);
    GetsIs(q, props, Written.PropWords(PropsOf(props)), m);
    if props == [] {
      OpeningEnters(q, at, free, last, p);
    } else {
      PropsEnter(props, q, m, at, p);
    }
    EnteringCalm(q, m, at, p);
    GetsGives(q, at, props, Written.PropWords(PropsOf(props)), true, m);
  }

  lemma OpeningEnters(q: Queue, at: Place, free: bool, last: Piece, p: Piece)
    requires Opening(q, at, free, last) && (free || p.newline) && Alone(p) && p.mark.col >= at.indent
    ensures Entering(q, q, at, p) && Stands(q, at)
  {
    OpeningPending(q, at, free, last);
  }

  lemma PropsEnter(props: seq<Piece>, q: Queue, m: Queue, at: Place, p: Piece)
    requires props != [] && Stands(m, at) && KeyLeft(m, props[|props| - 1], None) && m.inMapping == q.inMapping
    requires Fresh(props[|props| - 1], p) && !EndsLine(props[|props| - 1]) && Alone(p) && p.mark.col >= at.indent
    ensures Entering(q, m, at, p)
  {
    StandsPending(m, at);
  }

  lemma EnteringCalm(q: Queue, m: Queue, at: Place, p: Piece)
    requires Entering(q, m, at, p)
    ensures Calm(m)
  {
  }

  lemma InnerAt(at: Place, col: nat)
    requires at.indent <= col
    ensures Inner(at, col).indent == col && Inner(Inner(at, col), col) == Inner(at, col)
    ensures Starts(Inner(at, col), col, BlockSequenceStart) == Starts(Inner(at, col), col, BlockMappingStart) == []
  {
  }

  // Behind a node, on a line of its own, what belongs to the block around it.
  lemma NextEnters(q: Queue, at: Place, ps: seq<Piece>, words: seq<Token>, n: Queue, last: Piece, p: Piece)
    requires Gives(q, at, ps, words, true, n, at) && Done(n, last) && Fresh(last, p) && Alone(p) && p.mark.col == at.indent
    ensures Entering(n, n, at, p)
  {
    hide Ended, Kept, Parted, TakenAll;
  }

  lemma EndedFlag(q: Queue, at: Place)
    ensures Ended(q, at).inMapping == q.inMapping
  {
    UnrolledRest(q, at.indent);
  }

  // An indicator, and what it opens.
  lemma IndicatorGives(q: Queue, at: Place, p: Piece, words: seq<Token>, to: Place, n: Queue)
    requires Taken(q, p) == Ok(n) && Indicated(Ended(q, at), words, true, to, n)
    ensures Gives(q, at, [p], words, true, n, to) && Opening(n, to, true, p) && n.inMapping == q.inMapping && Sound(to)
  {
    hide Taken, Ended, Stands, Gives, Opening, Sound;
    PieceGives(q, at, p, words, true, n, to);
    IndicatedOpens(Ended(q, at), words, true, to, n, p);
    EndedFlag(q, at);
  }

  // ------------------------------------------------------------------ nodes

  lemma LinesWords(props: seq<Piece>, p: Piece, indent: int, m: bool)
    requires p.lexeme.BlockScalar? && p.lexeme.token.Scalar?
    ensures Written.Words(TreeOf(Lines(props, p), indent, m)) == Written.PropWords(PropsOf(props)) + [p.lexeme.token]
  {
  }

  lemma {:induction false} ShapeGives(s: Shape, q: Queue, at: Place, inMap: bool, free: bool, last: Piece) returns (n: Queue)
    requires Opening(q, at, free, last) && FitsShape(s, at.indent, inMap, free)
    ensures Gives(q, at, ShapePieces(s), Written.Words(TreeOf(s, at.indent, q.inMapping)), GoodShape(s, q.inMapping), n, at)
    ensures GoodShape(s, q.inMapping) ==> n.inMapping == FlagOf(s, q.inMapping) && Done(n, LastOf(ShapePieces(s), last))
    decreases s, 1
  {
    hide Opening, Gives, Done, FitsForm, Ordered, FitsProps, Begins, Tree, Written.Words, PropsOf, FitsItems, FitsEntries;
    match s {
      case InFlow(f) => n := FlowGives(f, q, at, free, last);
      case Lines(props, p) =>
        n := LinesGive(props, p, q, at, free, last);
        LinesWords(props, p, at.indent, q.inMapping);
      case Dashes(props, items) =>
        n := DashesGive(s, q, at, inMap, free, last);
      case Pairs(props, entries) =>
        n := PairsGive(s, q, at, free, last);
    }
  }

  // ------------------------------------------------------------------ items

  lemma DashesWords(s: Shape, at: Place, m: bool)
    requires s.Dashes? && s.items.Item? && at.indent <= s.items.dash.mark.col
    ensures var col, items := s.items.dash.mark.col, Written.ItemWords(ItemsOf(s.items, m));
            Written.Words(TreeOf(s, at.indent, m))
            == Written.PropWords(PropsOf(s.props)) + (Starts(at, col, BlockSequenceStart) + items) + Ends(at, col)
  {
    hide PropsOf, Written.ItemWords, Written.PropWords, ItemsOf;
    var props := Written.PropWords(PropsOf(s.props));
    var items := Written.ItemWords(ItemsOf(s.items, m));
    assert props + ([] + items) + [] == props + items;
    assert props + ([BlockSequenceStart] + items) + [BlockEnd] == props + ([BlockSequenceStart] + (items + [BlockEnd]));
  }

  lemma {:induction false} DashesGive(s: Shape, q: Queue, at: Place, inMap: bool, free: bool, last: Piece) returns (n: Queue)
    requires s.Dashes? && Opening(q, at, free, last) && FitsShape(s, at.indent, inMap, free)
    ensures Gives(q, at, ShapePieces(s), Written.Words(TreeOf(s, at.indent, q.inMapping)), GoodShape(s, q.inMapping), n, at)
    ensures GoodShape(s, q.inMapping) ==> n.inMapping == FlagOf(s, q.inMapping) && Done(n, LastOf(ShapePieces(s), last))
    decreases s, 0
  {
    hide Opening, Gives, Done, Ordered, FitsProps, Begins, PropsOf, Sound, TreeOf, Written.Words, Written.ItemWords, ItemsOf, GoodItems,
         ItemPieces, FitsItems, ItemsFlag, Entering, Ends, Starts, Inner;
    var props, items, col := s.props, s.items, s.items.dash.mark.col;
    var words := Written.ItemWords(ItemsOf(items, q.inMapping));
    DashFits(items, col, at.indent);
    var m := PropsGive(props, items.dash, q, at, free, last);
    EnteringFlag(q, m, at, items.dash);
    n := ItemsGive(items, m, at);
    GivesBoth(q, at, props, Written.PropWords(PropsOf(props)), true, m, at, ItemPieces(items), Starts(at, col, BlockSequenceStart) + words,
              GoodItems(items, q.inMapping), n, Inner(at, col));
    OpeningSound(q, at, free, last);
    CloseGives(q, at, ShapePieces(s), Written.PropWords(PropsOf(props)) + (Starts(at, col, BlockSequenceStart) + words),
               GoodItems(items, q.inMapping), n, col);
    DashesWords(s, at, q.inMapping);
    LastJoin(props, ItemPieces(items), last);
    ItemsThere(items);
  }

  lemma OpeningSound(q: Queue, at: Place, free: bool, last: Piece)
    requires Opening(q, at, free, last)
    ensures Sound(at)
  {
  }

  lemma EnteringFlag(q: Queue, m: Queue, at: Place, p: Piece)
    requires Entering(q, m, at, p)
    ensures m.inMapping == q.inMapping && Entering(m, m, at, p)
  {
  }

  lemma DashFits(i: Items, col: nat, indent: int)
    requires FitsItems(i, col, indent) && i.Item?
    ensures IsDash(i.dash, col, indent) && Alone(i.dash)
  {
  }

  lemma ItemsThere(i: Items)
    requires i.Item?
    ensures ItemPieces(i) != [] && forall p, r :: LastOf(ItemPieces(i), p) == LastOf(ItemPieces(i), r)
  {
  }

  lemma {:induction false} ItemsGive(i: Items, q: Queue, at: Place) returns (n: Queue)
    requires i.Item? && Entering(q, q, at, i.dash) && at.indent <= i.dash.mark.col && FitsItems(i, i.dash.mark.col, at.indent)
    ensures var col := i.dash.mark.col;
            Gives(q, at, ItemPieces(i), Starts(at, col, BlockSequenceStart) + Written.ItemWords(ItemsOf(i, q.inMapping)),
                  GoodItems(i, q.inMapping), n, Inner(at, col))
    ensures GoodItems(i, q.inMapping) ==> n.inMapping == ItemsFlag(i, q.inMapping) && Done(n, LastOf(ItemPieces(i), i.dash))
    decreases i, 1
  {
    hide Opening, Gives, Done, Sound, TreeOf, Written.Words, Inner, Starts, FitsShape, FlagOf, GoodShape, ShapePieces, Indicated, Taken,
         AtBlock, Ended;
    var col, m := i.dash.mark.col, q.inMapping;
    var to, start := Inner(at, i.dash.mark.col), Starts(at, i.dash.mark.col, BlockSequenceStart);
    InnerAt(at, col);
    var q1 := DashGets(q, i.dash, at);
    IndicatorGives(q, at, i.dash, start + [BlockEntry], to, q1);
    n := ItemRest(i, q1, to);
    var rest := Written.Words(TreeOf(i.node, col, m)) + Written.ItemWords(ItemsOf(i.tail, FlagOf(i.node, m)));
    var good := GoodShape(i.node, m) && GoodItems(i.tail, FlagOf(i.node, m));
    GivesBoth(q, at, [i.dash], start + [BlockEntry], true, q1, to, ShapePieces(i.node) + ItemPieces(i.tail), rest, good, n, to);
    AssocTokens(start, [BlockEntry], rest);
    LastJoin([i.dash], ShapePieces(i.node) + ItemPieces(i.tail), i.dash);
  }

  lemma AssocTokens(a: seq<Token>, b: seq<Token>, c: seq<Token>)
    ensures a + b + c == a + (b + c)
  {
  }

  // Behind the `-`: the node, and the items that follow.
  lemma {:induction false} ItemRest(i: Items, q: Queue, at: Place) returns (n: Queue)
    requires i.Item? && Opening(q, at, true, i.dash) && i.dash.mark.col == at.indent && Inner(at, i.dash.mark.col) == at
    requires FitsShape(i.node, at.indent, false, true) && FitsItems(i.tail, i.dash.mark.col, at.indent)
    requires i.tail.Item? ==> Fresh(LastOf(ShapePieces(i.node), i.dash), i.tail.dash)
    ensures var m := q.inMapping;
            && Gives(q, at, ShapePieces(i.node) + ItemPieces(i.tail),
                     Written.Words(TreeOf(i.node, at.indent, m)) + Written.ItemWords(ItemsOf(i.tail, FlagOf(i.node, m))),
                     GoodShape(i.node, m) && GoodItems(i.tail, FlagOf(i.node, m)), n, at)
            && (GoodShape(i.node, m) && GoodItems(i.tail, FlagOf(i.node, m)) ==>
                  n.inMapping == ItemsFlag(i.tail, FlagOf(i.node, m)) && Done(n, LastOf(ShapePieces(i.node) + ItemPieces(i.tail), i.dash)))
    decreases i, 0
  {
    hide Opening, Gives, Done, TreeOf, Written.Words, Starts, FitsShape, FlagOf, GoodShape, ShapePieces, Entering, Inner, Fresh;
    var m := q.inMapping;
    var f := FlagOf(i.node, m);
    var words, more := Written.Words(TreeOf(i.node, at.indent, m)), Written.ItemWords(ItemsOf(i.tail, f));
    var n1 := ShapeGives(i.node, q, at, false, true, i.dash);
    n := n1;
    if GoodShape(i.node, m) {
      if i.tail.NoItems? {
        GivesPending(q, at, ShapePieces(i.node), words, n1);
        GivesNone(n1, at);
      } else {
        DashFits(i.tail, i.dash.mark.col, at.indent);
        NextEnters(q, at, ShapePieces(i.node), words, n1, LastOf(ShapePieces(i.node), i.dash), i.tail.dash);
        n := ItemsGive(i.tail, n1, at);
        NoStart(at, more);
        ItemsThere(i.tail);
      }
      LastJoin(ShapePieces(i.node), ItemPieces(i.tail), i.dash);
    }
    GivesBoth(q, at, ShapePieces(i.node), words, GoodShape(i.node, m), n1, at, ItemPieces(i.tail), more, GoodItems(i.tail, f), n, at);
  }

  lemma GivesPending(q: Queue, at: Place, ps: seq<Piece>, words: seq<Token>, n: Queue)
    requires Gives(q, at, ps, words, true, n, at)
    ensures Pending(n, at)
  {
  }

  lemma NoStart(at: Place, words: seq<Token>)
    requires at.indent >= 0
    ensures Starts(at, at.indent, BlockSequenceStart) + words == words && Starts(at, at.indent, BlockMappingStart) + words == words
    ensures Starts(at, at.indent, BlockMappingStart) == []
  {
    assert [] + words == words;
  }

  // ------------------------------------------------------------------ entries

  // The value of an entry, or the node behind its `?` when nothing follows that.
  function LastNode(e: Entries): Shape
    requires !e.NoEntries?
  {
    if e.Explicit? then e.name else e.value
  }

  lemma PairsWords(s: Shape, at: Place, m: bool)
    requires s.Pairs? && !s.entries.NoEntries? && at.indent < StartOf(s.entries).mark.col
    ensures var col, entries := StartOf(s.entries).mark.col, Written.EntryWords(EntriesOf(s.entries, m));
            Written.Words(TreeOf(s, at.indent, m))
            == Written.PropWords(PropsOf(s.props)) + (Starts(at, col, BlockMappingStart) + entries) + Ends(at, col)
  {
    hide PropsOf, Written.EntryWords, Written.PropWords, EntriesOf, StartOf;
    var props := Written.PropWords(PropsOf(s.props));
    var entries := Written.EntryWords(EntriesOf(s.entries, m));
    assert props + ([BlockMappingStart] + entries) + [BlockEnd] == props + ([BlockMappingStart] + (entries + [BlockEnd]));
  }

  lemma {:induction false} PairsGive(s: Shape, q: Queue, at: Place, free: bool, last: Piece) returns (n: Queue)
    requires s.Pairs? && Opening(q, at, free, last) && FitsShape(s, at.indent, true, free)
    ensures Gives(q, at, ShapePieces(s), Written.Words(TreeOf(s, at.indent, q.inMapping)), GoodShape(s, q.inMapping), n, at)
    ensures GoodShape(s, q.inMapping) ==> n.inMapping == FlagOf(s, q.inMapping) && Done(n, LastOf(ShapePieces(s), last))
    decreases s, 0
  {
    hide Opening, Gives, Done, Ordered, FitsProps, Begins, PropsOf, Sound, TreeOf, Written.Words, Written.EntryWords, EntriesOf, GoodEntries,
         EntriesPieces, FitsEntries, EntriesFlag, Entering, Ends, Starts, Inner, StartOf;
    var props, e, start := s.props, s.entries, StartOf(s.entries);
    var col, words := start.mark.col, Written.EntryWords(EntriesOf(e, q.inMapping));
    EntryFits(e, col);
    var m := PropsGive(props, start, q, at, free, last);
    EnteringFlag(q, m, at, start);
    n := EntriesGive(e, m, at);
    GivesBoth(q, at, props, Written.PropWords(PropsOf(props)), true, m, at, EntriesPieces(e), Starts(at, col, BlockMappingStart) + words,
              GoodEntries(e, q.inMapping), n, Inner(at, col));
    OpeningSound(q, at, free, last);
    CloseGives(q, at, ShapePieces(s), Written.PropWords(PropsOf(props)) + (Starts(at, col, BlockMappingStart) + words),
               GoodEntries(e, q.inMapping), n, col);
    PairsWords(s, at, q.inMapping);
    LastJoin(props, EntriesPieces(e), last);
    EntriesThere(e, col);
  }

  // The first piece of an entry stands in the column of its mapping, with no comment at it.
  lemma EntryFits(e: Entries, col: nat)
    requires FitsEntries(e, col) && !e.NoEntries?
    ensures Alone(StartOf(e)) && StartOf(e).mark.col == col
  {
    if e.Inline? {
      HeadsFit(e.key, col - 1, col);
    }
  }

  lemma EntriesThere(e: Entries, col: nat)
    requires FitsEntries(e, col) && !e.NoEntries?
    ensures EntriesPieces(e) != [] && forall p, r :: LastOf(EntriesPieces(e), p) == LastOf(EntriesPieces(e), r)
  {
  }

  // The words of an entry but for its last node and what follows.
  function FirstWords(e: Entries, start: seq<Token>, col: nat, m: bool): seq<Token> {
    match e
    case NoEntries => []
    case Inline(k, _, _, _) => start + ([Key] + Written.Words(Tree(k, m)) + [Value])
    case Keyless(_, _, _) => start + [Value]
    case Explicit(_, _, _) => start + [Key]
    case ExplicitFor(_, k, _, _, _) => start + [Key] + (Written.Words(TreeOf(k, col, m)) + [Value])
  }

  function FirstPieces(e: Entries): seq<Piece> {
    match e
    case NoEntries => []
    case Inline(k, colon, _, _) => Pieces(k) + [colon]
    case Keyless(colon, _, _) => [colon]
    case Explicit(question, _, _) => [question]
    case ExplicitFor(question, k, colon, _, _) => [question] + (ShapePieces(k) + [colon])
  }

  predicate GoodFirst(e: Entries, m: bool) {
    match e
    case Inline(k, _, _, _) => Good(k, m, false)
    case ExplicitFor(_, k, _, _, _) => GoodShape(k, m)
    case _ => true
  }

  // The flag in front of the last node.
  function FirstFlag(e: Entries, m: bool): bool {
    match e
    case Inline(k, _, _, _) => Flag(k, m)
    case ExplicitFor(_, k, _, _, _) => FlagOf(k, m)
    case _ => m
  }

  // The indicator in front of the last node.
  function LastMark(e: Entries): Piece
    requires !e.NoEntries?
  {
    if e.Explicit? then e.question else e.colon
  }

  lemma EntryParts(e: Entries, col: nat, m: bool)
    requires !e.NoEntries? && FitsEntries(e, col)
    ensures EntriesPieces(e) == FirstPieces(e) + (ShapePieces(LastNode(e)) + EntriesPieces(e.tail))
    ensures GoodEntries(e, m) == (GoodFirst(e, m) && (GoodShape(LastNode(e), FirstFlag(e, m))
                                                      && GoodEntries(e.tail, FlagOf(LastNode(e), FirstFlag(e, m)))))
    ensures EntriesFlag(e, m) == EntriesFlag(e.tail, FlagOf(LastNode(e), FirstFlag(e, m)))
    ensures FitsShape(LastNode(e), col, true, !e.Inline?) && FitsEntries(e.tail, col)
    ensures FollowsOn(LastOf(ShapePieces(LastNode(e)), LastMark(e)), e.tail)
    ensures LastOf(FirstPieces(e), StartOf(e)) == LastMark(e)
  {
    hide ShapePieces, Pieces, FitsShape, GoodShape, FlagOf, Flag, Good, IsKey, StandsAlone, Fresh;
    if e.ExplicitFor? {
      var rest := ShapePieces(e.value) + EntriesPieces(e.tail);
      assert [e.question] + (ShapePieces(e.name) + ([e.colon] + rest)) == [e.question] + (ShapePieces(e.name) + [e.colon]) + rest;
    }
  }

  lemma EntryTokens(e: Entries, start: seq<Token>, col: nat, m: bool)
    requires !e.NoEntries? && FitsEntries(e, col)
    ensures var n := FirstFlag(e, m);
            start + Written.EntryWords(EntriesOf(e, m))
            == FirstWords(e, start, col, m)
               + (Written.Words(TreeOf(LastNode(e), col, n)) + Written.EntryWords(EntriesOf(e.tail, FlagOf(LastNode(e), n))))
  {
    hide Tree, TreeOf, FlagOf, Flag, FitsShape, Fresh, Written.EntryWords, Written.Words, IsKey, Written.HalfWords;
    EntryFits(e, col);
    NoWords();
    var n := FirstFlag(e, m);
    var tail := EntriesOf(e.tail, FlagOf(LastNode(e), n));
    var node := TreeOf(LastNode(e), col, n);
    match e {
      case Inline(k, _, _, _) =>
        Unfolded(Written.KeyAndValue, Tree(k, m), node, tail);
        Grouped(start, Written.Words(Tree(k, m)), Written.Words(node), Written.EntryWords(tail));
      case Keyless(_, _, _) =>
        Unfolded(Written.ValueOnly, Written.Missing, node, tail);
        Grouped(start, [], Written.Words(node), Written.EntryWords(tail));
      case Explicit(_, _, _) =>
        Unfolded(Written.KeyOnly, node, Written.Missing, tail);
        Grouped(start, [], Written.Words(node), Written.EntryWords(tail));
      case ExplicitFor(_, k, _, _, _) =>
        Unfolded(Written.KeyAndValue, TreeOf(k, col, m), node, tail);
        Grouped(start, Written.Words(TreeOf(k, col, m)), Written.Words(node), Written.EntryWords(tail));
    }
  }

  lemma NoWords()
    ensures Written.Words(Written.Missing) == []
  {
  }

  lemma Grouped(start: seq<Token>, w: seq<Token>, v: seq<Token>, t: seq<Token>)
    ensures start + (Written.HalfWords(Written.KeyAndValue, w, v) + t) == start + ([Key] + w + [Value]) + (v + t)
    ensures start + (Written.HalfWords(Written.KeyAndValue, w, v) + t) == start + [Key] + (w + [Value]) + (v + t)
    ensures start + (Written.HalfWords(Written.ValueOnly, [], v) + t) == start + [Value] + (v + t)
    ensures start + (Written.HalfWords(Written.KeyOnly, v, []) + t) == start + [Key] + (v + t)
  {
    assert start + ([Key] + (w + ([Value] + v)) + t) == start + ([Key] + w + [Value]) + (v + t);
    assert start + ([Key] + (w + ([Value] + v)) + t) == start + [Key] + (w + [Value]) + (v + t);
    assert start + ([Value] + v + t) == start + [Value] + (v + t);
    assert start + ([Key] + v + t) == start + [Key] + (v + t);
  }

  lemma Unfolded(half: Written.Halves, k: Written.Node, v: Written.Node, tail: Written.Entries)
    ensures Written.EntryWords(Written.Entries(half, k, v, tail))
         == Written.HalfWords(half, Written.Words(k), Written.Words(v)) + Written.EntryWords(tail)
  {
  }

  // Up to the indicator in front of the last node.
  lemma {:induction false} FirstGives(e: Entries, q: Queue, at: Place) returns (n: Queue)
    requires !e.NoEntries? && Entering(q, q, at, StartOf(e)) && at.indent <= StartOf(e).mark.col && FitsEntries(e, StartOf(e).mark.col)
    ensures var col := StartOf(e).mark.col;
            Gives(q, at, FirstPieces(e), FirstWords(e, Starts(at, col, BlockMappingStart), col, q.inMapping), GoodFirst(e, q.inMapping), n, Inner(at, col))
    ensures GoodFirst(e, q.inMapping) ==>
              Opening(n, Inner(at, StartOf(e).mark.col), !e.Inline?, LastMark(e)) && n.inMapping == FirstFlag(e, q.inMapping)
    decreases e, 0
  {
    hide Opening, Gives, Sound, TreeOf, Tree, Written.Words, Inner, Starts, FitsShape, FlagOf, Flag, GoodShape, Good, ShapePieces, Pieces,
         Indicated, Taken, Ended, IsKey, Fresh, First, AtBlock;
    var col, m := StartOf(e).mark.col, q.inMapping;
    var to, start := Inner(at, col), Starts(at, col, BlockMappingStart);
    InnerAt(at, col);
    EntryFits(e, col);
    match e {
      case Inline(k, colon, _, _) =>
        KeyStarts(e, col);
        n := KeyGives(k, colon, q, at, col);
      case Keyless(colon, _, _) =>
        n := ColonGets(q, colon, at);
        IndicatorGives(q, at, colon, start + [Value], to, n);
      case Explicit(question, _, _) =>
        n := AskedOut(q, question, at);
        IndicatorGives(q, at, question, start + [Key], to, n);
      case ExplicitFor(question, k, colon, _, _) =>
        n := AskedGives(e, q, at);
    }
  }

  lemma KeyStarts(e: Entries, col: nat)
    requires e.Inline? && FitsEntries(e, col)
    ensures StartOf(e) == First(e.key) && IsKey(e.key, e.colon, col)
  {
  }

  // `? a`, and the `:` under it.
  lemma {:induction false} AskedGives(e: Entries, q: Queue, at: Place) returns (n: Queue)
    requires e.ExplicitFor? && Entering(q, q, at, e.question) && at.indent <= e.question.mark.col && FitsEntries(e, e.question.mark.col)
    ensures var col := e.question.mark.col;
            Gives(q, at, FirstPieces(e), FirstWords(e, Starts(at, col, BlockMappingStart), col, q.inMapping), GoodShape(e.name, q.inMapping), n, Inner(at, col))
    ensures GoodShape(e.name, q.inMapping) ==>
              Opening(n, Inner(at, e.question.mark.col), true, e.colon) && n.inMapping == FlagOf(e.name, q.inMapping)
    decreases e.name, 2
  {
    hide Opening, Gives, Sound, TreeOf, Written.Words, Inner, Starts, FitsShape, FlagOf, GoodShape, ShapePieces, Indicated, Taken, Ended,
         Fresh, AtBlock, Done;
    var col, m, k, colon := e.question.mark.col, q.inMapping, e.name, e.colon;
    var to, start := Inner(at, col), Starts(at, col, BlockMappingStart);
    InnerAt(at, col);
    var q1 := AskedOut(q, e.question, at);
    IndicatorGives(q, at, e.question, start + [Key], to, q1);
    var words := Written.Words(TreeOf(k, col, m));
    var q2 := ShapeGives(k, q1, to, true, true, e.question);
    n := q2;
    if GoodShape(k, m) {
      NextEnters(q1, to, ShapePieces(k), words, q2, LastOf(ShapePieces(k), e.question), colon);
      n := ColonGets(q2, colon, to);
      IndicatorGives(q2, to, colon, Starts(to, col, BlockMappingStart) + [Value], to, n);
      assert [] + [Value] == [Value];
    }
    GivesBoth(q1, to, ShapePieces(k), words, GoodShape(k, m), q2, to, [colon], [Value], true, n, to);
    GivesBoth(q, at, [e.question], start + [Key], true, q1, to, ShapePieces(k) + [colon], words + [Value], GoodShape(k, m), n, to);
  }

  lemma {:induction false} EntriesGive(e: Entries, q: Queue, at: Place) returns (n: Queue)
    requires !e.NoEntries? && Entering(q, q, at, StartOf(e)) && at.indent <= StartOf(e).mark.col && FitsEntries(e, StartOf(e).mark.col)
    ensures var col := StartOf(e).mark.col;
            Gives(q, at, EntriesPieces(e), Starts(at, col, BlockMappingStart) + Written.EntryWords(EntriesOf(e, q.inMapping)),
                  GoodEntries(e, q.inMapping), n, Inner(at, col))
    ensures GoodEntries(e, q.inMapping) ==> n.inMapping == EntriesFlag(e, q.inMapping) && Done(n, LastOf(EntriesPieces(e), StartOf(e)))
    decreases e, 2
  {
    hide Opening, Gives, TreeOf, Written.Words, Written.EntryWords, Inner, Starts, FitsShape, FlagOf, GoodShape, ShapePieces, EntriesPieces,
         FirstPieces, FirstWords, GoodFirst, FirstFlag, EntriesOf, GoodEntries, EntriesFlag, FitsEntries, Entering, Done, FollowsOn, LastMark, StartOf;
    var col, m := StartOf(e).mark.col, q.inMapping;
    var to, start := Inner(at, col), Starts(at, col, BlockMappingStart);
    InnerAt(at, col);
    EntryParts(e, col, m);
    EntryTokens(e, start, col, m);
    var f, v := FirstFlag(e, m), LastNode(e);
    var more := Written.Words(TreeOf(v, col, f)) + Written.EntryWords(EntriesOf(e.tail, FlagOf(v, f)));
    var good := GoodShape(v, f) && GoodEntries(e.tail, FlagOf(v, f));
    var q1 := FirstGives(e, q, at);
    n := q1;
    if GoodFirst(e, m) {
      n := EntryRest(e, q1, to);
    }
    GivesBoth(q, at, FirstPieces(e), FirstWords(e, start, col, m), GoodFirst(e, m), q1, to, ShapePieces(v) + EntriesPieces(e.tail), more, good, n, to);
    LastJoin(FirstPieces(e), ShapePieces(v) + EntriesPieces(e.tail), StartOf(e));
  }

  // The last node of an entry, and the entries that follow.
  lemma {:induction false} EntryRest(e: Entries, q: Queue, at: Place) returns (n: Queue)
    requires !e.NoEntries? && at.indent >= 0 && Inner(at, at.indent) == at && Opening(q, at, !e.Inline?, LastMark(e))
    requires FitsShape(LastNode(e), at.indent, true, !e.Inline?) && FitsEntries(e.tail, at.indent)
    requires FollowsOn(LastOf(ShapePieces(LastNode(e)), LastMark(e)), e.tail)
    ensures var v, m := LastNode(e), q.inMapping;
            && Gives(q, at, ShapePieces(v) + EntriesPieces(e.tail),
                     Written.Words(TreeOf(v, at.indent, m)) + Written.EntryWords(EntriesOf(e.tail, FlagOf(v, m))),
                     GoodShape(v, m) && GoodEntries(e.tail, FlagOf(v, m)), n, at)
            && (GoodShape(v, m) && GoodEntries(e.tail, FlagOf(v, m)) ==>
                  n.inMapping == EntriesFlag(e.tail, FlagOf(v, m)) && Done(n, LastOf(ShapePieces(v) + EntriesPieces(e.tail), LastMark(e))))
    decreases e, 1
  {
    hide Opening, Gives, TreeOf, Written.Words, Inner, Starts, FitsShape, FlagOf, GoodShape, ShapePieces, Entering, Done, Fresh, LastMark,
         StartOf, FitsEntries;
    var v, tail, m := LastNode(e), e.tail, q.inMapping;
    var f := FlagOf(v, m);
    var words, more := Written.Words(TreeOf(v, at.indent, m)), Written.EntryWords(EntriesOf(tail, f));
    var n1 := ShapeGives(v, q, at, true, !e.Inline?, LastMark(e));
    n := n1;
    if GoodShape(v, m) {
      if tail.NoEntries? {
        GivesPending(q, at, ShapePieces(v), words, n1);
        GivesNone(n1, at);
      } else {
        EntryFits(tail, at.indent);
        NextEnters(q, at, ShapePieces(v), words, n1, LastOf(ShapePieces(v), LastMark(e)), StartOf(tail));
        n := EntriesGive(tail, n1, at);
        NoStart(at, more);
        EntriesThere(tail, at.indent);
      }
      LastJoin(ShapePieces(v), EntriesPieces(tail), LastMark(e));
    }
    GivesBoth(q, at, ShapePieces(v), words, GoodShape(v, m), n1, at, EntriesPieces(tail), more, GoodEntries(tail, f), n, at);
  }
}
