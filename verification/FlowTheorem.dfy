// Over every flow collection as it is written: the scanner's tokens are those of its tree exactly when
// no `,` between braces stands in a pair without braces (crates/yamluna-scanner/src/scanner.rs).
module FlowTheorem {
  import opened Results
  import opened ScalarEmitter
  import opened Events
  import opened TokenBalance
  import opened TokenSteps
  import opened FlowText
  import opened FlowTokens
  import opened FlowReads
  import Written

  // ------------------------------------------------------------------ words

  function Opening(opens: bool): seq<Token> {
    if opens then [FlowMappingStart] else []
  }

  function Ending(opens: bool): seq<Token> {
    if opens then [FlowMappingEnd] else []
  }

  // The tokens of an entry, but for the end of a mapping it begins.
  function EntryWords(e: Entry, m: bool): seq<Token> {
    match e
    case Lone(n) => Written.Words(Tree(n, m))
    case Simple(k, _, v) => Opening(Opens(e, m)) + ([Key] + Written.Words(Tree(k, m))) + [Value] + Written.Words(Tree(v, Flag(k, m)))
    case Bare(_, v) => Opening(Opens(e, m)) + [Value] + Written.Words(Tree(v, m))
    case Asked(_, k) => [Key] + Written.Words(Tree(k, true))
    case AskedFor(_, k, _, v) => [Key] + Written.Words(Tree(k, true)) + [Value] + Written.Words(Tree(v, true))
  }

  lemma MapWords(half: Written.Halves, k: Written.Node, v: Written.Node)
    ensures Written.Words(Written.FlowMap(NoProps, Written.Member(half, k, v, Written.NoMembers)))
         == [FlowMappingStart] + (Written.HalfWords(half, Written.Words(k), Written.Words(v)) + [FlowMappingEnd])
  {
    var w := Written.HalfWords(half, Written.Words(k), Written.Words(v));
    assert Written.PropWords(NoProps) == [];
    assert Written.FirstMemberWords(Written.Member(half, k, v, Written.NoMembers)) == w + [];
    assert [] + ([FlowMappingStart] + (w + [FlowMappingEnd])) == [FlowMappingStart] + (w + [FlowMappingEnd]);
  }

  lemma PairWords(opens: bool, half: Written.Halves, k: Written.Node, v: Written.Node, tail: Written.Cells)
    ensures Written.FirstCellWords(PairOf(opens, half, k, v, tail))
         == Opening(opens) + Written.HalfWords(half, Written.Words(k), Written.Words(v)) + Ending(opens) + Written.CellWords(tail)
  {
    hide Written.Words, Written.HalfWords;
    var w := Written.HalfWords(half, Written.Words(k), Written.Words(v));
    if opens {
      MapWords(half, k, v);
      assert [FlowMappingStart] + (w + [FlowMappingEnd]) == [FlowMappingStart] + w + [FlowMappingEnd];
    } else {
      assert [] + w + [] == w;
    }
  }

  lemma HalvesAre(k: seq<Token>, v: seq<Token>)
    ensures Written.HalfWords(Written.KeyAndValue, k, v) == [Key] + k + [Value] + v
    ensures Written.HalfWords(Written.ValueOnly, [], v) == [Value] + v
    ensures Written.HalfWords(Written.KeyOnly, k, []) == [Key] + k
  {
  }

  lemma Regroup(o: seq<Token>, k: seq<Token>, v: seq<Token>)
    ensures o + ([Key] + k + [Value] + v) == o + ([Key] + k) + [Value] + v
    ensures o + ([Value] + v) == o + [Value] + v
    ensures [] + ([Key] + k + [Value] + v) == [Key] + k + [Value] + v
    ensures [] + ([Key] + k) == [Key] + k
  {
  }

  lemma NoWords()
    ensures Written.Words(Written.Missing) == []
  {
  }

  // An entry between brackets is a cell.
  lemma CellWordsAre(e: Entry, m: bool, tail: Written.Cells)
    ensures Written.FirstCellWords(Cell(e, m, tail)) == EntryWords(e, m) + Ending(Opens(e, m)) + Written.CellWords(tail)
  {
    hide Written.Words, Tree, Written.HalfWords, PairOf, Written.CellWords;
    NoWords();
    match e {
      case Lone(n) =>
        assert Written.Words(Tree(n, m)) + [] == Written.Words(Tree(n, m));
      case Simple(k, _, v) =>
        PairWords(Opens(e, m), Written.KeyAndValue, Tree(k, m), Tree(v, Flag(k, m)), tail);
        HalvesAre(Written.Words(Tree(k, m)), Written.Words(Tree(v, Flag(k, m))));
        Regroup(Opening(Opens(e, m)), Written.Words(Tree(k, m)), Written.Words(Tree(v, Flag(k, m))));
      case Bare(_, v) =>
        PairWords(Opens(e, m), Written.ValueOnly, Written.Missing, Tree(v, m), tail);
        HalvesAre([], Written.Words(Tree(v, m)));
        Regroup(Opening(Opens(e, m)), [], Written.Words(Tree(v, m)));
      case Asked(_, k) =>
        Unbraced(Written.KeyOnly, Tree(k, true), Written.Missing, tail, tail);
        PairWords(false, Written.KeyOnly, Tree(k, true), Written.Missing, tail);
        HalvesAre(Written.Words(Tree(k, true)), []);
        Regroup([], Written.Words(Tree(k, true)), []);
      case AskedFor(_, k, _, v) =>
        Unbraced(Written.KeyAndValue, Tree(k, true), Tree(v, true), tail, tail);
        PairWords(false, Written.KeyAndValue, Tree(k, true), Tree(v, true), tail);
        HalvesAre(Written.Words(Tree(k, true)), Written.Words(Tree(v, true)));
        Regroup([], Written.Words(Tree(k, true)), Written.Words(Tree(v, true)));
    }
  }

  // Between braces it is a member, and begins no mapping.
  lemma MemberWordsAre(e: Entry, tail: Written.Members)
    ensures Written.FirstMemberWords(Member(e, tail)) == EntryWords(e, true) + Written.MemberWords(tail)
  {
    hide Written.Words, Tree, Written.HalfWords, Written.MemberWords;
    NoWords();
    EntryFlagStays(e);
    match e {
      case Lone(n) =>
      case Simple(k, _, v) =>
        FlagStays(k);
        HalvesAre(Written.Words(Tree(k, true)), Written.Words(Tree(v, true)));
        Regroup([], Written.Words(Tree(k, true)), Written.Words(Tree(v, true)));
      case Bare(_, v) =>
        HalvesAre([], Written.Words(Tree(v, true)));
        Regroup([], [], Written.Words(Tree(v, true)));
      case Asked(_, k) => HalvesAre(Written.Words(Tree(k, true)), []);
      case AskedFor(_, k, _, v) => HalvesAre(Written.Words(Tree(k, true)), Written.Words(Tree(v, true)));
    }
  }

  // What follows a `,`.
  lemma CellTail(tail: Row, m: bool)
    ensures var t := if tail.NoRow? then Written.Comma else Cells(tail, m);
            Written.CellWords(t) == [FlowEntry] + Written.FirstCellWords(Cells(tail, m))
  {
    hide Written.Words, Tree, Written.HalfWords;
  }

  lemma MemberTail(tail: Row)
    ensures var t := if tail.NoRow? then Written.LastComma else Members(tail);
            Written.MemberWords(t) == [FlowEntry] + Written.FirstMemberWords(Members(tail))
  {
    hide Written.Words, Tree, Written.HalfWords;
  }

  lemma Assoc(a: seq<Token>, b: seq<Token>, c: seq<Token>)
    ensures a + (b + c) == a + b + c
  {
  }

  // ------------------------------------------------------------------ pieces one by one

  lemma OneGets(q: Queue, p: Piece, words: seq<Token>, n: Queue)
    requires Taken(q, p) == Ok(n) && n.tokens == q.tokens + words
    ensures Gets(q, [p], words, true, n)
  {
    hide Taken;
    TakenOne(q, p);
  }

  // Good pieces behind good ones.
  lemma GoodBoth(q: Queue, a: seq<Piece>, words: seq<Token>, m: Queue, b: seq<Piece>, more: seq<Token>, good: bool, n: Queue)
    requires Gets(q, a, words, true, m) && Gets(m, b, more, good, n)
    ensures Gets(q, a + b, words + more, good, n)
  {
    hide Gets;
    GetsBoth(q, a, words, true, m, b, more, good, n);
  }

  // ------------------------------------------------------------------ nodes

  // Behind a node.
  predicate After(q: Queue, f: Form, n: Queue) {
    && Steady(q, n) && q.keys != [] && n.implicit == q.implicit && n.inMapping == Flag(f, q.inMapping)
    && LastKey(n) == if f.Missing? then LastKey(q) else Keyed(q, First(f).mark)
  }

  lemma {:induction false} NodeGets(f: Form, q: Queue, indent: int) returns (n: Queue)
    requires Ready(q, indent) && Fits(f, indent) && q.flow + Depth(f) <= 255
    ensures Gets(q, Pieces(f), Written.Words(Tree(f, q.inMapping)), Good(f, q.inMapping, InsideImplicit(q)), n)
    ensures Good(f, q.inMapping, InsideImplicit(q)) ==> After(q, f, n)
    decreases f, 0
  {
    hide Gets, Ready, Steady, Written.Words, Tree;
    match f {
      case Missing =>
        n := q;
        NoneGets(q, indent);
      case Leaf(props, content) =>
        n := LeafGets(f, q, indent);
      case Seq(props, open, row, close) =>
        var m := PropsGive(props, q, indent);
        Still(q, m);
        var inner := OpenGets(open, true, m, indent);
        OneGets(m, open, [FlowSequenceStart], inner);
        OpenedEntry(m, open.mark, true, inner, indent);
        n := CellsGet(row, close, inner, indent);
        SeqWords(f, q, m, inner, n, indent);
      case Map(props, open, row, close) =>
        var m := PropsGive(props, q, indent);
        Still(q, m);
        var inner := OpenGets(open, false, m, indent);
        OneGets(m, open, [FlowMappingStart], inner);
        OpenedEntry(m, open.mark, false, inner, indent);
        n := MembersGet(row, close, inner, indent);
        MapWordsAre(f, q, m, inner, n, indent);
    }
  }

  lemma NoneGets(q: Queue, indent: int)
    requires Ready(q, indent)
    ensures Gets(q, Pieces(Form.Missing), Written.Words(Tree(Form.Missing, q.inMapping)), true, q) && After(q, Form.Missing, q)
  {
    assert q.tokens + [] == q.tokens;
  }

  // The properties, as words of the tree.
  lemma PropsGive(props: seq<Piece>, q: Queue, indent: int) returns (n: Queue)
    requires Ready(q, indent) && FitsProps(props, indent)
    ensures Gets(q, props, Written.PropWords(PropsOf(props)), true, n) && Ready(n, indent) && Steady(q, n) && q.keys != []
    ensures n.allowed == (props == [] && q.allowed) && LastKey(n) == if props == [] then LastKey(q) else Keyed(q, props[0].mark)
    ensures n.implicit == q.implicit && n.inMapping == q.inMapping && (props == [] ==> n.tokens == q.tokens)
  {
    hide PropsOf;
    n := PropsGet(props, q, indent);
    PropsShown(props, indent);
    TokensAre(props, indent, Written.PropWords(PropsOf(props)));
  }

  lemma LeafGets(f: Form, q: Queue, indent: int) returns (n: Queue)
    requires Ready(q, indent) && Fits(f, indent) && f.Leaf?
    ensures Gets(q, Pieces(f), Written.Words(Tree(f, q.inMapping)), true, n) && After(q, f, n)
  {
    hide Gets, Ready, Steady, PropsOf, Taken;
    var m := PropsGive(f.props, q, indent);
    var props := Written.PropWords(PropsOf(f.props));
    if f.content.None? {
      n := m;
      assert props + [] == props && f.props + [] == f.props;
    } else {
      var p := f.content.value;
      n := ContentGets(p, f.props, m, indent);
      OneGets(m, p, [p.lexeme.token], n);
      GoodBoth(q, f.props, props, m, [p], [p.lexeme.token], true, n);
      SteadyTwice(q, m, n);
      Still(q, m);
      LeafWords(f, indent);
      KeyedOnce(q, m, f.props, p.mark);
    }
  }

  lemma LeafWords(f: Form, indent: int)
    requires Fits(f, indent) && f.Leaf? && f.content.Some?
    ensures forall m :: Written.Words(Tree(f, m)) == Written.PropWords(PropsOf(f.props)) + [f.content.value.lexeme.token]
  {
    if f.props == [] {
      assert Written.PropWords(PropsOf([])) == [];
      assert [] + [f.content.value.lexeme.token] == [f.content.value.lexeme.token];
    }
  }

  // What comes behind properties is no key of its own.
  lemma KeyedOnce(q: Queue, m: Queue, props: seq<Piece>, mark: Mark)
    requires q.keys != [] && m.keys != [] && m.allowed == (props == [] && q.allowed) && (props == [] ==> m.tokens == q.tokens)
    requires LastKey(m) == if props == [] then LastKey(q) else Keyed(q, props[0].mark)
    ensures Keyed(m, mark) == if props == [] then Keyed(q, mark) else Keyed(q, props[0].mark)
  {
  }

  lemma OpenedEntry(q: Queue, mark: Mark, isSeq: bool, n: Queue, indent: int)
    requires Opened(q, mark, isSeq, n) && Ready(n, indent)
    ensures AtEntry(n, indent) && (isSeq ==> n.implicit != [] && !InsideImplicit(n))
    ensures !isSeq ==> n.inMapping && InsideImplicit(n) == InsideImplicit(q)
    ensures n.flow == q.flow + 1
  {
  }

  // Behind the end of a row: the state is as it was in front of the collection, but for the flag.
  predicate RowClosed(q: Queue, isSeq: bool, n: Queue) {
    && q.keys != [] && n.keys == q.keys[..|q.keys| - 1] && n.flow == q.flow - 1 && n.indent <= q.indent && Levels(n.levels, n.indent)
    && SameBlocks(q, n)
    && n.implicit == if isSeq && q.implicit != [] then q.implicit[..|q.implicit| - 1] else q.implicit
  }

  lemma ClosedAfter(q: Queue, m: Queue, inner: Queue, n: Queue, f: Form, open: Piece, isSeq: bool, indent: int)
    requires (f.Seq? || f.Map?) && open == f.open && Steady(q, m) && Ready(m, indent) && q.keys != [] && m.implicit == q.implicit
    requires m.allowed == (f.props == [] && q.allowed) && (f.props == [] ==> m.tokens == q.tokens)
    requires LastKey(m) == if f.props == [] then LastKey(q) else Keyed(q, f.props[0].mark)
    requires Opened(m, open.mark, isSeq, inner) && RowClosed(inner, isSeq, n) && n.inMapping == Flag(f, q.inMapping)
    requires m.flow > 0
    ensures After(q, f, n)
  {
    hide Levels;
    KeyedOnce(q, m, f.props, open.mark);
    assert n.keys == m.keys[..|m.keys| - 1] + [Keyed(m, open.mark)];
    assert n.keys[..|n.keys| - 1] == m.keys[..|m.keys| - 1];
    if isSeq {
      assert n.implicit == m.implicit;
    }
  }

  lemma SeqWords(f: Form, q: Queue, m: Queue, inner: Queue, n: Queue, indent: int)
    requires f.Seq? && Ready(q, indent) && Steady(q, m) && Ready(m, indent) && m.implicit == q.implicit && m.inMapping == q.inMapping
    requires q.keys != [] && m.allowed == (f.props == [] && q.allowed) && (f.props == [] ==> m.tokens == q.tokens)
    requires LastKey(m) == if f.props == [] then LastKey(q) else Keyed(q, f.props[0].mark)
    requires Opened(m, f.open.mark, true, inner)
    requires Gets(q, f.props, Written.PropWords(PropsOf(f.props)), true, m) && Gets(m, [f.open], [FlowSequenceStart], true, inner)
    requires Gets(inner, RowPieces(f.row) + [f.close], Written.FirstCellWords(Cells(f.row, inner.inMapping)) + [FlowSequenceEnd],
                  GoodCells(f.row, inner.inMapping), n)
    requires GoodCells(f.row, inner.inMapping) ==> RowClosed(inner, true, n) && n.inMapping == RowFlag(f.row, inner.inMapping)
    ensures Gets(q, Pieces(f), Written.Words(Tree(f, q.inMapping)), Good(f, q.inMapping, InsideImplicit(q)), n)
    ensures Good(f, q.inMapping, InsideImplicit(q)) ==> After(q, f, n)
  {
    hide Gets, PropsOf, Cells, Steady, GoodCells, RowClosed, RowFlag, RowPieces, Written.FirstCellWords, Written.PropWords;
    var words := Written.FirstCellWords(Cells(f.row, q.inMapping)) + [FlowSequenceEnd];
    var good := GoodCells(f.row, q.inMapping);
    GoodBoth(m, [f.open], [FlowSequenceStart], inner, RowPieces(f.row) + [f.close], words, good, n);
    GoodBoth(q, f.props, Written.PropWords(PropsOf(f.props)), m, [f.open] + (RowPieces(f.row) + [f.close]), [FlowSequenceStart] + words, good, n);
    if good {
      ClosedAfter(q, m, inner, n, f, f.open, true, indent);
    }
  }

  lemma MapWordsAre(f: Form, q: Queue, m: Queue, inner: Queue, n: Queue, indent: int)
    requires f.Map? && Ready(q, indent) && Steady(q, m) && Ready(m, indent) && m.implicit == q.implicit && m.inMapping == q.inMapping
    requires q.keys != [] && m.allowed == (f.props == [] && q.allowed) && (f.props == [] ==> m.tokens == q.tokens)
    requires LastKey(m) == if f.props == [] then LastKey(q) else Keyed(q, f.props[0].mark)
    requires Opened(m, f.open.mark, false, inner)
    requires Gets(q, f.props, Written.PropWords(PropsOf(f.props)), true, m) && Gets(m, [f.open], [FlowMappingStart], true, inner)
    requires Gets(inner, RowPieces(f.row) + [f.close], Written.FirstMemberWords(Members(f.row)) + [FlowMappingEnd],
                  GoodMembers(f.row, InsideImplicit(q)), n)
    requires GoodMembers(f.row, InsideImplicit(q)) ==> RowClosed(inner, false, n) && n.inMapping
    ensures Gets(q, Pieces(f), Written.Words(Tree(f, q.inMapping)), Good(f, q.inMapping, InsideImplicit(q)), n)
    ensures Good(f, q.inMapping, InsideImplicit(q)) ==> After(q, f, n)
  {
    hide Gets, PropsOf, Members, Steady, GoodMembers, RowClosed, RowPieces, Written.FirstMemberWords, Written.PropWords;
    var words := Written.FirstMemberWords(Members(f.row)) + [FlowMappingEnd];
    var good := GoodMembers(f.row, InsideImplicit(q));
    GoodBoth(m, [f.open], [FlowMappingStart], inner, RowPieces(f.row) + [f.close], words, good, n);
    GoodBoth(q, f.props, Written.PropWords(PropsOf(f.props)), m, [f.open] + (RowPieces(f.row) + [f.close]), [FlowMappingStart] + words, good, n);
    if good {
      ClosedAfter(q, m, inner, n, f, f.open, false, indent);
    }
  }

  // ------------------------------------------------------------------ entries

  // Behind an entry, a mapping it has begun still open.
  predicate AfterEntry(q: Queue, e: Entry, n: Queue) {
    && Steady(q, n) && n.inMapping == EntryFlag(e, q.inMapping)
    && (Opens(e, q.inMapping) ==> q.implicit != [])
    && n.implicit == if Opens(e, q.inMapping) && q.implicit != [] then q.implicit[|q.implicit| - 1 := true] else q.implicit
  }

  lemma {:induction false} EntryGets(e: Entry, q: Queue, indent: int, brackets: bool) returns (n: Queue)
    requires AtEntry(q, indent) && FitsEntry(e, indent, brackets) && q.flow + EntryDepth(e) <= 255
    requires if brackets then q.implicit != [] else q.inMapping
    ensures var good := GoodEntry(e, q.inMapping, InsideImplicit(q));
            Gets(q, EntryPieces(e), EntryWords(e, q.inMapping), good, n) && (good ==> AfterEntry(q, e, n))
    decreases e, 2
  {
    hide Gets, Ready, Steady, Written.Words, Tree;
    match e {
      case Lone(f) =>
        n := NodeGets(f, q, indent);
      case Simple(k, colon, v) => n := SimpleGets(e, q, indent, brackets);
      case Bare(colon, v) => n := BareGets(e, q, indent);
      case Asked(question, k) =>
        n := AskedGets(question, k, q, indent);
        FlagKept(k, true);
      case AskedFor(question, k, colon, v) => n := AskedForGets(e, q, indent);
    }
  }

  // The flag is set or the brackets are there.
  lemma OpensHere(q: Queue, indent: int)
    requires Ready(q, indent)
    ensures Implicit(q) <==> !q.inMapping
    ensures !q.inMapping ==> q.implicit != []
  {
  }

  lemma ReadyAfter(q: Queue, n: Queue, indent: int)
    requires Ready(q, indent) && Steady(q, n) && (n.inMapping || n.implicit != [])
    ensures Ready(n, indent) && n.flow == q.flow && n.keys != [] && q.keys != []
  {
  }

  lemma Still(q: Queue, n: Queue)
    requires Steady(q, n)
    ensures n.flow == q.flow && n.keys != [] && |n.keys| == |q.keys|
  {
  }

  lemma Longer(q: Queue, ps: seq<Piece>, words: seq<Token>, n: Queue)
    requires Gets(q, ps, words, true, n)
    ensures |q.tokens| <= |n.tokens|
  {
  }

  lemma FlagKept(f: Form, m: bool)
    ensures m ==> Flag(f, m)
  {
    FlagStays(f);
  }

  lemma PiecesAssoc(a: seq<Piece>, b: seq<Piece>, c: seq<Piece>)
    ensures a + b + c == a + (b + c)
  {
  }

  lemma {:induction false} SimpleGets(e: Entry, q: Queue, indent: int, brackets: bool) returns (n: Queue)
    requires e.Simple? && AtEntry(q, indent) && FitsEntry(e, indent, brackets) && q.flow + EntryDepth(e) <= 255
    requires if brackets then q.implicit != [] else q.inMapping
    ensures var good := GoodEntry(e, q.inMapping, InsideImplicit(q));
            Gets(q, EntryPieces(e), EntryWords(e, q.inMapping), good, n) && (good ==> AfterEntry(q, e, n))
    decreases e, 1
  {
    hide Gets, Ready, Steady, Written.Words, Tree, KeyPrefix, Pieces, Kept, Fits, Depth, Good;
    var k, v, m := e.key, e.value, q.inMapping;
    var words := Written.Words(Tree(k, m));
    FlagKept(k, m);
    var q1 := NodeGets(k, q, indent);
    var keyWords := Opening(Opens(e, m)) + ([Key] + words) + [Value];
    var more := Written.Words(Tree(v, Flag(k, m)));
    if Good(k, m, InsideImplicit(q)) {
      ReadyAfter(q, q1, indent);
      OpensHere(q1, indent);
      Longer(q, Pieces(k), words, q1);
      var q2 := ColonBehind(e.colon, q1, indent, |q.tokens|, First(k).mark);
      KeyThenColon(q, Pieces(k), words, q1, e.colon, q2, Opens(e, m));
      ReadyAfter(q1, q2, indent);
      n := NodeGets(v, q2, indent);
      GetsBoth(q, Pieces(k) + [e.colon], keyWords, true, q2, Pieces(v), more, Good(v, Flag(k, m), InsideImplicit(q2)), n);
      PiecesAssoc(Pieces(k), [e.colon], Pieces(v));
      if Good(v, Flag(k, m), InsideImplicit(q2)) {
        SteadyTwice(q, q1, q2);
        SteadyTwice(q, q2, n);
      }
    } else {
      n := q;
      KeptKey(words, keyWords + more, Opening(Opens(e, m)), more);
      GoneWrong(q, Pieces(k), words, q1, [e.colon] + Pieces(v), keyWords + more, n);
    }
  }

  // The words of a key are kept in order in those of its entry.
  lemma KeptKey(words: seq<Token>, all: seq<Token>, opening: seq<Token>, more: seq<Token>)
    requires all == opening + ([Key] + words) + [Value] + more && (opening == [] || opening == [FlowMappingStart])
    ensures Kept(words) <= Kept(all)
  {
    KeptJoin(opening + ([Key] + words) + [Value], more);
    KeptJoin(opening + ([Key] + words), [Value]);
    KeptJoin(opening, [Key] + words);
    KeptJoin([Key], words);
    KeptOne(Key);
    if opening != [] {
      KeptOne(FlowMappingStart);
    }
    hide Kept;
    assert Kept(opening) == [] by { KeptNone(); }
    assert [] + ([] + Kept(words)) == Kept(words);
    assert Kept(all) == Kept(words) + (Kept([Value]) + Kept(more));
  }

  lemma KeptNone()
    ensures Kept([]) == []
  {
  }

  // A key, and the `:` that makes it one.
  lemma KeyThenColon(q: Queue, ps: seq<Piece>, words: seq<Token>, q1: Queue, colon: Piece, q2: Queue, opens: bool)
    requires Gets(q, ps, words, true, q1) && Taken(q1, colon) == Ok(q2)
    requires q2.tokens == q1.tokens[..|q.tokens|] + KeyPrefix(false, opens) + q1.tokens[|q.tokens|..] + [Value]
    ensures Gets(q, ps + [colon], Opening(opens) + ([Key] + words) + [Value], true, q2)
  {
    hide Taken;
    TakenJoin(q, ps, [colon]);
    TakenOne(q1, colon);
    assert q1.tokens[..|q.tokens|] == q.tokens && q1.tokens[|q.tokens|..] == words;
    assert KeyPrefix(false, opens) == Opening(opens) + [Key];
    assert q.tokens + (Opening(opens) + [Key]) + words + [Value] == q.tokens + (Opening(opens) + ([Key] + words) + [Value]);
  }

  lemma {:induction false} BareGets(e: Entry, q: Queue, indent: int) returns (n: Queue)
    requires e.Bare? && AtEntry(q, indent) && FitsEntry(e, indent, true) && q.flow + EntryDepth(e) <= 255
    ensures var good := GoodEntry(e, q.inMapping, InsideImplicit(q));
            Gets(q, EntryPieces(e), EntryWords(e, q.inMapping), good, n) && (good ==> AfterEntry(q, e, n))
    decreases e, 1
  {
    hide Gets, Ready, Steady, Written.Words, Tree;
    OpensHere(q, indent);
    var q1 := ColonAlone(e.colon, q, indent);
    ReadyAfter(q, q1, indent);
    assert q.tokens + Opening(Opens(e, q.inMapping)) + [Value] == q.tokens + (Opening(Opens(e, q.inMapping)) + [Value]);
    OneGets(q, e.colon, Opening(Opens(e, q.inMapping)) + [Value], q1);
    n := NodeGets(e.value, q1, indent);
    var good := Good(e.value, q1.inMapping, InsideImplicit(q1));
    GoodBoth(q, [e.colon], Opening(Opens(e, q.inMapping)) + [Value], q1, Pieces(e.value), Written.Words(Tree(e.value, q1.inMapping)), good, n);
    if good {
      SteadyTwice(q, q1, n);
    }
  }

  lemma {:induction false} AskedGets(question: Piece, k: Form, q: Queue, indent: int) returns (n: Queue)
    requires AtEntry(q, indent) && IsQuestion(question, indent) && Fits(k, indent) && q.flow + Depth(k) <= 255
    ensures var good := Good(k, true, InsideImplicit(q));
            && Gets(q, [question] + Pieces(k), [Key] + Written.Words(Tree(k, true)), good, n)
            && (good ==> Steady(q, n) && n.inMapping && n.implicit == q.implicit && n.keys != [] && !LastKey(n).possible)
    decreases k, 1
  {
    hide Gets, Ready, Steady, Written.Words, Tree;
    var q1 := QuestionGets(question, q, indent);
    ReadyAfter(q, q1, indent);
    OneGets(q, question, [Key], q1);
    FlagKept(k, true);
    n := NodeGets(k, q1, indent);
    var good := Good(k, true, InsideImplicit(q1));
    GoodBoth(q, [question], [Key], q1, Pieces(k), Written.Words(Tree(k, true)), good, n);
    if good {
      SteadyTwice(q, q1, n);
      KeysThere(q, n);
      NoKeyMade(q1, k);
    }
  }

  lemma KeysThere(q: Queue, n: Queue)
    requires Steady(q, n)
    ensures n.keys != []
  {
  }

  lemma NoKeyMade(q: Queue, f: Form)
    requires q.keys != [] && !q.allowed
    ensures f.Missing? || Keyed(q, First(f).mark) == LastKey(q)
  {
  }

  lemma {:induction false} AskedForGets(e: Entry, q: Queue, indent: int) returns (n: Queue)
    requires e.AskedFor? && AtEntry(q, indent) && FitsEntry(e, indent, true) && q.flow + EntryDepth(e) <= 255
    ensures var good := GoodEntry(e, q.inMapping, InsideImplicit(q));
            Gets(q, EntryPieces(e), EntryWords(e, q.inMapping), good, n) && (good ==> AfterEntry(q, e, n))
    decreases e, 1
  {
    hide Gets, Ready, Steady, Written.Words, Tree, Pieces, Kept, Fits, Depth, Good;
    var k, v := e.key, e.value;
    var keyPieces, keyWords := [e.question] + Pieces(k), [Key] + Written.Words(Tree(k, true));
    var more := Written.Words(Tree(v, true));
    FlagKept(k, true);
    FlagKept(v, true);
    var q1 := AskedGets(e.question, k, q, indent);
    PiecesAssoc([e.question], Pieces(k), [e.colon] + Pieces(v));
    Assoc(keyWords, [Value], more);
    if Good(k, true, InsideImplicit(q)) {
      ReadyAfter(q, q1, indent);
      OpensHere(q1, indent);
      var q2 := ColonAlone(e.colon, q1, indent);
      ReadyAfter(q1, q2, indent);
      assert q1.tokens + [] + [Value] == q1.tokens + [Value];
      OneGets(q1, e.colon, [Value], q2);
      n := NodeGets(v, q2, indent);
      var good := Good(v, true, InsideImplicit(q2));
      GoodBoth(q1, [e.colon], [Value], q2, Pieces(v), more, good, n);
      GetsBoth(q, keyPieces, keyWords, true, q1, [e.colon] + Pieces(v), [Value] + more, good, n);
      if good {
        SteadyTwice(q, q1, q2);
        SteadyTwice(q, q2, n);
      }
    } else {
      n := q;
      KeptJoin(keyWords, [Value] + more);
      GoneWrong(q, keyPieces, keyWords, q1, [e.colon] + Pieces(v), keyWords + ([Value] + more), n);
    }
  }

  // ------------------------------------------------------------------ rows

  // What a row keeps of the state it begins in.
  lemma ClosesRow(q: Queue, m: Queue, isSeq: bool, n: Queue)
    requires Steady(q, m) && Closed(m, isSeq, n) && q.keys != []
    requires if isSeq then q.implicit != [] && |m.implicit| == |q.implicit| && m.implicit[..|m.implicit| - 1] == q.implicit[..|q.implicit| - 1]
             else m.implicit == q.implicit
    ensures RowClosed(q, isSeq, n)
  {
    hide Levels;
  }

  lemma ClosesLater(q: Queue, m: Queue, isSeq: bool, n: Queue)
    requires Steady(q, m) && RowClosed(m, isSeq, n) && q.keys != []
    requires if isSeq then q.implicit != [] && |m.implicit| == |q.implicit| && m.implicit[..|m.implicit| - 1] == q.implicit[..|q.implicit| - 1]
             else m.implicit == q.implicit
    ensures RowClosed(q, isSeq, n)
  {
    hide Levels;
  }

  // Between brackets: the last of `implicit` says whether an entry has begun a mapping.
  lemma EntryInBrackets(q: Queue, e: Entry, n: Queue, indent: int)
    requires AtEntry(q, indent) && q.implicit != [] && !InsideImplicit(q) && AfterEntry(q, e, n)
    ensures Ready(n, indent) && n.implicit != [] && InsideImplicit(n) == Opens(e, q.inMapping)
    ensures |n.implicit| == |q.implicit| && n.implicit[..|n.implicit| - 1] == q.implicit[..|q.implicit| - 1]
    ensures (n.inMapping && !InsideImplicit(n)) == ClosedFlag(e, q.inMapping)
  {
    hide Levels;
  }

  lemma CloseWords(q: Queue, words: seq<Token>, n: Queue, ending: seq<Token>, close: Token, m: Queue)
    requires m.tokens == n.tokens + ending + [close]
    ensures m.tokens == n.tokens + (ending + [close])
  {
  }

  lemma {:induction false} CellsGet(r: Row, close: Piece, q: Queue, indent: int) returns (n: Queue)
    requires AtEntry(q, indent) && q.implicit != [] && !InsideImplicit(q) && FitsRow(r, indent, true)
    requires close.lexeme == FlowEnd(true) && Clear(close, indent) && q.flow + RowDepth(r) <= 255
    ensures var good := GoodCells(r, q.inMapping);
            && Gets(q, RowPieces(r) + [close], Written.FirstCellWords(Cells(r, q.inMapping)) + [FlowSequenceEnd], good, n)
            && (good ==> RowClosed(q, true, n) && n.inMapping == RowFlag(r, q.inMapping))
    decreases r, 3
  {
    hide Gets, Ready, Steady, Taken, Written.Words, Tree, Cells, Cell, EntryWords, Written.FirstCellWords, Written.CellWords;
    var m := q.inMapping;
    match r {
      case NoRow =>
        n := CloseGets(close, true, q, indent);
        SteadySelf(q, indent);
        ClosesRow(q, q, true, n);
        NoCells(q, m);
        OneGets(q, close, [FlowSequenceEnd], n);
      case Last(e) =>
        var q1 := EntryGets(e, q, indent, true);
        LastCellWords(e, m);
        if GoodEntry(e, m, false) {
          EntryInBrackets(q, e, q1, indent);
          Still(q, q1);
          n := CloseGets(close, true, q1, indent);
          ClosesRow(q, q1, true, n);
          CloseWords(q, EntryWords(e, m), q1, Ending(Opens(e, m)), FlowSequenceEnd, n);
          OneGets(q1, close, Ending(Opens(e, m)) + [FlowSequenceEnd], n);
          GoodBoth(q, EntryPieces(e), EntryWords(e, m), q1, [close], Ending(Opens(e, m)) + [FlowSequenceEnd], true, n);
        } else {
          n := q;
          KeptJoin(EntryWords(e, m), Ending(Opens(e, m)) + [FlowSequenceEnd]);
          GoneWrong(q, EntryPieces(e), EntryWords(e, m), q1, [close], EntryWords(e, m) + (Ending(Opens(e, m)) + [FlowSequenceEnd]), n);
        }
      case More(e, comma, tail) =>
        n := MoreCells(r, close, q, indent);
    }
  }

  lemma NoCells(q: Queue, m: bool)
    ensures Written.FirstCellWords(Cells(NoRow, m)) + [FlowSequenceEnd] == [FlowSequenceEnd]
    ensures RowPieces(NoRow) + [AtEnd(q.mark)] == [AtEnd(q.mark)]
    ensures forall p: Piece :: RowPieces(NoRow) + [p] == [p]
    ensures q.tokens + [] + [FlowSequenceEnd] == q.tokens + [FlowSequenceEnd]
  {
  }

  lemma LastCellWords(e: Entry, m: bool)
    ensures Written.FirstCellWords(Cells(Last(e), m)) + [FlowSequenceEnd] == EntryWords(e, m) + (Ending(Opens(e, m)) + [FlowSequenceEnd])
  {
    hide EntryWords, Written.FirstCellWords;
    CellWordsAre(e, m, Written.NoCells);
    assert Written.CellWords(Written.NoCells) == [];
    assert EntryWords(e, m) + Ending(Opens(e, m)) + [] + [FlowSequenceEnd] == EntryWords(e, m) + (Ending(Opens(e, m)) + [FlowSequenceEnd]);
  }

  // The words up to a `,`, and those behind it.
  lemma MoreCellWords(r: Row, m: bool)
    requires r.More?
    ensures Written.FirstCellWords(Cells(r, m)) + [FlowSequenceEnd]
         == EntryWords(r.entry, m) + (Ending(Opens(r.entry, m)) + [FlowEntry])
            + (Written.FirstCellWords(Cells(r.tail, ClosedFlag(r.entry, m))) + [FlowSequenceEnd])
  {
    hide EntryWords, Written.FirstCellWords, Written.CellWords, Cell, Tree;
    var e, tail := r.entry, r.tail;
    var t := if tail.NoRow? then Written.Comma else Cells(tail, ClosedFlag(e, m));
    assert Cells(r, m) == Cell(e, m, t);
    CellWordsAre(e, m, t);
    CellTail(tail, ClosedFlag(e, m));
    Regrouped(EntryWords(e, m), Ending(Opens(e, m)), Written.FirstCellWords(Cells(tail, ClosedFlag(e, m))), [FlowEntry], [FlowSequenceEnd]);
  }

  lemma Regrouped(a: seq<Token>, b: seq<Token>, c: seq<Token>, entry: seq<Token>, end: seq<Token>)
    ensures a + b + (entry + c) + end == a + (b + entry) + (c + end)
  {
  }

  lemma {:induction false} MoreCells(r: Row, close: Piece, q: Queue, indent: int) returns (n: Queue)
    requires r.More? && AtEntry(q, indent) && q.implicit != [] && !InsideImplicit(q) && FitsRow(r, indent, true)
    requires close.lexeme == FlowEnd(true) && Clear(close, indent) && q.flow + RowDepth(r) <= 255
    ensures var good := GoodCells(r, q.inMapping);
            && Gets(q, RowPieces(r) + [close], Written.FirstCellWords(Cells(r, q.inMapping)) + [FlowSequenceEnd], good, n)
            && (good ==> RowClosed(q, true, n) && n.inMapping == RowFlag(r, q.inMapping))
    decreases r, 2
  {
    hide Gets, Ready, Steady, Taken, Written.Words, Tree, Cells, Cell, EntryWords, Written.FirstCellWords, Written.CellWords, RowClosed,
         RowPieces, EntryPieces, Kept;
    var m, e, tail := q.inMapping, r.entry, r.tail;
    var q1 := EntryGets(e, q, indent, true);
    var words, ending := EntryWords(e, m), Ending(Opens(e, m)) + [FlowEntry];
    var rest := Written.FirstCellWords(Cells(tail, ClosedFlag(e, m))) + [FlowSequenceEnd];
    MoreCellWords(r, m);
    RowParts(r, close);
    if GoodEntry(e, m, false) {
      EntryInBrackets(q, e, q1, indent);
      var q2 := CommaGets(r.comma, q1, indent);
      NextInBrackets(q, q1, q2, indent);
      CloseWords(q, words, q1, Ending(Opens(e, m)), FlowEntry, q2);
      OneGets(q1, r.comma, ending, q2);
      n := CellsGet(tail, close, q2, indent);
      var good := GoodCells(tail, ClosedFlag(e, m));
      GoodBoth(q, EntryPieces(e), words, q1, [r.comma], ending, true, q2);
      GoodBoth(q, EntryPieces(e) + [r.comma], words + ending, q2, RowPieces(tail) + [close], rest, good, n);
      if good {
        SteadyTwice(q, q1, q2);
        Still(q, q2);
        ClosesLater(q, q2, true, n);
      }
    } else {
      n := q;
      KeptJoin(words, ending + rest);
      Assoc(words, ending, rest);
      GoneWrong(q, EntryPieces(e), words, q1, [r.comma] + (RowPieces(tail) + [close]), words + ending + rest, n);
    }
  }

  lemma RowParts(r: Row, close: Piece)
    requires r.More?
    ensures RowPieces(r) + [close] == EntryPieces(r.entry) + [r.comma] + (RowPieces(r.tail) + [close])
    ensures RowPieces(r) + [close] == EntryPieces(r.entry) + ([r.comma] + (RowPieces(r.tail) + [close]))
  {
    hide EntryPieces;
  }

  // Behind a `,` between brackets another entry may stand.
  lemma NextInBrackets(q: Queue, n: Queue, next: Queue, indent: int)
    requires AtEntry(q, indent) && Ready(n, indent) && Steady(q, n) && Steady(n, next) && Separated(n, next) && next.allowed
    requires !LastKey(next).possible && n.implicit != []
    requires |n.implicit| == |q.implicit| && n.implicit[..|n.implicit| - 1] == q.implicit[..|q.implicit| - 1]
    ensures AtEntry(next, indent) && next.implicit != [] && !InsideImplicit(next) && next.flow == q.flow
    ensures |next.implicit| == |q.implicit| && next.implicit[..|next.implicit| - 1] == q.implicit[..|q.implicit| - 1]
  {
    hide Levels;
  }

  // ------------------------------------------------------------------ rows between braces

  lemma EntryInBraces(q: Queue, e: Entry, n: Queue, indent: int)
    requires AtEntry(q, indent) && q.inMapping && AfterEntry(q, e, n)
    ensures Ready(n, indent) && n.inMapping && n.implicit == q.implicit && InsideImplicit(n) == InsideImplicit(q)
  {
    hide Levels;
    EntryFlagStays(e);
  }

  lemma NoMembers(q: Queue)
    ensures Written.FirstMemberWords(Members(NoRow)) + [FlowMappingEnd] == [FlowMappingEnd]
    ensures forall p: Piece :: RowPieces(NoRow) + [p] == [p]
  {
  }

  lemma LastMemberWords(e: Entry)
    ensures Written.FirstMemberWords(Members(Last(e))) + [FlowMappingEnd] == EntryWords(e, true) + [FlowMappingEnd]
  {
    hide EntryWords, Written.FirstMemberWords;
    MemberWordsAre(e, Written.NoMembers);
    assert Written.MemberWords(Written.NoMembers) == [];
    assert EntryWords(e, true) + [] == EntryWords(e, true);
  }

  lemma MoreMemberWords(r: Row)
    requires r.More?
    ensures Written.FirstMemberWords(Members(r)) + [FlowMappingEnd]
         == EntryWords(r.entry, true) + [FlowEntry] + (Written.FirstMemberWords(Members(r.tail)) + [FlowMappingEnd])
  {
    hide EntryWords, Written.FirstMemberWords, Written.MemberWords, Member, Tree;
    var e, tail := r.entry, r.tail;
    var t := if tail.NoRow? then Written.LastComma else Members(tail);
    assert Members(r) == Member(e, t);
    MemberWordsAre(e, t);
    MemberTail(tail);
    RegroupedTwo(EntryWords(e, true), Written.FirstMemberWords(Members(tail)), [FlowEntry], [FlowMappingEnd]);
  }

  lemma RegroupedTwo(a: seq<Token>, c: seq<Token>, entry: seq<Token>, end: seq<Token>)
    ensures a + (entry + c) + end == a + entry + (c + end)
  {
  }

  lemma {:induction false} MembersGet(r: Row, close: Piece, q: Queue, indent: int) returns (n: Queue)
    requires AtEntry(q, indent) && q.inMapping && FitsRow(r, indent, false)
    requires close.lexeme == FlowEnd(false) && Clear(close, indent) && q.flow + RowDepth(r) <= 255
    ensures var good := GoodMembers(r, InsideImplicit(q));
            && Gets(q, RowPieces(r) + [close], Written.FirstMemberWords(Members(r)) + [FlowMappingEnd], good, n)
            && (good ==> RowClosed(q, false, n) && n.inMapping)
    decreases r, 3
  {
    hide Gets, Ready, Steady, Taken, Written.Words, Tree, Members, Member, EntryWords, Written.FirstMemberWords, Written.MemberWords;
    var inside := InsideImplicit(q);
    match r {
      case NoRow =>
        n := CloseGets(close, false, q, indent);
        SteadySelf(q, indent);
        ClosesRow(q, q, false, n);
        NoMembers(q);
        OneGets(q, close, [FlowMappingEnd], n);
      case Last(e) =>
        var q1 := EntryGets(e, q, indent, false);
        LastMemberWords(e);
        if GoodEntry(e, true, inside) {
          EntryInBraces(q, e, q1, indent);
          Still(q, q1);
          n := CloseGets(close, false, q1, indent);
          ClosesRow(q, q1, false, n);
          OneGets(q1, close, [FlowMappingEnd], n);
          GoodBoth(q, EntryPieces(e), EntryWords(e, true), q1, [close], [FlowMappingEnd], true, n);
        } else {
          n := q;
          KeptJoin(EntryWords(e, true), [FlowMappingEnd]);
          GoneWrong(q, EntryPieces(e), EntryWords(e, true), q1, [close], EntryWords(e, true) + [FlowMappingEnd], n);
        }
      case More(e, comma, tail) =>
        n := MoreMembers(r, close, q, indent);
    }
  }

  lemma {:induction false} MoreMembers(r: Row, close: Piece, q: Queue, indent: int) returns (n: Queue)
    requires r.More? && AtEntry(q, indent) && q.inMapping && FitsRow(r, indent, false)
    requires close.lexeme == FlowEnd(false) && Clear(close, indent) && q.flow + RowDepth(r) <= 255
    ensures var good := GoodMembers(r, InsideImplicit(q));
            && Gets(q, RowPieces(r) + [close], Written.FirstMemberWords(Members(r)) + [FlowMappingEnd], good, n)
            && (good ==> RowClosed(q, false, n) && n.inMapping)
    decreases r, 2
  {
    hide Gets, Ready, Steady, Taken, Written.Words, Tree, Members, Member, EntryWords, Written.FirstMemberWords, Written.MemberWords, RowClosed,
         RowPieces, EntryPieces, Kept;
    var e, tail, inside := r.entry, r.tail, InsideImplicit(q);
    var q1 := EntryGets(e, q, indent, false);
    var words := EntryWords(e, true);
    var rest := Written.FirstMemberWords(Members(tail)) + [FlowMappingEnd];
    MoreMemberWords(r);
    RowParts(r, close);
    if !GoodEntry(e, true, inside) {
      n := q;
      KeptJoin(words, [FlowEntry] + rest);
      Assoc(words, [FlowEntry], rest);
      GoneWrong(q, EntryPieces(e), words, q1, [r.comma] + (RowPieces(tail) + [close]), words + [FlowEntry] + rest, n);
      return;
    }
    EntryInBraces(q, e, q1, indent);
    var q2 := CommaGets(r.comma, q1, indent);
    if inside {
      n := q;
      EndsTooSoon(q, EntryPieces(e), words, q1, r.comma, q2);
      KeptJoin(words + [FlowEntry], rest);
      GoneWrong(q, EntryPieces(e) + [r.comma], words + [FlowEntry], n, RowPieces(tail) + [close], words + [FlowEntry] + rest, n);
    } else {
      NextInBraces(q, q1, q2, indent);
      assert q1.tokens + [] + [FlowEntry] == q1.tokens + [FlowEntry];
      OneGets(q1, r.comma, [FlowEntry], q2);
      n := MembersGet(tail, close, q2, indent);
      var good := GoodMembers(tail, false);
      GoodBoth(q, EntryPieces(e), words, q1, [r.comma], [FlowEntry], true, q2);
      GoodBoth(q, EntryPieces(e) + [r.comma], words + [FlowEntry], q2, RowPieces(tail) + [close], rest, good, n);
      if good {
        SteadyTwice(q, q1, q2);
        Still(q, q2);
        ClosesLater(q, q2, false, n);
      }
    }
  }

  lemma NextInBraces(q: Queue, n: Queue, next: Queue, indent: int)
    requires AtEntry(q, indent) && Ready(n, indent) && Steady(q, n) && Steady(n, next) && Separated(n, next) && next.allowed
    requires !LastKey(next).possible && !InsideImplicit(n) && n.inMapping && n.implicit == q.implicit
    ensures AtEntry(next, indent) && next.inMapping && next.implicit == q.implicit && !InsideImplicit(next) && next.flow == q.flow
  {
    hide Levels;
  }

  // A `,` between braces that ends the pair the braces stand in: the mapping ends in front of the `,`.
  lemma EndsTooSoon(q: Queue, ps: seq<Piece>, words: seq<Token>, m: Queue, comma: Piece, n: Queue)
    requires Gets(q, ps, words, true, m) && Taken(m, comma) == Ok(n) && n.tokens == m.tokens + [FlowMappingEnd] + [FlowEntry]
    ensures Gets(q, ps + [comma], words + [FlowEntry], false, q)
  {
    hide Taken, Parted;
    TakenJoin(q, ps, [comma]);
    TakenOne(m, comma);
    var c := Kept(q.tokens + words);
    KeptJoin(m.tokens + [FlowMappingEnd], [FlowEntry]);
    KeptJoin(m.tokens, [FlowMappingEnd]);
    KeptJoin(q.tokens + words, [FlowEntry]);
    KeptOne(FlowMappingEnd);
    KeptOne(FlowEntry);
    hide Kept;
    PartedHere(c, FlowMappingEnd, FlowEntry, [FlowEntry], []);
    assert c + [FlowEntry] + [] == c + [FlowEntry];
    assert q.tokens + (words + [FlowEntry]) == q.tokens + words + [FlowEntry];
  }
}
