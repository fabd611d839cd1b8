// Nodes outside of brackets that are no block collections: flow nodes, among them keys, and block
// scalars (crates/yamluna-scanner/src/scanner.rs).
module BlockNodes {
  import opened Results
  import opened ScalarEmitter
  import opened Events
  import opened TokenBalance
  import opened TokenSteps
  import opened FlowText
  import opened FlowTokens
  import opened FlowReads
  import opened FlowTheorem
  import opened BlockForms
  import opened BlockReads
  import Written

  // The pieces of a flow node up to its content or its opening bracket: those that may be a key.
  function Heads(f: Form): seq<Piece> {
    match f
    case Missing => []
    case Leaf(props, content) => props + if content.Some? then [content.value] else []
    case Seq(props, open, _, _) => props + [open]
    case Map(props, open, _, _) => props + [open]
  }

  // Such pieces, about to be read. Either the node is no key: none of them is one that must be followed
  // by a `:`. Or `key` is what the first of them becomes, and stays.
  predicate Ahead(q: Queue, ps: seq<Piece>, at: Place, key: Option<SimpleKey>, first: bool) {
    && Stands(q, at) && (ps != [] ==> q.indent <= ps[0].mark.col)
    && (forall i | 0 <= i < |ps| :: Alone(ps[i]) && (i > 0 ==> at.indent < ps[i].mark.col))
    && match key
       case None =>
         && Calm(q) && Ordered(ps)
         && (forall i | 0 <= i < |ps| :: at.indent < ps[i].mark.col && (q.keys[0].possible ==> q.keys[0].mark.line <= ps[i].mark.line))
       case Some(k) =>
         && (forall i | 0 <= i < |ps| :: Near(k.mark, ps[i].mark) && (i > 0 || !first ==> !ps[i].newline))
         && if first then Calm(q) && ps != [] && (q.allowed || ps[0].newline) && KeyAt(q, ps[0]) == k
            else !q.allowed && q.keys == [k]
  }

  // Behind one of them.
  predicate KeyLeft(n: Queue, p: Piece, key: Option<SimpleKey>) {
    match key
    case None => Calm(n) && (n.keys[0].possible ==> n.keys[0].mark.line <= p.mark.line)
    case Some(k) => n.keys == [k]
  }

  // A piece that no `:` need follow.
  lemma CalmKey(q: Queue, p: Piece, at: Place)
    requires Stands(q, at) && Calm(q) && at.indent < p.mark.col && (q.keys[0].possible ==> q.keys[0].mark.line <= p.mark.line)
    ensures !Missed(q.keys[0], p.mark)
    ensures var k := KeyAt(q, p); !(k.possible && k.required) && (k.possible ==> k.mark.line <= p.mark.line)
  {
    StandsLevels(q, at);
    hide Levels;
  }

  lemma HeadKey(q: Queue, ps: seq<Piece>, at: Place, key: Option<SimpleKey>, first: bool)
    requires Ahead(q, ps, at, key, first) && ps != []
    ensures Outside(q) && !Missed(q.keys[0], ps[0].mark) && Alone(ps[0]) && q.indent <= ps[0].mark.col
    ensures forall n: Queue | n.keys == [KeyAt(q, ps[0])] :: KeyLeft(n, ps[0], key)
  {
    hide Stands, Levels;
    AheadStands(q, ps, at, key, first);
    match key {
      case None =>
        hide KeyAt;
        CalmKey(q, ps[0], at);
      case Some(k) => assert Near(ps[0].mark, ps[0].mark);
    }
  }

  lemma AheadStands(q: Queue, ps: seq<Piece>, at: Place, key: Option<SimpleKey>, first: bool)
    requires Ahead(q, ps, at, key, first)
    ensures Stands(q, at) && Outside(q)
  {
  }

  // ------------------------------------------------------------------ properties

  lemma PropSays(p: Piece, outer: int)
    requires IsProp(p, outer)
    ensures Says(p, p.lexeme.token) && !EndsLine(p)
  {
  }

  // Behind a property the rest is still ahead.
  lemma StillAhead(q: Queue, ps: seq<Piece>, at: Place, key: Option<SimpleKey>, first: bool, n: Queue)
    requires Ahead(q, ps, at, key, first) && ps != [] && Stands(n, at) && n.keys == [KeyAt(q, ps[0])] && !n.allowed
    ensures Ahead(n, ps[1..], at, key, false)
  {
    HeadKey(q, ps, at, key, first);
    StandsLevels(n, at);
    hide Levels, KeyAt;
    assert forall i | 0 <= i < |ps[1..]| :: ps[1..][i] == ps[i + 1];
  }

  lemma PropReads(q: Queue, ps: seq<Piece>, at: Place, key: Option<SimpleKey>, first: bool, outer: int) returns (n: Queue)
    requires Ahead(q, ps, at, key, first) && ps != [] && IsProp(ps[0], outer)
    ensures Taken(q, ps[0]) == Ok(n) && n.tokens == q.tokens + [ps[0].lexeme.token] && n.inMapping == q.inMapping && Stands(n, at)
    ensures Ahead(n, ps[1..], at, key, false) && KeyLeft(n, ps[0], key) && !n.allowed
  {
    hide Taken, Levels, KeyAt, Ahead, Stands;
    AheadStands(q, ps, at, key, first);
    HeadKey(q, ps, at, key, first);
    PropSays(ps[0], outer);
    n := SaysGets(q, ps[0], ps[0].lexeme.token, at);
    StillAhead(q, ps, at, key, first, n);
  }

  // The properties, in front of the content or the bracket.
  lemma {:induction false} PropsRead(q: Queue, props: seq<Piece>, rest: seq<Piece>, ps: seq<Piece>, at: Place, key: Option<SimpleKey>,
                                     first: bool, outer: int) returns (n: Queue)
    requires ps == props + rest && Ahead(q, ps, at, key, first) && forall i | 0 <= i < |props| :: IsProp(props[i], outer)
    ensures TakenAll(q, props) == Ok(n) && n.tokens == q.tokens + TokensOf(props, outer) && n.inMapping == q.inMapping && Stands(n, at)
    ensures Ahead(n, rest, at, key, first && props == [])
    ensures props == [] ==> n == q
    ensures props != [] ==> KeyLeft(n, props[|props| - 1], key) && !n.allowed
    decreases |props|
  {
    hide Taken, Levels, KeyAt, Ahead, Stands, KeyLeft, IsProp;
    AheadStands(q, ps, at, key, first);
    if props == [] {
      n := q;
      assert ps == rest;
      NothingMore(q.tokens);
    } else {
      assert ps[0] == props[0] && ps[1..] == props[1..] + rest;
      assert IsProp(props[0], outer);
      var m := PropReads(q, ps, at, key, first, outer);
      assert forall i | 0 <= i < |props[1..]| :: props[1..][i] == props[i + 1];
      n := PropsRead(m, props[1..], rest, ps[1..], at, key, false, outer);
      FirstToken(props, outer, q.tokens, m.tokens);
    }
  }

  lemma PropWordsOf(props: seq<Piece>, outer: int)
    requires FitsProps(props, outer)
    ensures TokensOf(props, outer) == Written.PropWords(PropsOf(props))
  {
    hide PropsOf;
    PropsShown(props, outer);
    TokensAre(props, outer, Written.PropWords(PropsOf(props)));
  }

  // ------------------------------------------------------------------ flow nodes

  // Behind a flow node.
  predicate FormLeft(q: Queue, f: Form, at: Place, key: Option<SimpleKey>, n: Queue) {
    && !f.Missing? && Stands(n, at) && n.inMapping == Flag(f, q.inMapping)
    && Heads(f) != [] && KeyLeft(n, Heads(f)[|Heads(f)| - 1], key)
    && (Pieces(f) != [] && EndsLine(Pieces(f)[|Pieces(f)| - 1]) ==> n.allowed)
  }

  // A scalar or an alias.
  lemma ContentReads(q: Queue, p: Piece, props: seq<Piece>, at: Place, key: Option<SimpleKey>, first: bool, outer: int) returns (n: Queue)
    requires Ahead(q, [p], at, key, first) && FitsContent(p, props, outer)
    ensures Taken(q, p) == Ok(n) && n.tokens == q.tokens + [p.lexeme.token] && n.inMapping == q.inMapping && Stands(n, at)
    ensures KeyLeft(n, p, key) && (EndsLine(p) ==> n.allowed)
  {
    hide Taken, Levels, KeyAt, Ahead, Stands, KeyLeft, EndsLine;
    AheadStands(q, [p], at, key, first);
    HeadKey(q, [p], at, key, first);
    n := SaysGets(q, p, p.lexeme.token, at);
  }

  lemma LeafReads(f: Form, q: Queue, at: Place, key: Option<SimpleKey>, outer: int) returns (n: Queue)
    requires f.Leaf? && FitsForm(f, outer, outer) && Ahead(q, Heads(f), at, key, true)
    ensures Gets(q, Pieces(f), Written.Words(Tree(f, q.inMapping)), true, n) && FormLeft(q, f, at, key, n)
  {
    hide Taken, Ahead, Stands, KeyLeft, PropsOf, EndsLine, Gets, IsProp;
    var props, words := f.props, Written.PropWords(PropsOf(f.props));
    var rest := if f.content.Some? then [f.content.value] else [];
    var m := PropsRead(q, props, rest, Heads(f), at, key, true, outer);
    PropWordsOf(props, outer);
    GetsIs(q, props, words, m);
    if f.content.None? {
      n := m;
      assert words + [] == words && props + [] == props;
      PropEnds(props, outer);
    } else {
      var p := f.content.value;
      n := ContentReads(m, p, props, at, key, props == [], outer);
      OneGets(m, p, [p.lexeme.token], n);
      GoodBoth(q, props, words, m, [p], [p.lexeme.token], true, n);
      LeafSays(f, outer, q.inMapping);
    }
  }

  lemma LeafSays(f: Form, outer: int, m: bool)
    requires f.Leaf? && f.content.Some? && FitsForm(f, outer, outer)
    ensures Written.Words(Tree(f, m)) == Written.PropWords(PropsOf(f.props)) + [f.content.value.lexeme.token]
  {
    LeafWords(f, outer);
  }

  lemma GetsIs(q: Queue, ps: seq<Piece>, words: seq<Token>, n: Queue)
    requires TakenAll(q, ps) == Ok(n) && n.tokens == q.tokens + words
    ensures Gets(q, ps, words, true, n)
  {
  }

  lemma PropEnds(props: seq<Piece>, outer: int)
    requires FitsProps(props, outer) && props != []
    ensures !EndsLine(props[|props| - 1])
  {
    assert IsProp(props[|props| - 1], outer);
  }

  // A flow collection: its rows are read inside brackets, and behind them the scanner stands where it did.
  lemma CollectionReads(f: Form, q: Queue, at: Place, key: Option<SimpleKey>, outer: int, base: int) returns (n: Queue)
    requires (f.Seq? || f.Map?) && FitsForm(f, outer, base) && Depth(f) <= 255 && at.indent <= base && Ahead(q, Heads(f), at, key, true)
    ensures Gets(q, Pieces(f), Written.Words(Tree(f, q.inMapping)), Good(f, q.inMapping, false), n)
    ensures Good(f, q.inMapping, false) ==> FormLeft(q, f, at, key, n)
  {
    hide Taken, Ahead, Stands, KeyLeft, PropsOf, EndsLine, Gets, IsProp, KeyAt, Levels, RowClosed, Tree, Written.Words, AtEntry, OpenedOut;
    var props, words := f.props, Written.PropWords(PropsOf(f.props));
    var m := PropsRead(q, props, [f.open], Heads(f), at, key, true, outer);
    PropWordsOf(props, outer);
    GetsIs(q, props, words, m);
    AheadStands(m, [f.open], at, key, props == []);
    HeadKey(m, [f.open], at, key, props == []);
    var inner := OpensOut(m, f.open, f.Seq?, at, base);
    var k := KeyAt(m, f.open);
    OpenedGets(m, f.open, f.Seq?, k, at, inner);
    n := RowReads(f, m, inner, k, at, base);
    var rest := RowWords(f, inner.inMapping) + [if f.Seq? then FlowSequenceEnd else FlowMappingEnd];
    var good := GoodRow(f, inner.inMapping);
    GoodBoth(m, [f.open], OpenWord(f), inner, RowPieces(f.row) + [f.close], rest, good, n);
    GoodBoth(q, props, words, m, [f.open] + (RowPieces(f.row) + [f.close]), OpenWord(f) + rest, good, n);
    CollectionIs(f, q.inMapping);
    if good {
      FlagBehind(f, q.inMapping);
      CollectionLeft(q, f, at, key, n, k);
    }
  }

  function OpenWord(f: Form): seq<Token> {
    [if f.Seq? then FlowSequenceStart else FlowMappingStart]
  }

  function RowWords(f: Form, m: bool): seq<Token>
    requires f.Seq? || f.Map?
  {
    if f.Seq? then Written.FirstCellWords(Cells(f.row, m)) else Written.FirstMemberWords(Members(f.row))
  }

  predicate GoodRow(f: Form, m: bool)
    requires f.Seq? || f.Map?
  {
    if f.Seq? then GoodCells(f.row, m) else GoodMembers(f.row, false)
  }

  lemma OpenedGets(q: Queue, p: Piece, isSeq: bool, k: SimpleKey, at: Place, n: Queue)
    requires Taken(q, p) == Ok(n) && OpenedOut(q, isSeq, k, at, n)
    ensures Gets(q, [p], [if isSeq then FlowSequenceStart else FlowMappingStart], true, n)
    ensures n.flow == 1 && n.keys == [k, NoKey()] && n.implicit == (if isSeq then [false] else []) && n.inMapping == (!isSeq || q.inMapping)
    ensures Stands(n.(flow := 0, keys := [k], implicit := []), at)
  {
    hide Taken, Levels, Stands;
    OneGets(q, p, [if isSeq then FlowSequenceStart else FlowMappingStart], n);
  }

  lemma RowReads(f: Form, q: Queue, inner: Queue, k: SimpleKey, at: Place, base: int) returns (n: Queue)
    requires (f.Seq? || f.Map?) && AtEntry(inner, base) && Depth(f) <= 255
    requires FitsRow(f.row, base, f.Seq?) && f.close.lexeme == FlowEnd(f.Seq?) && Clear(f.close, base)
    requires inner.flow == 1 && inner.keys == [k, NoKey()] && inner.implicit == (if f.Seq? then [false] else []) && inner.inMapping == (f.Map? || q.inMapping)
    requires Stands(inner.(flow := 0, keys := [k], implicit := []), at)
    ensures Gets(inner, RowPieces(f.row) + [f.close], RowWords(f, inner.inMapping) + [if f.Seq? then FlowSequenceEnd else FlowMappingEnd],
                 GoodRow(f, inner.inMapping), n)
    ensures GoodRow(f, inner.inMapping) ==> Stands(n, at) && n.keys == [k] && n.inMapping == (f.Map? || RowFlag(f.row, inner.inMapping))
  {
    hide Levels, Stands, Gets, AtEntry, Cells, Members, GoodCells, GoodMembers, FitsRow;
    if f.Seq? {
      n := CellsGet(f.row, f.close, inner, base);
    } else {
      n := MembersGet(f.row, f.close, inner, base);
    }
    if GoodRow(f, inner.inMapping) {
      assert inner.implicit[..0] == [] || inner.implicit == [];
      ClosesOut(inner, n, at, k);
    }
  }

  lemma CollectionIs(f: Form, m: bool)
    requires f.Seq? || f.Map?
    ensures Good(f, m, false) == GoodRow(f, f.Map? || m)
    ensures Written.Words(Tree(f, m)) == Written.PropWords(PropsOf(f.props)) + (OpenWord(f) + (RowWords(f, f.Map? || m) +
              [if f.Seq? then FlowSequenceEnd else FlowMappingEnd]))
    ensures Pieces(f) == f.props + ([f.open] + (RowPieces(f.row) + [f.close]))
  {
  }

  lemma FlagBehind(f: Form, m: bool)
    requires f.Seq? || f.Map?
    ensures Flag(f, m) == (f.Map? || RowFlag(f.row, f.Map? || m))
  {
  }

  lemma CollectionLeft(q: Queue, f: Form, at: Place, key: Option<SimpleKey>, n: Queue, k: SimpleKey)
    requires (f.Seq? || f.Map?) && f.close.lexeme.FlowEnd? && Stands(n, at) && n.inMapping == Flag(f, q.inMapping) && KeyLeft(n, f.open, key)
    ensures FormLeft(q, f, at, key, n)
  {
    hide Stands, KeyLeft, Flag, RowPieces;
    CollectionLast(f);
  }

  lemma CollectionLast(f: Form)
    requires f.Seq? || f.Map?
    ensures Heads(f) != [] && Heads(f)[|Heads(f)| - 1] == f.open
    ensures Pieces(f) != [] && Pieces(f)[|Pieces(f)| - 1] == f.close
  {
  }
}
