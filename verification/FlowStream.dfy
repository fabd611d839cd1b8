// A document that is one flow collection, from its text to its events
// (crates/yamluna-scanner/src/scanner.rs, crates/yamluna-scanner/src/parser.rs).
module FlowStream {
  import opened Results
  import opened ScalarEmitter
  import opened Events
  import opened TokenBalance
  import opened TokenSteps
  import opened FlowText
  import opened FlowTokens
  import opened FlowReads
  import opened FlowTheorem
  import ParserRun
  import ParserStep
  import StreamMeans
  import Written

  // A flow collection of its own, no deeper than the scanner lets it be.
  predicate IsRoot(f: Form) {
    (f.Seq? || f.Map?) && f.props == [] && Fits(f, -1) && Depth(f) <= 255
  }

  function DocumentOf(n: Written.Node): seq<Written.Document> {
    [Written.Document([], false, n, 0)]
  }

  // ------------------------------------------------------------------ the ends of a text

  lemma RootWords(n: Written.Node)
    ensures Written.StreamWords(0, DocumentOf(n)) == [Token.StreamStart] + Written.Words(n) + [Token.StreamEnd]
  {
    hide Written.Words;
    var d := Written.Document([], false, n, 0);
    var w := Written.Words(n);
    assert [d][1..] == [];
    assert Written.DocumentWords([]) == [Token.StreamEnd];
    assert Written.DocumentWords([d]) == w + [Token.StreamEnd] by {
      assert [] + ([] + (w + ([] + [Token.StreamEnd]))) == w + [Token.StreamEnd];
    }
    assert [Token.StreamStart] + ([] + (w + [Token.StreamEnd])) == [Token.StreamStart] + w + [Token.StreamEnd];
  }

  lemma {:induction false} EagerIs(q: Queue, ps: seq<Piece>)
    requires forall i | 0 <= i < |ps| :: !ps[i].lexeme.EndOfInput?
    ensures Eager(q, ps) == if TakenAll(q, ps).Ok? then Taken(TakenAll(q, ps).value, AtEnd(TakenAll(q, ps).value.mark)) else TakenAll(q, ps)
    decreases |ps|
  {
    hide Taken;
    if ps != [] {
      if Taken(q, ps[0]).Ok? {
        EagerIs(Taken(q, ps[0]).value, ps[1..]);
      }
    }
  }

  // No piece of a collection ends the text.
  lemma {:induction false} NoEnd(f: Form, indent: int)
    requires Fits(f, indent)
    ensures forall p | p in Pieces(f) :: !p.lexeme.EndOfInput?
    decreases f, 0
  {
    match f {
      case Missing =>
      case Leaf(props, content) => NoEndInProps(props, indent);
      case Seq(props, open, row, close) =>
        NoEndInProps(props, indent);
        NoEndInRow(row, indent, true);
      case Map(props, open, row, close) =>
        NoEndInProps(props, indent);
        NoEndInRow(row, indent, false);
    }
  }

  lemma NoEndInProps(ps: seq<Piece>, indent: int)
    requires FitsProps(ps, indent)
    ensures forall p | p in ps :: !p.lexeme.EndOfInput?
  {
    forall p | p in ps ensures !p.lexeme.EndOfInput? {
      var i :| 0 <= i < |ps| && ps[i] == p;
      assert IsProp(ps[i], indent);
    }
  }

  lemma {:induction false} NoEndInRow(r: Row, indent: int, brackets: bool)
    requires FitsRow(r, indent, brackets)
    ensures forall p | p in RowPieces(r) :: !p.lexeme.EndOfInput?
    decreases r, 1
  {
    match r {
      case NoRow =>
      case Last(e) => NoEndInEntry(e, indent, brackets);
      case More(e, _, tail) =>
        NoEndInEntry(e, indent, brackets);
        NoEndInRow(tail, indent, brackets);
    }
  }

  lemma {:induction false} NoEndInEntry(e: Entry, indent: int, brackets: bool)
    requires FitsEntry(e, indent, brackets)
    ensures forall p | p in EntryPieces(e) :: !p.lexeme.EndOfInput?
    decreases e, 1
  {
    hide Pieces;
    match e {
      case Lone(n) => NoEnd(n, indent);
      case Simple(k, _, v) =>
        NoEnd(k, indent);
        NoEnd(v, indent);
      case Bare(_, v) => NoEnd(v, indent);
      case Asked(_, k) => NoEnd(k, indent);
      case AskedFor(_, k, _, v) =>
        NoEnd(k, indent);
        NoEnd(v, indent);
    }
  }

  // The first piece of a text.
  lemma RootOpens(p: Piece, isSeq: bool) returns (n: Queue)
    requires p.lexeme == FlowStart(isSeq) && Clear(p, -1)
    ensures Taken(Begin(), p) == Ok(n) && AtEntry(n, -1) && n.flow == 1 && n.levels == []
    ensures n.tokens == [Token.StreamStart, if isSeq then FlowSequenceStart else FlowMappingStart]
    ensures n.implicit == (if isSeq then [false] else []) && n.inMapping == !isSeq
    ensures n.keys == [SimpleKey(true, false, 1, p.mark), NoKey()]
  {
    var q := Begin();
    var r := Reached(q, p);
    assert q.tokens + [] == q.tokens;
    assert r.keys == [NoKey()] && forall k | k in r.keys :: k == NoKey();
    assert Checked(NoKey(), r.mark) == NoKey();
    assert Staled(r).value.keys == r.keys;
    assert Unrolled(r, p.mark.col) == r;
    assert Saved(r) == r.(keys := [SimpleKey(true, false, 1, p.mark)]);
    n := Taken(q, p).value;
    assert n.keys == [SimpleKey(true, false, 1, p.mark)] + [NoKey()];
  }

  // The end of a text whose collections are closed.
  lemma RootEnds(q: Queue)
    requires q.flow == 0 && q.levels == [] && q.indent == -1 && |q.keys| == 1 && !q.keys[0].required
    ensures Taken(q, AtEnd(q.mark)).Ok? && Taken(q, AtEnd(q.mark)).value.tokens == q.tokens + [Token.StreamEnd]
  {
    var p := AtEnd(q.mark);
    var r := Reached(q, p);
    assert q.tokens + [] == q.tokens;
    assert r == q;
    assert forall k | k in q.keys :: k == q.keys[0];
    var s := Staled(r).value;
    assert s.keys == [Checked(q.keys[0], q.mark)];
    assert Unrolled(s, p.mark.col) == s;
    var d := Dropped(s).value;
    assert d.keys == [Off(s.keys[0])];
    assert Unrolled(d, -1) == d;
  }

  // ------------------------------------------------------------------ the theorem

  lemma RootRow(f: Form, inner: Queue) returns (n: Queue)
    requires IsRoot(f) && AtEntry(inner, -1) && inner.flow == 1 && inner.implicit == (if f.Seq? then [false] else []) && inner.inMapping == f.Map?
    ensures var words := if f.Seq? then Written.FirstCellWords(Cells(f.row, false)) + [FlowSequenceEnd]
                         else Written.FirstMemberWords(Members(f.row)) + [FlowMappingEnd];
            && Gets(inner, RowPieces(f.row) + [f.close], words, Good(f, false, false), n)
            && Written.Words(Tree(f, false)) == [if f.Seq? then FlowSequenceStart else FlowMappingStart] + words
    ensures Good(f, false, false) ==> RowClosed(inner, f.Seq?, n)
  {
    hide Gets, RowClosed, Cells, Members, AtEntry, Written.FirstCellWords, Written.FirstMemberWords;
    assert PropsOf([]) == NoProps;
    assert Written.PropWords(NoProps) == [];
    if f.Seq? {
      n := CellsGet(f.row, f.close, inner, -1);
      var w := Written.FirstCellWords(Cells(f.row, false)) + [FlowSequenceEnd];
      assert [] + ([FlowSequenceStart] + w) == [FlowSequenceStart] + w;
    } else {
      n := MembersGet(f.row, f.close, inner, -1);
      var w := Written.FirstMemberWords(Members(f.row)) + [FlowMappingEnd];
      assert [] + ([FlowMappingStart] + w) == [FlowMappingStart] + w;
    }
  }

  // The scanner's tokens for a document that is one flow collection are the words of its tree exactly
  // when no `,` between braces stands in a pair without braces.
  lemma TokensAreWords(f: Form)
    requires IsRoot(f)
    ensures var r := Eager(Begin(), Pieces(f));
            r.Ok? && r.value.tokens == Written.StreamWords(0, DocumentOf(Tree(f, false))) <==> Good(f, false, false)
  {
    hide Taken, Eager, Begin, Gets, Ready, AtEntry, Written.Words, Tree, Good, Written.StreamWords, RowClosed, Fits;
    NoEndThere(f);
    EagerIs(Begin(), Pieces(f));
    RootWords(Tree(f, false));
    FitsOpen(f);
    var inner := RootOpens(f.open, f.Seq?);
    var n := RootRow(f, inner);
    var rest := RowPieces(f.row) + [f.close];
    assert Pieces(f) == [f.open] + rest by {
      assert [] + ([f.open] + rest) == [f.open] + rest;
    }
    TakenOne(Begin(), f.open);
    TakenJoin(Begin(), [f.open], rest);
    assert TakenAll(Begin(), Pieces(f)) == TakenAll(inner, rest);
    RootEither(f, inner, rest, n);
  }

  lemma NoEndThere(f: Form)
    requires IsRoot(f)
    ensures forall i | 0 <= i < |Pieces(f)| :: !Pieces(f)[i].lexeme.EndOfInput?
  {
    NoEnd(f, -1);
    forall i | 0 <= i < |Pieces(f)| ensures !Pieces(f)[i].lexeme.EndOfInput? {
      assert Pieces(f)[i] in Pieces(f);
    }
  }

  lemma FitsOpen(f: Form)
    requires IsRoot(f)
    ensures f.open.lexeme == FlowStart(f.Seq?) && Clear(f.open, -1)
  {
  }

  lemma RootEither(f: Form, inner: Queue, rest: seq<Piece>, n: Queue)
    requires IsRoot(f) && inner.tokens == [Token.StreamStart, if f.Seq? then FlowSequenceStart else FlowMappingStart]
    requires |inner.keys| == 2 && !inner.keys[0].required && inner.flow == 1 && inner.levels == []
    requires var first := [if f.Seq? then FlowSequenceStart else FlowMappingStart];
             exists words :: Gets(inner, rest, words, Good(f, false, false), n) && Written.Words(Tree(f, false)) == first + words
    requires Good(f, false, false) ==> RowClosed(inner, f.Seq?, n)
    ensures var r := TakenAll(inner, rest);
            var e := if r.Ok? then Taken(r.value, AtEnd(r.value.mark)) else r;
            e.Ok? && e.value.tokens == [Token.StreamStart] + Written.Words(Tree(f, false)) + [Token.StreamEnd] <==> Good(f, false, false)
  {
    hide Taken, TakenAll, Ready, Written.Words, Tree, Good, Fits;
    var first := [if f.Seq? then FlowSequenceStart else FlowMappingStart];
    var words :| Gets(inner, rest, words, Good(f, false, false), n) && Written.Words(Tree(f, false)) == first + words;
    assert inner.tokens + words == [Token.StreamStart] + (first + words);
    var all := [Token.StreamStart] + (first + words);
    if Good(f, false, false) {
      RootEnds(n);
    } else if TakenAll(inner, rest).Ok? {
      var m := TakenAll(inner, rest).value;
      TakenAppends(m, AtEnd(m.mark));
      if Taken(m, AtEnd(m.mark)).Ok? {
        var e := Taken(m, AtEnd(m.mark)).value;
        KeptJoin(all, [Token.StreamEnd]);
        PartedMore(Kept(m.tokens), Kept(all), Kept(e.tokens), Kept(all + [Token.StreamEnd]));
        if e.tokens == all + [Token.StreamEnd] {
          PartedDiffer(Kept(e.tokens));
        }
      }
    }
  }

  // And such a document is read as what it means, whatever the flag makes of its pairs, exactly when
  // no `:` without a key stands alone where the flag is set, and no `?` without a key loses what
  // stands behind it.
  lemma FlowTextRead(f: Form, keepTags: bool)
    requires IsRoot(f) && Good(f, false, false)
    ensures Eager(Begin(), Pieces(f)).Ok?
    ensures var docs := DocumentOf(Tree(f, false));
            && (forall i | 0 <= i < |docs| :: Written.AllDirectives(docs[i].directives))
            && var m := ParserRun.Fresh(Eager(Begin(), Pieces(f)).value.tokens, keepTags, None);
               var run, mean := ParserRun.RunFrom(m, false), Written.MeanStream(docs, m.env, false);
               && (run.error.None? <==> Written.Clean(Tree(f, false)) && mean.verdict.Ok?)
               && (mean.verdict.Ok? ==>
                     (run == StreamMeans.RunOf(mean) <==> Written.Clean(Tree(f, false)) && Written.Lost(Tree(f, false)) == 0))
  {
    hide Eager, Begin, ParserRun.RunFrom, Written.MeanStream, Written.StreamWords, Written.Clean, Written.Lost, Tree, Good;
    TokensAreWords(f);
    var docs := DocumentOf(Tree(f, false));
    RootFits(f);
    StreamMeans.StreamReadExactly(0, docs, keepTags, None);
    assert Written.AllClean(docs) <==> Written.Clean(Tree(f, false)) by {
      assert docs[0].root == Tree(f, false);
    }
    assert docs[1..] == [];
    assert Written.LostIn(docs[1..]) == 0;
  }

  lemma RootFits(f: Form)
    requires IsRoot(f)
    ensures Written.DocumentsFit(DocumentOf(Tree(f, false)), true)
  {
    TreeFlows(f, false, -1);
    assert DocumentOf(Tree(f, false))[1..] == [];
  }

  // ------------------------------------------------------------------ three texts

  function At(l: Lexeme, col: nat): Piece {
    Piece(false, [], Mark(col, 1, col), l, [], Mark(col, 1, col))
  }

  function Word(text: string, col: nat): Form {
    Leaf([], Some(At(Lexeme.Plain(Token.Scalar(ScalarStyle.Plain, text), false), col)))
  }

  function Named(text: string): Written.Node {
    Written.Text(NoProps, ScalarStyle.Plain, text)
  }

  lemma WordIs(text: string, col: nat, m: bool)
    ensures Tree(Word(text, col), m) == Named(text) && Fits(Word(text, col), -1)
    ensures Written.Words(Named(text)) == [Token.Scalar(ScalarStyle.Plain, text)]
  {
    assert Written.PropWords(NoProps) == [];
    assert [] + [Token.Scalar(ScalarStyle.Plain, text)] == [Token.Scalar(ScalarStyle.Plain, text)];
  }

  // `[: c]`
  function ColonFirst(): Form {
    Seq([], At(FlowStart(true), 0), Last(Bare(At(Colon, 1), Word("c", 3))), At(FlowEnd(true), 4))
  }

  // `[{}, : c]`
  function ColonBehindBraces(): Form {
    Seq([], At(FlowStart(true), 0),
        More(Lone(Map([], At(FlowStart(false), 1), NoRow, At(FlowEnd(false), 2))), At(Lexeme.Comma, 3),
             Last(Bare(At(Colon, 5), Word("c", 7)))),
        At(FlowEnd(true), 8))
  }

  // The first is read as what it means; in the second the `:` is given no `FlowMappingStart`, and the
  // parser refuses it.
  lemma BracesSpoilColon(keepTags: bool)
    ensures IsRoot(ColonFirst()) && Good(ColonFirst(), false, false) && IsRoot(ColonBehindBraces()) && Good(ColonBehindBraces(), false, false)
    ensures Written.Clean(Tree(ColonFirst(), false)) && Written.Lost(Tree(ColonFirst(), false)) == 0
    ensures var r := Eager(Begin(), Pieces(ColonBehindBraces()));
            && r.Ok?
            && r.value.tokens == [Token.StreamStart, FlowSequenceStart, FlowMappingStart, FlowMappingEnd, FlowEntry, Value,
                                  Token.Scalar(ScalarStyle.Plain, "c"), FlowSequenceEnd, Token.StreamEnd]
            && ParserRun.RunFrom(ParserRun.Fresh(r.value.tokens, keepTags, None), false).error.Some?
  {
    hide Eager, Begin, ParserRun.RunFrom, ColonFirst, ColonBehindBraces, Tree, Good, IsRoot, Pieces, Written.StreamWords, Written.Clean,
         Written.Words, Written.MeanStream;
    ColonFirstIs();
    ColonBehindBracesIs();
    SpoiltWords();
    TokensAreWords(ColonBehindBraces());
    RootWords(Tree(ColonBehindBraces(), false));
    FlowTextRead(ColonBehindBraces(), keepTags);
  }

  lemma ColonFirstIs()
    ensures IsRoot(ColonFirst()) && Good(ColonFirst(), false, false)
    ensures Written.Clean(Tree(ColonFirst(), false)) && Written.Lost(Tree(ColonFirst(), false)) == 0
  {
    WordIs("c", 3, false);
    hide Word;
    var value := Word("c", 3);
    assert Opens(Bare(At(Colon, 1), value), false);
    assert Cells(ColonFirst().row, false)
        == Written.Item(Written.FlowMap(NoProps, Written.Member(Written.ValueOnly, Written.Missing, Named("c"), Written.NoMembers)), Written.NoCells);
    WordPlain("c", 3, false, true);
  }

  lemma WordPieces(text: string, col: nat)
    ensures Pieces(Word(text, col)) == [At(Lexeme.Plain(Token.Scalar(ScalarStyle.Plain, text), false), col)]
  {
    var p := At(Lexeme.Plain(Token.Scalar(ScalarStyle.Plain, text), false), col);
    assert [] + [p] == [p];
  }

  lemma WordPlain(text: string, col: nat, m: bool, inside: bool)
    ensures Depth(Word(text, col)) == 0 && !Word(text, col).Missing? && First(Word(text, col)).mark == Mark(col, 1, col)
    ensures Good(Word(text, col), m, inside) && Flag(Word(text, col), m) == m
  {
  }

  lemma ColonBehindBracesIs()
    ensures IsRoot(ColonBehindBraces()) && Good(ColonBehindBraces(), false, false)
    ensures Tree(ColonBehindBraces(), false) ==
            Written.FlowSeq(NoProps, Written.Item(Written.FlowMap(NoProps, Written.NoMembers),
                                                  Written.Pair(Written.ValueOnly, Written.Missing, Named("c"), Written.NoCells)))
  {
    WordIs("c", 7, true);
    WordPlain("c", 7, true, false);
    hide Word, Named;
    EmptyBraces(At(FlowStart(false), 1), At(FlowEnd(false), 2));
    BareFits(At(Colon, 5), Word("c", 7));
    RowIs(Map([], At(FlowStart(false), 1), NoRow, At(FlowEnd(false), 2)), At(Lexeme.Comma, 3), Bare(At(Colon, 5), Word("c", 7)));
    hide Fits, Depth, Good, FitsRow, RowDepth, GoodCells, Cells, Tree, EntryDepth;
    RootOf(At(FlowStart(true), 0), ColonBehindBraces().row, At(FlowEnd(true), 8));
  }

  lemma RootOf(open: Piece, r: Row, close: Piece)
    requires open == At(FlowStart(true), 0) && close.lexeme == FlowEnd(true) && Clear(close, -1) && FitsRow(r, -1, true) && RowDepth(r) < 255
    ensures var f := Seq([], open, r, close);
            IsRoot(f) && Good(f, false, false) == GoodCells(r, false) && Tree(f, false) == Written.FlowSeq(NoProps, Cells(r, false))
  {
    hide FitsRow, RowDepth, GoodCells, Cells;
    assert PropsOf([]) == NoProps;
  }

  lemma EmptyBraces(open: Piece, close: Piece)
    requires open == At(FlowStart(false), 1) && close == At(FlowEnd(false), 2)
    ensures var f := Map([], open, NoRow, close);
            && Fits(f, -1) && Depth(f) == 1 && Good(f, false, false) && Flag(f, false)
            && Tree(f, false) == Written.FlowMap(NoProps, Written.NoMembers)
  {
  }

  lemma BareFits(colon: Piece, v: Form)
    requires colon == At(Colon, 5) && Fits(v, -1) && Depth(v) == 0 && Good(v, true, false)
    ensures FitsEntry(Bare(colon, v), -1, true) && EntryDepth(Bare(colon, v)) == 0 && GoodEntry(Bare(colon, v), true, false)
    ensures Cells(Last(Bare(colon, v)), true) == Written.Pair(Written.ValueOnly, Written.Missing, Tree(v, true), Written.NoCells)
  {
    hide Tree, Good, Fits, Depth;
  }

  lemma RowIs(n: Form, comma: Piece, e: Entry)
    requires comma == At(Lexeme.Comma, 3) && !n.Missing?
    requires Fits(n, -1) && Depth(n) == 1 && Good(n, false, false) && Flag(n, false)
    requires FitsEntry(e, -1, true) && EntryDepth(e) == 0 && GoodEntry(e, true, false)
    ensures var r := More(Lone(n), comma, Last(e));
            FitsRow(r, -1, true) && RowDepth(r) == 1 && GoodCells(r, false) && Cells(r, false) == Written.Item(Tree(n, false), Cells(Last(e), true))
  {
    hide Tree, Good, Fits, Depth, Flag, FitsEntry, EntryDepth;
    assert GoodEntry(Lone(n), false, false) && ClosedFlag(Lone(n), false) && EntryDepth(Lone(n)) == 1 && FitsEntry(Lone(n), -1, true) by {
      LoneIs(n);
    }
    assert RowDepth(Last(e)) == 0 && FitsRow(Last(e), -1, true) && GoodCells(Last(e), true);
  }

  lemma LoneIs(n: Form)
    ensures EntryDepth(Lone(n)) == Depth(n) && FitsEntry(Lone(n), -1, true) == (!n.Missing? && Fits(n, -1))
  {
  }

  lemma SpoiltWords()
    ensures var n := Written.FlowSeq(NoProps, Written.Item(Written.FlowMap(NoProps, Written.NoMembers),
                                     Written.Pair(Written.ValueOnly, Written.Missing, Named("c"), Written.NoCells)));
            && !Written.Clean(n)
            && Written.Words(n) == [FlowSequenceStart, FlowMappingStart, FlowMappingEnd, FlowEntry, Value,
                                    Token.Scalar(ScalarStyle.Plain, "c"), FlowSequenceEnd]
  {
    WordIs("c", 7, true);
    hide Named;
    var last := Written.Pair(Written.ValueOnly, Written.Missing, Named("c"), Written.NoCells);
    assert Written.PropWords(NoProps) == [];
    assert Written.Words(Written.FlowMap(NoProps, Written.NoMembers)) == [FlowMappingStart, FlowMappingEnd];
    assert Written.CellWords(last) == [FlowEntry, Value, Token.Scalar(ScalarStyle.Plain, "c")];
  }

  // `[k: {a: 1, b: 2}]`
  function Pair(k: string, col: nat, v: string): Entry {
    Simple(Word(k, col), At(Colon, col + 1), Word(v, col + 3))
  }

  function CommaInBraces(): Form {
    Seq([], At(FlowStart(true), 0),
        Last(Simple(Word("k", 1), At(Colon, 2),
                    Map([], At(FlowStart(false), 4), More(Pair("a", 5, "1"), At(Lexeme.Comma, 9), Last(Pair("b", 11, "2"))),
                        At(FlowEnd(false), 15)))),
        At(FlowEnd(true), 16))
  }

  // What it is taken for: `[{k: {a: 1}, {b: 2}: }]`.
  function TakenFor(): Written.Node {
    Written.FlowSeq(NoProps, Written.Item(Written.FlowMap(NoProps,
      Written.Member(Written.KeyAndValue, Named("k"), Braced("a", "1"), Written.Lone(Braced("b", "2"), Written.NoMembers))),
      Written.NoCells))
  }

  function Braced(k: string, v: string): Written.Node {
    Written.FlowMap(NoProps, Written.Member(Written.KeyAndValue, Named(k), Named(v), Written.NoMembers))
  }

  lemma PairFits(k: string, col: nat, v: string, brackets: bool, m: bool, inside: bool)
    ensures var e := Pair(k, col, v);
            && FitsEntry(e, -1, brackets) && EntryDepth(e) == 0
            && GoodEntry(e, m, inside) && Opens(e, m) == !m && EntryFlag(e, m) == m
            && EntryWords(e, m) == Opening(!m) + [Key, Said(k), Value, Said(v)]
  {
    WordIs(k, col, m);
    WordIs(v, col + 3, m);
    WordPlain(k, col, m, inside);
    WordPlain(v, col + 3, m, inside || !m);
    PairIsWords(k, col, v, m);
    hide Word, EntryWords;
  }

  lemma PairIsWords(k: string, col: nat, v: string, m: bool)
    ensures EntryWords(Pair(k, col, v), m) == Opening(!m) + [Key, Said(k), Value, Said(v)]
  {
    WordPlain(k, col, m, false);
    WordIs(k, col, m);
    WordIs(v, col + 3, m);
    hide Word, Tree, Written.Words, Named;
    var o, a, b := Opening(!m), [Said(k)], [Said(v)];
    assert o + ([Key] + a) + [Value] + b == o + [Key, Said(k), Value, Said(v)];
  }

  function Said(text: string): Token {
    Token.Scalar(ScalarStyle.Plain, text)
  }

  // Up to the braces: a mapping has been begun for the pair.
  lemma PairBegun() returns (q0: Queue, q1: Queue, q2: Queue, q: Queue)
    ensures Taken(Begin(), At(FlowStart(true), 0)) == Ok(q0) && Taken(q0, At(Lexeme.Plain(Said("k"), false), 1)) == Ok(q1)
    ensures Taken(q1, At(Colon, 2)) == Ok(q2) && Taken(q2, At(FlowStart(false), 4)) == Ok(q)
    ensures AtEntry(q, -1) && q.flow == 2 && q.levels == []
    ensures q.inMapping && q.implicit == [true] && |q.keys| == 3 && !q.keys[0].required && !q.keys[1].required
    ensures q.tokens == [Token.StreamStart, FlowSequenceStart, FlowMappingStart, Key, Said("k"), Value, FlowMappingStart]
  {
    hide Taken, Gets, Begin, KeyPrefix, Pieces, Word, Steady, Tree, Written.Words;
    q0 := RootOpens(At(FlowStart(true), 0), true);
    WordIs("k", 1, false);
    WordPlain("k", 1, false, false);
    WordPieces("k", 1);
    var k := Word("k", 1);
    q1 := NodeGets(k, q0, -1);
    GetsTokens(q0, Pieces(k), [Said("k")], q1);
    ReadyAfter(q0, q1, -1);
    KeysKept(q0, q1);
    q2 := ColonBehind(At(Colon, 2), q1, -1, 2, Mark(1, 1, 1));
    assert q1.tokens[..2] == q0.tokens && q1.tokens[2..] == [Said("k")];
    PrefixIs();
    ReadyAfter(q1, q2, -1);
    KeysKept(q1, q2);
    q := OpenGets(At(FlowStart(false), 4), false, q2, -1);
    assert q2.keys[..|q2.keys| - 1] == q0.keys[..1];
    assert q.keys == q0.keys[..1] + [Keyed(q2, Mark(4, 1, 4))] + [NoKey()];
  }

  lemma KeysKept(q: Queue, n: Queue)
    requires Steady(q, n)
    ensures |n.keys| == |q.keys| > 0 && n.keys[..|n.keys| - 1] == q.keys[..|q.keys| - 1] && !LastKey(n).required
    ensures q.levels == [] ==> n.levels == []
  {
  }

  lemma PrefixIs()
    ensures KeyPrefix(false, true) == [FlowMappingStart, Key]
  {
  }

  lemma GetsTokens(q: Queue, ps: seq<Piece>, words: seq<Token>, n: Queue)
    requires Gets(q, ps, words, true, n) && |ps| == 1
    ensures Taken(q, ps[0]) == Ok(n) && n.tokens == q.tokens + words
  {
    hide Taken;
    assert ps == [ps[0]];
    TakenOne(q, ps[0]);
  }

  // The text of a pair of a word and braces with two entries, between brackets.
  function NestedText(open: Piece, k: Piece, colon: Piece, brace: Piece, a: seq<Piece>, comma: Piece, b: seq<Piece>, unbrace: Piece, close: Piece)
    : seq<Piece>
  {
    [open] + (([k] + ([colon] + ([brace] + ((a + ([comma] + b)) + [unbrace])))) + [close])
  }

  lemma NestedPieces(open: Piece, k: Piece, colon: Piece, brace: Piece, a: Entry, comma: Piece, b: Entry, unbrace: Piece, close: Piece)
    ensures Pieces(Seq([], open, Last(Simple(Leaf([], Some(k)), colon, Map([], brace, More(a, comma, Last(b)), unbrace))), close))
         == NestedText(open, k, colon, brace, EntryPieces(a), comma, EntryPieces(b), unbrace, close)
  {
    var braces := Map([], brace, More(a, comma, Last(b)), unbrace);
    var e := Simple(Leaf([], Some(k)), colon, braces);
    BracePieces(brace, a, comma, b, unbrace);
    SimplePieces(k, colon, braces);
    BracketPieces(open, e, close);
    hide EntryPieces, Pieces;
  }

  lemma BracePieces(brace: Piece, a: Entry, comma: Piece, b: Entry, unbrace: Piece)
    ensures Pieces(Map([], brace, More(a, comma, Last(b)), unbrace)) == [brace] + ((EntryPieces(a) + ([comma] + EntryPieces(b))) + [unbrace])
  {
    hide EntryPieces;
    assert RowPieces(Last(b)) == EntryPieces(b);
    var x := [brace] + ((EntryPieces(a) + ([comma] + EntryPieces(b))) + [unbrace]);
    assert [] + x == x;
  }

  lemma BracketPieces(open: Piece, e: Entry, close: Piece)
    ensures Pieces(Seq([], open, Last(e), close)) == [open] + (EntryPieces(e) + [close])
  {
    hide EntryPieces;
    assert RowPieces(Last(e)) == EntryPieces(e);
    assert [] + ([open] + (EntryPieces(e) + [close])) == [open] + (EntryPieces(e) + [close]);
  }

  lemma SimplePieces(k: Piece, colon: Piece, v: Form)
    ensures EntryPieces(Simple(Leaf([], Some(k)), colon, v)) == [k] + ([colon] + Pieces(v))
  {
    assert Pieces(Leaf([], Some(k))) == [k] by {
      assert [] + [k] == [k];
    }
    hide Pieces;
  }

  lemma NestedTaken(q0: Queue, q1: Queue, q2: Queue, q3: Queue, q4: Queue, q5: Queue, q6: Queue, q7: Queue, n: Queue,
                    open: Piece, k: Piece, colon: Piece, brace: Piece, a: seq<Piece>, comma: Piece, b: seq<Piece>, unbrace: Piece, close: Piece)
    requires Taken(Begin(), open) == Ok(q0) && Taken(q0, k) == Ok(q1) && Taken(q1, colon) == Ok(q2) && Taken(q2, brace) == Ok(q3)
    requires TakenAll(q3, a) == Ok(q4) && Taken(q4, comma) == Ok(q5) && TakenAll(q5, b) == Ok(q6)
    requires Taken(q6, unbrace) == Ok(q7) && Taken(q7, close) == Ok(n)
    ensures TakenAll(Begin(), NestedText(open, k, colon, brace, a, comma, b, unbrace, close)) == Ok(n)
  {
    hide Taken, Begin, TakenAll;
    var row := a + ([comma] + b);
    var braces := [brace] + (row + [unbrace]);
    var pair := [k] + ([colon] + braces);
    TakenOne(Begin(), open);
    TakenOne(q0, k);
    TakenOne(q1, colon);
    TakenOne(q2, brace);
    TakenOne(q4, comma);
    TakenOne(q6, unbrace);
    TakenOne(q7, close);
    TakenJoin(q4, [comma], b);
    TakenJoin(q3, a, [comma] + b);
    TakenJoin(q3, row, [unbrace]);
    TakenJoin(q2, [brace], row + [unbrace]);
    TakenJoin(q1, [colon], braces);
    TakenJoin(q0, [k], [colon] + braces);
    TakenJoin(q0, pair, [close]);
    TakenJoin(Begin(), [open], pair + [close]);
  }

  lemma CommaPieces()
    ensures Pieces(CommaInBraces())
         == NestedText(At(FlowStart(true), 0), At(Lexeme.Plain(Said("k"), false), 1), At(Colon, 2), At(FlowStart(false), 4),
                       EntryPieces(Pair("a", 5, "1")), At(Lexeme.Comma, 9), EntryPieces(Pair("b", 11, "2")), At(FlowEnd(false), 15),
                       At(FlowEnd(true), 16))
  {
    hide At, EntryPieces, Pieces, Pair, Said, CommaInBraces, NestedText;
    CommaIs();
    NestedPieces(At(FlowStart(true), 0), At(Lexeme.Plain(Said("k"), false), 1), At(Colon, 2), At(FlowStart(false), 4), Pair("a", 5, "1"),
                 At(Lexeme.Comma, 9), Pair("b", 11, "2"), At(FlowEnd(false), 15), At(FlowEnd(true), 16));
  }

  lemma CommaIs()
    ensures CommaInBraces() ==
            Seq([], At(FlowStart(true), 0),
                Last(Simple(Leaf([], Some(At(Lexeme.Plain(Said("k"), false), 1))), At(Colon, 2),
                            Map([], At(FlowStart(false), 4), More(Pair("a", 5, "1"), At(Lexeme.Comma, 9), Last(Pair("b", 11, "2"))),
                                At(FlowEnd(false), 15)))),
                At(FlowEnd(true), 16))
  {
  }

  // From there on: the `,` ends the pair, and `b` begins another.
  lemma PairEnded(q: Queue) returns (q1: Queue, q2: Queue, q3: Queue, q4: Queue, n: Queue)
    requires AtEntry(q, -1) && q.flow == 2 && q.levels == [] && q.inMapping && q.implicit == [true]
    requires |q.keys| == 3 && !q.keys[0].required && !q.keys[1].required
    ensures TakenAll(q, EntryPieces(Pair("a", 5, "1"))) == Ok(q1) && Taken(q1, At(Lexeme.Comma, 9)) == Ok(q2)
    ensures TakenAll(q2, EntryPieces(Pair("b", 11, "2"))) == Ok(q3) && Taken(q3, At(FlowEnd(false), 15)) == Ok(q4)
    ensures Taken(q4, At(FlowEnd(true), 16)) == Ok(n)
    ensures n.flow == 0 && n.levels == [] && n.indent == -1 && |n.keys| == 1 && !n.keys[0].required
    ensures n.tokens == q.tokens + EntryWords(Pair("a", 5, "1"), true) + [FlowMappingEnd, FlowEntry] + EntryWords(Pair("b", 11, "2"), false)
                        + [FlowMappingEnd] + [FlowMappingEnd] + [FlowSequenceEnd]
  {
    hide Taken, TakenAll, EntryWords, EntryPieces, Gets, Steady, Pair;
    var a, b := Pair("a", 5, "1"), Pair("b", 11, "2");
    PairFits("a", 5, "1", false, true, true);
    PairFits("b", 11, "2", true, false, false);
    q1 := EntryGets(a, q, -1, false);
    GetsAll(q, EntryPieces(a), EntryWords(a, true), q1);
    EntryInBraces(q, a, q1, -1);
    q2 := CommaGets(At(Lexeme.Comma, 9), q1, -1);
    CommaEnds(q, q1, q2);
    q3 := EntryGets(b, q2, -1, true);
    GetsAll(q2, EntryPieces(b), EntryWords(b, false), q3);
    EntryInBrackets(q2, b, q3, -1);
    q4 := CloseGets(At(FlowEnd(false), 15), false, q3, -1);
    SteadyTwice(q, q1, q2);
    SteadyTwice(q, q2, q3);
    BraceLeft(q, q3, q4);
    n := CloseGets(At(FlowEnd(true), 16), true, q4, -1);
    Ended(q, q4, n);
  }

  lemma GetsAll(q: Queue, ps: seq<Piece>, words: seq<Token>, n: Queue)
    requires Gets(q, ps, words, true, n)
    ensures TakenAll(q, ps) == Ok(n) && n.tokens == q.tokens + words
  {
  }

  lemma CommaEnds(q: Queue, q1: Queue, q2: Queue)
    requires AtEntry(q, -1) && q.implicit == [true] && Steady(q, q1) && q1.implicit == q.implicit && Ready(q1, -1) && q1.inMapping
    requires Steady(q1, q2) && Separated(q1, q2) && q2.allowed && !LastKey(q2).possible
    ensures AtEntry(q2, -1) && q2.implicit == [false] && !q2.inMapping && q2.flow == q.flow
    ensures q2.tokens == q1.tokens + [FlowMappingEnd, FlowEntry]
  {
    assert q1.tokens + [FlowMappingEnd] + [FlowEntry] == q1.tokens + [FlowMappingEnd, FlowEntry];
  }

  lemma BraceLeft(q: Queue, q3: Queue, q4: Queue)
    requires |q.keys| == 3 && !q.keys[0].required && !q.keys[1].required && q.flow == 2 && q.levels == []
    requires Steady(q, q3) && Ready(q3, -1) && Closed(q3, false, q4) && q3.implicit == [true]
    ensures Ready(q4, -1) && q4.flow == 1 && q4.levels == [] && q4.implicit == [true] && InsideImplicit(q4)
    ensures q4.keys == q.keys[..2]
  {
  }

  lemma Ended(q: Queue, q4: Queue, n: Queue)
    requires |q.keys| == 3 && !q.keys[0].required && q4.keys == q.keys[..2] && q4.flow == 1 && q4.levels == []
    requires Ready(q4, -1) && Closed(q4, true, n)
    ensures n.flow == 0 && n.levels == [] && n.indent == -1 && |n.keys| == 1 && !n.keys[0].required
  {
  }

  lemma BraceWords(members: Written.Members)
    ensures Written.Words(Written.FlowMap(NoProps, members)) == [FlowMappingStart] + (Written.FirstMemberWords(members) + [FlowMappingEnd])
  {
    hide Written.FirstMemberWords;
    assert Written.PropWords(NoProps) == [];
    var x := [FlowMappingStart] + (Written.FirstMemberWords(members) + [FlowMappingEnd]);
    assert [] + x == x;
  }

  lemma BracketWords(n: Written.Node)
    ensures Written.Words(Written.FlowSeq(NoProps, Written.Item(n, Written.NoCells))) == [FlowSequenceStart] + (Written.Words(n) + [FlowSequenceEnd])
  {
    hide Written.PropWords;
    NothingInFront();
    var w := Written.Words(n);
    assert Written.FirstCellWords(Written.Item(n, Written.NoCells)) == w by {
      assert w + [] == w;
    }
    var x := [FlowSequenceStart] + (w + [FlowSequenceEnd]);
    assert [] + x == x;
  }

  lemma NothingInFront()
    ensures Written.PropWords(NoProps) == []
  {
  }

  lemma TwoMembers(k: Written.Node, x: Written.Node, y: Written.Node)
    ensures Written.FirstMemberWords(Written.Member(Written.KeyAndValue, k, x, Written.Lone(y, Written.NoMembers)))
         == [Key] + (Written.Words(k) + ([Value] + Written.Words(x))) + ([FlowEntry] + Written.Words(y))
  {
    hide Written.Words;
    assert Written.MemberWords(Written.Lone(y, Written.NoMembers)) == [FlowEntry] + Written.Words(y) by {
      assert Written.Words(y) + [] == Written.Words(y);
    }
  }

  // What the pieces give and what the tree says, grouped alike.
  lemma GroupWords(ss: seq<Token>, f: seq<Token>, m: seq<Token>, k: seq<Token>, w: seq<Token>, v: seq<Token>, a: seq<Token>, e: seq<Token>,
                   c: seq<Token>, b: seq<Token>, s: seq<Token>)
    ensures (ss + f + m + k + w + v + m) + a + (e + c) + (m + b) + e + e + s
         == ss + (f + ((m + ((k + (w + (v + (m + (a + e)))) + (c + (m + (b + e)))) + e)) + s))
  {
    var x, y := m + (a + e), c + (m + (b + e));
    assert (ss + f + m + k + w + v + m) + a + (e + c) + (m + b) + e == (ss + f + m + k + w + v) + x + y;
    assert (ss + f + m + k + w + v) + x + y + e + s == ss + (f + ((m + ((k + (w + (v + x)) + y) + e)) + s));
  }

  lemma TakenForWords()
    ensures Written.Words(TakenFor())
         == [FlowSequenceStart] + (([FlowMappingStart] + (([Key] + ([Said("k")] + ([Value] + Written.Words(Braced("a", "1"))))
            + ([FlowEntry] + Written.Words(Braced("b", "2")))) + [FlowMappingEnd])) + [FlowSequenceEnd])
  {
    hide Braced, Named, Written.Words, Written.FirstMemberWords, Word;
    WordIs("k", 1, false);
    var lone := Written.Lone(Braced("b", "2"), Written.NoMembers);
    var member := Written.Member(Written.KeyAndValue, Named("k"), Braced("a", "1"), lone);
    TwoMembers(Named("k"), Braced("a", "1"), Braced("b", "2"));
    BraceWords(member);
    BracketWords(Written.FlowMap(NoProps, member));
  }

  lemma BracedWords(k: string, v: string)
    ensures Written.Words(Braced(k, v)) == [FlowMappingStart] + ([Key, Said(k), Value, Said(v)] + [FlowMappingEnd])
  {
    WordIs(k, 0, false);
    WordIs(v, 0, false);
    MapWords(Written.KeyAndValue, Named(k), Named(v));
    hide Written.Words, Named;
    assert [Key] + ([Said(k)] + ([Value] + [Said(v)])) == [Key, Said(k), Value, Said(v)];
  }

  // `[k: {a: 1, b: 2}]` fits, its braces stand in a pair, and its tokens are those of
  // `[{k: {a: 1}, {b: 2}: }]`, which the parser reads without an error.
  lemma CommaEndsPair(keepTags: bool)
    ensures IsRoot(CommaInBraces()) && !Good(CommaInBraces(), false, false)
    ensures var r := Eager(Begin(), Pieces(CommaInBraces()));
            var docs := DocumentOf(TakenFor());
            && r.Ok? && r.value.tokens == Written.StreamWords(0, docs)
            && (forall i | 0 <= i < |docs| :: Written.AllDirectives(docs[i].directives))
            && var m := ParserRun.Fresh(r.value.tokens, keepTags, None);
               var run := ParserRun.RunFrom(m, false);
               run.error.None? && run == StreamMeans.RunOf(Written.MeanStream(docs, m.env, false))
  {
    hide Taken, Eager, Begin, ParserRun.RunFrom, Written.MeanStream, Written.StreamWords, CommaInBraces, Pieces, TakenAll, IsRoot, Good,
         Written.Words, TakenFor, Said, AtEntry, DocumentOf;
    CommaIsRoot();
    var ps := Pieces(CommaInBraces());
    NoEndThere(CommaInBraces());
    EagerIs(Begin(), ps);
    var n := CommaTaken();
    RootEnds(n);
    RootWords(TakenFor());
    TakenForRead(keepTags);
  }

  lemma CommaTaken() returns (n: Queue)
    ensures TakenAll(Begin(), Pieces(CommaInBraces())) == Ok(n) && n.tokens == [Token.StreamStart] + Written.Words(TakenFor())
    ensures n.flow == 0 && n.levels == [] && n.indent == -1 && |n.keys| == 1 && !n.keys[0].required
  {
    hide Taken, Begin, CommaInBraces, Pieces, TakenAll, Written.Words, TakenFor, Said, AtEntry, EntryWords, EntryPieces, NestedText, Pair, At;
    var q0, q1, q2, q := PairBegun();
    var q4, q5, q6, q7, m := PairEnded(q);
    n := m;
    CommaPieces();
    NestedTaken(q0, q1, q2, q, q4, q5, q6, q7, n, At(FlowStart(true), 0), At(Lexeme.Plain(Said("k"), false), 1), At(Colon, 2),
                At(FlowStart(false), 4), EntryPieces(Pair("a", 5, "1")), At(Lexeme.Comma, 9), EntryPieces(Pair("b", 11, "2")),
                At(FlowEnd(false), 15), At(FlowEnd(true), 16));
    SameTokens(q.tokens, n.tokens, EntryWords(Pair("a", 5, "1"), true), EntryWords(Pair("b", 11, "2"), false));
  }

  lemma SameTokens(t: seq<Token>, u: seq<Token>, a: seq<Token>, b: seq<Token>)
    requires t == [Token.StreamStart, FlowSequenceStart, FlowMappingStart, Key, Said("k"), Value, FlowMappingStart]
    requires a == EntryWords(Pair("a", 5, "1"), true) && b == EntryWords(Pair("b", 11, "2"), false)
    requires u == t + a + [FlowMappingEnd, FlowEntry] + b + [FlowMappingEnd] + [FlowMappingEnd] + [FlowSequenceEnd]
    ensures u == [Token.StreamStart] + Written.Words(TakenFor())
  {
    hide Written.Words, TakenFor, EntryWords, Pair, Braced;
    PairFits("a", 5, "1", false, true, true);
    PairFits("b", 11, "2", true, false, false);
    TakenForWords();
    BracedWords("a", "1");
    BracedWords("b", "2");
    var wa, wb := [Key, Said("a"), Value, Said("1")], [Key, Said("b"), Value, Said("2")];
    assert a == wa by { assert [] + wa == wa; }
    Spelled(t);
    GroupWords([Token.StreamStart], [FlowSequenceStart], [FlowMappingStart], [Key], [Said("k")], [Value], wa, [FlowMappingEnd], [FlowEntry], wb,
               [FlowSequenceEnd]);
  }

  lemma Spelled(t: seq<Token>)
    requires t == [Token.StreamStart, FlowSequenceStart, FlowMappingStart, Key, Said("k"), Value, FlowMappingStart]
    ensures t == [Token.StreamStart] + [FlowSequenceStart] + [FlowMappingStart] + [Key] + [Said("k")] + [Value] + [FlowMappingStart]
    ensures [FlowMappingEnd, FlowEntry] == [FlowMappingEnd] + [FlowEntry]
  {
  }

  lemma CommaIsRoot()
    ensures IsRoot(CommaInBraces()) && !Good(CommaInBraces(), false, false)
  {
    WordIs("k", 1, false);
    WordPlain("k", 1, false, false);
    BracesFit();
    NestedFits(CommaInBraces().row.entry);
    hide Word, Pair, Fits, Good;
    RootIs(At(FlowStart(true), 0), CommaInBraces().row.entry, At(FlowEnd(true), 16));
  }

  lemma NestedFits(e: Entry)
    requires e.Simple? && Fits(e.key, -1) && Depth(e.key) == 0 && !e.key.Missing? && !Flag(e.key, false)
    requires e.colon == At(Colon, 2) && First(e.key).mark.line == 1
    requires Fits(e.value, -1) && Depth(e.value) == 1 && !Good(e.value, false, true)
    ensures FitsEntry(e, -1, true) && EntryDepth(e) == 1 && !GoodEntry(e, false, false)
  {
    hide Fits, Depth, Good, Flag, First;
  }

  lemma RootIs(open: Piece, e: Entry, close: Piece)
    requires open == At(FlowStart(true), 0) && close.lexeme == FlowEnd(true) && Clear(close, -1)
    requires FitsEntry(e, -1, true) && EntryDepth(e) <= 200
    ensures var f := Seq([], open, Last(e), close); IsRoot(f) && (Good(f, false, false) <==> GoodEntry(e, false, false))
  {
    hide FitsEntry, EntryDepth, GoodEntry;
    assert RowDepth(Last(e)) == EntryDepth(e) && FitsRow(Last(e), -1, true) == FitsEntry(e, -1, true);
    assert GoodCells(Last(e), false) == GoodEntry(e, false, false);
    assert FitsProps([], -1);
  }

  lemma BracesFit()
    ensures var braces := CommaInBraces().row.entry.value; Fits(braces, -1) && Depth(braces) == 1 && !Good(braces, false, true)
  {
    PairFits("a", 5, "1", false, true, true);
    PairFits("b", 11, "2", false, true, true);
    hide Pair, EntryWords;
    TwoEntries(Pair("a", 5, "1"), At(Lexeme.Comma, 9), Pair("b", 11, "2"));
    hide FitsEntry, EntryDepth, GoodEntry;
    BracesOf(At(FlowStart(false), 4), More(Pair("a", 5, "1"), At(Lexeme.Comma, 9), Last(Pair("b", 11, "2"))), At(FlowEnd(false), 15));
  }

  lemma TwoEntries(a: Entry, comma: Piece, b: Entry)
    requires comma == At(Lexeme.Comma, 9) && FitsEntry(a, -1, false) && FitsEntry(b, -1, false) && EntryDepth(a) == 0 && EntryDepth(b) == 0
    ensures var r := More(a, comma, Last(b)); FitsRow(r, -1, false) && RowDepth(r) == 0 && !GoodMembers(r, true)
  {
    hide FitsEntry, EntryDepth, GoodEntry;
    assert FitsRow(Last(b), -1, false) && RowDepth(Last(b)) == 0;
  }

  lemma BracesOf(open: Piece, r: Row, close: Piece)
    requires open == At(FlowStart(false), 4) && close == At(FlowEnd(false), 15)
    requires FitsRow(r, -1, false) && RowDepth(r) == 0 && !GoodMembers(r, true)
    ensures var f := Map([], open, r, close); Fits(f, -1) && Depth(f) == 1 && !Good(f, false, true)
  {
    hide FitsRow, RowDepth, GoodMembers;
  }

  lemma TakenForRead(keepTags: bool)
    ensures var docs := DocumentOf(TakenFor());
            && (forall i | 0 <= i < |docs| :: Written.AllDirectives(docs[i].directives))
            && var m := ParserRun.Fresh(Written.StreamWords(0, docs), keepTags, None);
               var run := ParserRun.RunFrom(m, false);
               run.error.None? && run == StreamMeans.RunOf(Written.MeanStream(docs, m.env, false))
  {
    hide ParserRun.RunFrom, Written.MeanStream, Written.StreamWords;
    var docs := DocumentOf(TakenFor());
    assert docs[1..] == [];
    TakenForIs();
    StreamMeans.StreamReadExactly(0, docs, keepTags, None);
    assert Written.LostIn(docs[1..]) == 0;
    assert Written.AllClean(docs) by {
      assert docs[0].root == TakenFor();
    }
    var env := ParserRun.Fresh(Written.StreamWords(0, docs), keepTags, None).env;
    StreamMeans.OneDocument(TakenFor(), env, false);
    TakenForMeans(StreamMeans.RootEnv(env));
  }

  lemma TakenForIs()
    ensures Written.Flows(TakenFor()) && Written.Clean(TakenFor()) && Written.Lost(TakenFor()) == 0
    ensures Written.DocumentsFit(DocumentOf(TakenFor()), true)
  {
    var b := Braced("b", "2");
    assert Written.Flows(b) && Written.Clean(b) && Written.Lost(b) == 0;
    var lone := Written.Lone(b, Written.NoMembers);
    assert Written.MembersFlow(lone) && Written.CleanMembers(lone) && Written.LostMembers(lone) == 0;
    assert DocumentOf(TakenFor())[1..] == [];
  }

  lemma TakenForMeans(env: ParserStep.Env)
    ensures Written.Mean(TakenFor(), env, false).verdict.Ok?
  {
    BracedMeans("a", "1", env);
    BracedMeans("b", "2", env);
    NamedMeans("k", env);
    hide Braced, Named;
    assert Written.MeanProps(NoProps, env) == Ok((ParserStep.Properties(NoAnchor, None), env));
    var lone := Written.Lone(Braced("b", "2"), Written.NoMembers);
    assert Written.MeanMembers(lone, env, false).verdict == Ok(env);
    var member := Written.Member(Written.KeyAndValue, Named("k"), Braced("a", "1"), lone);
    assert Written.MeanMembers(member, env, false).verdict == Ok(env);
    assert Written.Mean(Written.FlowMap(NoProps, member), env, false).verdict == Ok(env);
  }

  lemma NamedMeans(k: string, env: ParserStep.Env)
    ensures Written.Mean(Named(k), env, false).verdict == Ok(env)
  {
    assert Written.MeanProps(NoProps, env) == Ok((ParserStep.Properties(NoAnchor, None), env));
  }

  lemma BracedMeans(k: string, v: string, env: ParserStep.Env)
    ensures Written.Mean(Braced(k, v), env, false).verdict == Ok(env)
  {
    NamedMeans(k, env);
    NamedMeans(v, env);
    MapMeans(Written.KeyAndValue, Named(k), Named(v), env);
  }
}
