// Streams of documents, from their text to their events: directives, markers, and roots that are block
// collections, flow collections or scalars (crates/yamluna-scanner/src/scanner.rs,
// crates/yamluna-scanner/src/parser.rs).
module BlockStream {
  import opened Results
  import opened ScalarEmitter
  import opened Events
  import opened TokenBalance
  import opened TokenSteps
  import opened FlowText
  import opened FlowTokens
  import opened FlowReads
  import opened BlockForms
  import opened BlockReads
  import opened BlockWords
  import opened BlockTree
  import FlowStream
  import ParserRun
  import ParserStep
  import StreamMeans
  import Written

  // A document: its directive lines, its `---`, its root, and the `...` behind it.
  datatype Doc = Doc(directives: seq<Piece>, marker: Option<Piece>, root: Shape, ends: seq<Piece>)

  // ------------------------------------------------------------------ the text

  function MarkerPieces(d: Doc): seq<Piece> {
    if d.marker.Some? then [d.marker.value] else []
  }

  function DocsPieces(docs: seq<Doc>): seq<Piece>
    decreases |docs|
  {
    if docs == [] then []
    else (docs[0].directives + MarkerPieces(docs[0])) + (ShapePieces(docs[0].root) + (docs[0].ends + DocsPieces(docs[1..])))
  }

  // ------------------------------------------------------------------ what may be written where

  predicate IsDirectivePiece(p: Piece) {
    Alone(p) && p.lexeme.Directive? && ParserStep.IsDirective(p.lexeme.token)
  }

  predicate IsMarker(p: Piece, t: Token) {
    Alone(p) && p.lexeme == Lexeme.DocumentMarker(t)
  }

  predicate AreEnds(ps: seq<Piece>) {
    forall i | 0 <= i < |ps| :: IsMarker(ps[i], Token.DocumentEnd)
  }

  // `free` is whether nothing stands in front of the document, not even a marker.
  predicate FitsDoc(d: Doc, free: bool) {
    && (forall i | 0 <= i < |d.directives| :: IsDirectivePiece(d.directives[i]))
    && (d.marker.Some? ==> IsMarker(d.marker.value, Token.DocumentStart)) && AreEnds(d.ends)
    && (d.marker.None? ==> d.directives == [] && !(d.root.InFlow? && d.root.form.Missing?))
    && FitsShape(d.root, -1, false, free && d.marker.None?)
  }

  // `idle` is whether no document is open in front of these.
  predicate FitsDocs(docs: seq<Doc>, free: bool, idle: bool)
    decreases |docs|
  {
    docs != [] ==>
      && FitsDoc(docs[0], free) && (!idle ==> docs[0].marker.Some? && docs[0].directives == [])
      && FitsDocs(docs[1..], false, docs[0].ends != [])
  }

  predicate GoodDocs(docs: seq<Doc>, m: bool)
    decreases |docs|
  {
    docs != [] ==> GoodShape(docs[0].root, m) && GoodDocs(docs[1..], FlagOf(docs[0].root, m))
  }

  // ------------------------------------------------------------------ the trees

  function TokensIn(ps: seq<Piece>): seq<Token> {
    if ps == [] then []
    else [if AtMargin(ps[0].lexeme) then ps[0].lexeme.token else Token.StreamEnd] + TokensIn(ps[1..])
  }

  function DocumentOf(d: Doc, m: bool): Written.Document {
    Written.Document(TokensIn(d.directives), d.marker.Some?, TreeOf(d.root, -1, m), |d.ends|)
  }

  function Documents(docs: seq<Doc>, m: bool): (r: seq<Written.Document>)
    ensures |r| == |docs|
    decreases |docs|
  {
    if docs == [] then [] else [DocumentOf(docs[0], m)] + Documents(docs[1..], FlagOf(docs[0].root, m))
  }

  lemma {:induction false} DirectivesIn(ps: seq<Piece>)
    requires forall i | 0 <= i < |ps| :: IsDirectivePiece(ps[i])
    ensures Written.AllDirectives(TokensIn(ps)) && (TokensIn(ps) == [] <==> ps == [])
    decreases |ps|
  {
    if ps != [] {
      assert IsDirectivePiece(ps[0]);
      assert forall i | 0 <= i < |ps[1..]| :: ps[1..][i] == ps[i + 1];
      DirectivesIn(ps[1..]);
    }
  }

  lemma {:induction false} EndsIn(ps: seq<Piece>)
    requires AreEnds(ps)
    ensures TokensIn(ps) == Written.Ends(|ps|)
    decreases |ps|
  {
    if ps != [] {
      assert IsMarker(ps[0], Token.DocumentEnd);
      EndsIn(ps[1..]);
    }
  }

  lemma {:induction false} DocumentsStand(docs: seq<Doc>, m: bool, free: bool, idle: bool)
    requires FitsDocs(docs, free, idle)
    ensures Written.DocumentsFit(Documents(docs, m), idle)
    decreases |docs|
  {
    hide FitsShape, TreeOf, Written.Blocks;
    if docs != [] {
      var d := docs[0];
      DirectivesIn(d.directives);
      ShapeBlocks(d.root, m, -1, false, free && d.marker.None?);
      DocumentsStand(docs[1..], FlagOf(d.root, m), false, d.ends != []);
      assert Documents(docs, m)[1..] == Documents(docs[1..], FlagOf(d.root, m));
    }
  }

  // ------------------------------------------------------------------ reading documents

  // With nothing open: where a root may begin.
  predicate Idle(q: Queue, free: bool) {
    Stands(q, Bottom) && !q.keys[0].possible && q.allowed == free
  }

  // Directives and markers.
  lemma {:induction false} MarginsGive(ps: seq<Piece>, q: Queue) returns (n: Queue)
    requires Pending(q, Bottom) && forall i | 0 <= i < |ps| :: Alone(ps[i]) && AtMargin(ps[i].lexeme)
    ensures Gives(q, Bottom, ps, TokensIn(ps), true, n, Bottom) && n.inMapping == q.inMapping
    ensures if ps == [] then n == q else Idle(n, false)
    decreases |ps|
  {
    hide Pending, Gives, Stands, Taken, Ended, Indicated;
    if ps == [] {
      n := q;
      GivesNone(q, Bottom);
    } else {
      var p := ps[0];
      var m := MarginGets(q, p, p.lexeme.token);
      MarginIdle(q, p, m);
      assert forall i | 0 <= i < |ps[1..]| :: ps[1..][i] == ps[i + 1];
      n := MarginsGive(ps[1..], m);
      GivesBoth(q, Bottom, [p], [p.lexeme.token], true, m, Bottom, ps[1..], TokensIn(ps[1..]), true, n, Bottom);
      assert ps == [p] + ps[1..];
    }
  }

  lemma MarginIdle(q: Queue, p: Piece, m: Queue)
    requires AtMargin(p.lexeme) && Taken(q, p) == Ok(m) && Indicated(Ended(q, Bottom), [p.lexeme.token], false, Bottom, m)
    ensures Gives(q, Bottom, [p], [p.lexeme.token], true, m, Bottom) && Idle(m, false) && Pending(m, Bottom) && m.inMapping == q.inMapping
  {
    hide Taken, Ended, Gives;
    PieceGives(q, Bottom, p, [p.lexeme.token], false, m, Bottom);
    GivesPending(q, Bottom, [p], [p.lexeme.token], m);
    EndedFlag(q, Bottom);
  }

  lemma IdleOpens(q: Queue, free: bool) returns (last: Piece)
    requires Idle(q, free)
    ensures Opening(q, Bottom, free, last) && Pending(q, Bottom)
  {
    last := AtEnd(q.mark);
    StandsPending(q, Bottom);
  }

  // What stands in front of a root.
  lemma HeadGives(d: Doc, q: Queue, free: bool, idle: bool) returns (n: Queue)
    requires FitsDoc(d, free) && Pending(q, Bottom) && (idle ==> Idle(q, free)) && (!idle ==> d.marker.Some?)
    ensures var tokens := TokensIn(d.directives) + Written.Opening(DocumentOf(d, q.inMapping));
            Gives(q, Bottom, d.directives + MarkerPieces(d), tokens, true, n, Bottom)
    ensures Idle(n, free && d.marker.None?) && n.inMapping == q.inMapping
  {
    hide Pending, Gives, Stands, FitsShape, TreeOf;
    var ps := d.directives + MarkerPieces(d);
    forall i | 0 <= i < |ps| ensures Alone(ps[i]) && AtMargin(ps[i].lexeme) {
      if i < |d.directives| {
        assert IsDirectivePiece(d.directives[i]);
      }
    }
    n := MarginsGive(ps, q);
    InJoin(d.directives, MarkerPieces(d));
    assert TokensIn(MarkerPieces(d)) == if d.marker.Some? then [Token.DocumentStart] else [];
  }

  lemma {:induction false} InJoin(a: seq<Piece>, b: seq<Piece>)
    ensures TokensIn(a + b) == TokensIn(a) + TokensIn(b)
    decreases |a|
  {
    if a == [] {
      assert a + b == b;
    } else {
      assert (a + b)[1..] == a[1..] + b;
      InJoin(a[1..], b);
    }
  }

  // The words of documents, but for the end of the stream.
  function BodyWords(docs: seq<Written.Document>): seq<Token>
    decreases |docs|
  {
    if docs == [] then []
    else
      var d := docs[0];
      (d.directives + Written.Opening(d)) + (Written.Words(d.root) + (Written.Closing(d) + BodyWords(docs[1..])))
  }

  lemma {:induction false} BodyEnds(docs: seq<Written.Document>)
    ensures Written.DocumentWords(docs) == BodyWords(docs) + [Token.StreamEnd]
    decreases |docs|
  {
    hide Written.Words;
    if docs != [] {
      BodyEnds(docs[1..]);
      var d := docs[0];
      Regroup(d.directives, Written.Opening(d), Written.Words(d.root), Written.Closing(d), BodyWords(docs[1..]));
    }
  }

  lemma Regroup(a: seq<Token>, b: seq<Token>, c: seq<Token>, d: seq<Token>, e: seq<Token>)
    ensures a + (b + (c + (d + (e + [Token.StreamEnd])))) == (a + b) + (c + (d + e)) + [Token.StreamEnd]
  {
  }

  lemma {:induction false} DocsGive(docs: seq<Doc>, q: Queue, free: bool, idle: bool) returns (n: Queue)
    requires FitsDocs(docs, free, idle) && Pending(q, Bottom) && (idle ==> Idle(q, free))
    ensures Gives(q, Bottom, DocsPieces(docs), BodyWords(Documents(docs, q.inMapping)), GoodDocs(docs, q.inMapping), n, Bottom)
    decreases |docs|
  {
    hide Pending, Gives, Stands, FitsShape, TreeOf, Written.Words, Idle, FitsDoc, GoodShape, ShapePieces, FlagOf, Opening, Done,
         Written.Opening, TokensIn, MarkerPieces, AreEnds, Written.Ends;
    if docs == [] {
      n := q;
      GivesNone(q, Bottom);
    } else {
      var d, m := docs[0], q.inMapping;
      var head := TokensIn(d.directives) + Written.Opening(DocumentOf(d, m));
      var words := Written.Words(TreeOf(d.root, -1, m));
      var rest := Written.Closing(DocumentOf(d, m)) + BodyWords(Documents(docs[1..], FlagOf(d.root, m)));
      var n0 := HeadGives(d, q, free, idle);
      var last := IdleOpens(n0, free && d.marker.None?);
      DocFits(d, free);
      var n1 := ShapeGives(d.root, n0, Bottom, false, free && d.marker.None?, last);
      n := n1;
      if GoodShape(d.root, m) {
        n := RestGives(docs, n1, n0, words);
      }
      GivesBoth(n0, Bottom, ShapePieces(d.root), words, GoodShape(d.root, m), n1, Bottom, d.ends + DocsPieces(docs[1..]), rest,
                GoodDocs(docs[1..], FlagOf(d.root, m)), n, Bottom);
      GivesBoth(q, Bottom, d.directives + MarkerPieces(d), head, true, n0, Bottom, ShapePieces(d.root) + (d.ends + DocsPieces(docs[1..])),
                words + rest, GoodDocs(docs, m), n, Bottom);
      FirstBody(docs, m);
    }
  }

  lemma FirstBody(docs: seq<Doc>, m: bool)
    requires docs != []
    ensures var d := docs[0];
            BodyWords(Documents(docs, m))
            == (TokensIn(d.directives) + Written.Opening(DocumentOf(d, m)))
               + (Written.Words(TreeOf(d.root, -1, m))
                  + (Written.Closing(DocumentOf(d, m)) + BodyWords(Documents(docs[1..], FlagOf(d.root, m)))))
  {
    hide TreeOf, Written.Words, FlagOf, TokensIn, Written.Opening, Written.Closing;
    assert Documents(docs, m)[1..] == Documents(docs[1..], FlagOf(docs[0].root, m));
  }

  lemma DocFits(d: Doc, free: bool)
    requires FitsDoc(d, free)
    ensures FitsShape(d.root, Bottom.indent, false, free && d.marker.None?) && AreEnds(d.ends)
  {
  }

  // Behind a root: the `...` that close it, and the documents that follow.
  lemma {:induction false} RestGives(docs: seq<Doc>, q: Queue, q0: Queue, words: seq<Token>) returns (n: Queue)
    requires docs != [] && AreEnds(docs[0].ends) && FitsDocs(docs[1..], false, docs[0].ends != [])
    requires Gives(q0, Bottom, ShapePieces(docs[0].root), words, true, q, Bottom)
    ensures Gives(q, Bottom, docs[0].ends + DocsPieces(docs[1..]), Written.Ends(|docs[0].ends|) + BodyWords(Documents(docs[1..], q.inMapping)),
                  GoodDocs(docs[1..], q.inMapping), n, Bottom)
    decreases |docs|, 0
  {
    hide Pending, Gives, Idle, ShapePieces, FitsDocs, DocsPieces, BodyWords, Documents, GoodDocs, Written.Ends;
    GivesPending(q0, Bottom, ShapePieces(docs[0].root), words, q);
    var ends := docs[0].ends;
    assert forall i | 0 <= i < |ends| :: IsMarker(ends[i], Token.DocumentEnd);
    var m := MarginsGive(ends, q);
    EndsIn(ends);
    GivesPending(q, Bottom, ends, TokensIn(ends), m);
    n := DocsGive(docs[1..], m, false, ends != []);
    GivesBoth(q, Bottom, ends, TokensIn(ends), true, m, Bottom, DocsPieces(docs[1..]), BodyWords(Documents(docs[1..], q.inMapping)),
              GoodDocs(docs[1..], q.inMapping), n, Bottom);
  }

  // ------------------------------------------------------------------ no piece ends the text

  predicate Ongoing(ps: seq<Piece>) {
    forall p | p in ps :: !p.lexeme.EndOfInput?
  }

  lemma OngoingBoth(a: seq<Piece>, b: seq<Piece>)
    requires Ongoing(a) && Ongoing(b)
    ensures Ongoing(a + b)
  {
  }

  lemma FormOngoing(f: Form, outer: int, base: int)
    requires FitsForm(f, outer, base)
    ensures Ongoing(Pieces(f))
  {
    hide RowPieces, EntryPieces, FitsRow;
    if !f.Missing? {
      FlowStream.NoEndInProps(f.props, outer);
    }
    match f {
      case Missing =>
      case Leaf(_, _) =>
      case Seq(_, _, row, _) => FlowStream.NoEndInRow(row, base, true);
      case Map(_, _, row, _) => FlowStream.NoEndInRow(row, base, false);
    }
  }

  lemma {:induction false} ShapeOngoing(s: Shape, indent: int, inMap: bool, free: bool)
    requires FitsShape(s, indent, inMap, free)
    ensures Ongoing(ShapePieces(s))
    decreases s
  {
    hide Ongoing, FitsForm, FitsProps, Ordered, Begins, ItemPieces, EntriesPieces, FitsItems, FitsEntries;
    match s {
      case InFlow(f) => FormOngoing(f, indent, indent);
      case Lines(props, p) =>
        PropsOngoing(props, indent);
        OneOngoing(p);
        OngoingBoth(props, [p]);
      case Dashes(props, items) =>
        PropsOngoing(props, indent);
        ItemsOngoing(items, items.dash.mark.col, indent);
        OngoingBoth(props, ItemPieces(items));
      case Pairs(props, entries) =>
        PropsOngoing(props, indent);
        EntriesOngoing(entries, StartOf(entries).mark.col);
        OngoingBoth(props, EntriesPieces(entries));
    }
  }

  lemma PropsOngoing(props: seq<Piece>, indent: int)
    requires FitsProps(props, indent)
    ensures Ongoing(props)
  {
    FlowStream.NoEndInProps(props, indent);
  }

  lemma OneOngoing(p: Piece)
    requires !p.lexeme.EndOfInput?
    ensures Ongoing([p])
  {
  }

  lemma {:induction false} ItemsOngoing(i: Items, col: nat, indent: int)
    requires FitsItems(i, col, indent)
    ensures Ongoing(ItemPieces(i))
    decreases i
  {
    hide Ongoing, FitsShape, ShapePieces, Fresh;
    if i.NoItems? {
      OngoingNone();
    } else {
      ShapeOngoing(i.node, col, false, true);
      ItemsOngoing(i.tail, col, col);
      OngoingBoth(ShapePieces(i.node), ItemPieces(i.tail));
      OneOngoing(i.dash);
      OngoingBoth([i.dash], ShapePieces(i.node) + ItemPieces(i.tail));
    }
  }

  lemma OngoingNone()
    ensures Ongoing([])
  {
  }

  lemma {:induction false} EntriesOngoing(e: Entries, col: nat)
    requires FitsEntries(e, col)
    ensures Ongoing(EntriesPieces(e))
    decreases e
  {
    hide Ongoing, FitsShape, ShapePieces, Pieces, Fresh, FitsForm, First, Depth;
    if e.NoEntries? {
      OngoingNone();
    } else {
      EntryParts(e, col, true);
      var v := LastNode(e);
      ShapeOngoing(v, col, true, !e.Inline?);
      EntriesOngoing(e.tail, col);
      OngoingBoth(ShapePieces(v), EntriesPieces(e.tail));
      OneOngoing(LastMark(e));
      match e {
        case Inline(k, colon, _, _) =>
          FormOngoing(k, col - 1, col);
          OngoingBoth(Pieces(k), [colon]);
        case ExplicitFor(question, k, colon, _, _) =>
          OneOngoing(question);
          ShapeOngoing(k, col, true, true);
          OngoingBoth(ShapePieces(k), [colon]);
          OngoingBoth([question], ShapePieces(k) + [colon]);
        case _ =>
      }
      OngoingBoth(FirstPieces(e), ShapePieces(v) + EntriesPieces(e.tail));
    }
  }

  lemma {:induction false} DocsOngoing(docs: seq<Doc>, free: bool, idle: bool)
    requires FitsDocs(docs, free, idle)
    ensures Ongoing(DocsPieces(docs))
    decreases |docs|
  {
    hide FitsShape, ShapePieces, Ongoing;
    if docs == [] {
      OngoingNone();
    } else {
      var d := docs[0];
      ShapeOngoing(d.root, -1, false, free && d.marker.None?);
      DocsOngoing(docs[1..], false, d.ends != []);
      MarginsOngoing(d, free);
      OngoingBoth(d.ends, DocsPieces(docs[1..]));
      OngoingBoth(ShapePieces(d.root), d.ends + DocsPieces(docs[1..]));
      OngoingBoth(d.directives + MarkerPieces(d), ShapePieces(d.root) + (d.ends + DocsPieces(docs[1..])));
    }
  }

  lemma MarginsOngoing(d: Doc, free: bool)
    requires FitsDoc(d, free)
    ensures Ongoing(d.directives + MarkerPieces(d)) && Ongoing(d.ends)
  {
    hide FitsShape;
    EndsOngoing(d.ends);
    forall p | p in d.directives + MarkerPieces(d) ensures !p.lexeme.EndOfInput? {
      if p in d.directives {
        var i :| 0 <= i < |d.directives| && d.directives[i] == p;
        assert IsDirectivePiece(d.directives[i]);
      }
    }
  }

  lemma EndsOngoing(ps: seq<Piece>)
    requires AreEnds(ps)
    ensures Ongoing(ps)
  {
    forall p | p in ps ensures !p.lexeme.EndOfInput? {
      var i :| 0 <= i < |ps| && ps[i] == p;
      assert IsMarker(ps[i], Token.DocumentEnd);
    }
  }

  // ------------------------------------------------------------------ the theorem

  // A stream: the `...` in front of everything, and the documents.
  predicate FitsStream(ends: seq<Piece>, docs: seq<Doc>) {
    AreEnds(ends) && FitsDocs(docs, ends == [], true)
  }

  lemma BeginIdle()
    ensures Idle(Begin(), true) && Pending(Begin(), Bottom) && Ended(Begin(), Bottom).tokens == [Token.StreamStart] && !Begin().inMapping
  {
    StandsPending(Begin(), Bottom);
  }

  lemma StreamGives(ends: seq<Piece>, docs: seq<Doc>) returns (n: Queue)
    requires FitsStream(ends, docs)
    ensures Gives(Begin(), Bottom, ends + DocsPieces(docs), Written.Ends(|ends|) + BodyWords(Documents(docs, false)), GoodDocs(docs, false), n, Bottom)
  {
    hide Pending, Gives, Idle, FitsDocs, DocsPieces, BodyWords, Documents, GoodDocs, Begin, Ended;
    BeginIdle();
    assert forall i | 0 <= i < |ends| :: IsMarker(ends[i], Token.DocumentEnd);
    var m := MarginsGive(ends, Begin());
    EndsIn(ends);
    GivesPending(Begin(), Bottom, ends, TokensIn(ends), m);
    n := DocsGive(docs, m, ends == [], true);
    GivesBoth(Begin(), Bottom, ends, TokensIn(ends), true, m, Bottom, DocsPieces(docs), BodyWords(Documents(docs, false)),
              GoodDocs(docs, false), n, Bottom);
  }

  lemma StreamSpelled(ends: nat, docs: seq<Written.Document>)
    ensures Written.StreamWords(ends, docs) == [Token.StreamStart] + (Written.Ends(ends) + BodyWords(docs)) + [Token.StreamEnd]
  {
    hide BodyWords, Written.Ends, Written.DocumentWords;
    BodyEnds(docs);
    var a, b := Written.Ends(ends), BodyWords(docs);
    assert [Token.StreamStart] + (a + (b + [Token.StreamEnd])) == [Token.StreamStart] + (a + b) + [Token.StreamEnd];
  }

  // Tokens that have parted from others stay apart from them.
  lemma StillApart(m: Queue, words: seq<Token>)
    requires Parted(Kept(m.tokens), Kept(words))
    ensures var e := Taken(m, AtEnd(m.mark)); e.Ok? ==> e.value.tokens != words + [Token.StreamEnd]
  {
    hide Taken, Parted, Kept;
    var e := Taken(m, AtEnd(m.mark));
    TakenAppends(m, AtEnd(m.mark));
    if e.Ok? && e.value.tokens == words + [Token.StreamEnd] {
      KeptJoin(words, [Token.StreamEnd]);
      PartedMore(Kept(m.tokens), Kept(words), Kept(e.value.tokens), Kept(words + [Token.StreamEnd]));
      PartedDiffer(Kept(e.value.tokens));
    }
  }

  lemma EagerGives(q: Queue, ps: seq<Piece>, words: seq<Token>, good: bool, n: Queue)
    requires Gives(q, Bottom, ps, words, good, n, Bottom) && Ongoing(ps)
    ensures var r := Eager(q, ps);
            r.Ok? && r.value.tokens == Ended(q, Bottom).tokens + words + [Token.StreamEnd] <==> good
  {
    hide Taken, TakenAll, Pending, Ended, Kept, Parted, Eager;
    assert forall i | 0 <= i < |ps| :: ps[i] in ps;
    FlowStream.EagerIs(q, ps);
    if good {
      EndEnds(n);
    } else if TakenAll(q, ps).Ok? {
      StillApart(TakenAll(q, ps).value, Ended(q, Bottom).tokens + words);
    }
  }

  // Over every stream of documents as it is written, the scanner's tokens are the words of its trees
  // exactly when no `,` between braces stands in a pair without braces.
  lemma TokensAreWords(ends: seq<Piece>, docs: seq<Doc>)
    requires FitsStream(ends, docs)
    ensures var r := Eager(Begin(), ends + DocsPieces(docs));
            r.Ok? && r.value.tokens == Written.StreamWords(|ends|, Documents(docs, false)) <==> GoodDocs(docs, false)
  {
    hide Gives, Eager, Begin, Ended, FitsDocs, DocsPieces, BodyWords, Documents, GoodDocs, Written.StreamWords, Ongoing, Pending, Idle;
    var n := StreamGives(ends, docs);
    EndsOngoing(ends);
    DocsOngoing(docs, ends == [], true);
    OngoingBoth(ends, DocsPieces(docs));
    EagerGives(Begin(), ends + DocsPieces(docs), Written.Ends(|ends|) + BodyWords(Documents(docs, false)), GoodDocs(docs, false), n);
    BeginIdle();
    StreamSpelled(|ends|, Documents(docs, false));
  }

  // And such a stream is read as what its trees mean exactly when no pair of a flow sequence loses what
  // stands behind it and no two pairs are taken for one; it is refused exactly when a pair does, or
  // when it means nothing.
  lemma TextRead(ends: seq<Piece>, docs: seq<Doc>, keepTags: bool)
    requires FitsStream(ends, docs) && GoodDocs(docs, false)
    ensures Eager(Begin(), ends + DocsPieces(docs)).Ok?
    ensures var trees := Documents(docs, false);
            && (forall i | 0 <= i < |trees| :: Written.AllDirectives(trees[i].directives))
            && var m := ParserRun.Fresh(Eager(Begin(), ends + DocsPieces(docs)).value.tokens, keepTags, None);
               var run, mean := ParserRun.RunFrom(m, false), Written.MeanStream(trees, m.env, false);
               && (run.error.None? <==> Written.AllClean(trees) && mean.verdict.Ok?)
               && (mean.verdict.Ok? ==>
                     (run == StreamMeans.RunOf(mean) <==> Written.AllClean(trees) && Written.LostIn(trees) == 0))
  {
    hide Eager, Begin, ParserRun.RunFrom, Written.MeanStream, Written.StreamWords, Written.AllClean, Written.LostIn, Documents, GoodDocs,
         FitsDocs, DocsPieces;
    TokensAreWords(ends, docs);
    DocumentsStand(docs, false, ends == [], true);
    StreamMeans.StreamReadExactly(|ends|, Documents(docs, false), keepTags, None);
  }

  // ------------------------------------------------------------------ a text

  // `- a: b`
  function DashThenKey(): Shape {
    Dashes([], Item(FlowStream.At(Dash(false, false), 0),
                    Pairs([], Inline(FlowStream.Word("a", 2), FlowStream.At(Colon, 3), InFlow(FlowStream.Word("b", 5)), NoEntries)),
                    NoItems))
  }

  lemma WordFits(text: string, col: nat, indent: int, base: int)
    requires indent < col
    ensures var f := FlowStream.Word(text, col);
            && FitsForm(f, indent, base) && Depth(f) == 0 && Ordered(Pieces(f)) && !f.Missing?
            && |Pieces(f)| == 1 && Pieces(f)[0] == First(f) && First(f).mark == Mark(col, 1, col)
            && Good(f, false, false) && !Flag(f, false) && Tree(f, false) == FlowStream.Named(text)
  {
  }

  lemma KeyFits(k: Form, colon: Piece)
    requires FitsForm(k, 1, 2) && Depth(k) == 0 && !k.Missing? && |Pieces(k)| == 1 && Pieces(k)[0] == First(k) && First(k).mark == Mark(2, 1, 2)
    requires colon == FlowStream.At(Colon, 3)
    ensures IsKey(k, colon, 2)
  {
    hide FitsForm, Depth, Pieces, First;
  }

  lemma PairFits()
    ensures var e := Inline(FlowStream.Word("a", 2), FlowStream.At(Colon, 3), InFlow(FlowStream.Word("b", 5)), NoEntries);
            && FitsEntries(e, 2) && StartOf(e).mark.col == 2 && GoodEntries(e, false) && !EntriesFlag(e, false)
            && EntriesOf(e, false) == Written.Entries(Written.KeyAndValue, FlowStream.Named("a"), FlowStream.Named("b"), Written.NoEntries)
  {
    WordFits("a", 2, 1, 2);
    WordFits("b", 5, 2, 2);
    KeyFits(FlowStream.Word("a", 2), FlowStream.At(Colon, 3));
    hide FlowStream.Word, Tree, FlowStream.Named, IsKey, FitsForm, Pieces, First, Depth, Good, Flag, Ordered;
    var v := InFlow(FlowStream.Word("b", 5));
    assert FitsShape(v, 2, true, false) && GoodShape(v, false) && !FlagOf(v, false) && TreeOf(v, 2, false) == FlowStream.Named("b");
  }

  lemma DashThenKeyFits()
    ensures var d := Doc([], None, DashThenKey(), []);
            && FitsStream([], [d]) && GoodDocs([d], false)
            && Documents([d], false) == FlowStream.DocumentOf(TreeOf(DashThenKey(), -1, false))
            && TreeOf(DashThenKey(), -1, false) ==
               Written.BlockSeq(FlowText.NoProps, Written.Items(Written.BlockMap(FlowText.NoProps, OnePair()), Written.NoItems))
  {
    PairFits();
    hide FlowStream.Word, FitsEntries, GoodEntries, EntriesOf, EntriesFlag, FlowStream.Named;
    var e := Inline(FlowStream.Word("a", 2), FlowStream.At(Colon, 3), InFlow(FlowStream.Word("b", 5)), NoEntries);
    assert FitsShape(Pairs([], e), 0, false, true) && GoodShape(Pairs([], e), false);
    assert FitsShape(DashThenKey(), -1, false, true) && GoodShape(DashThenKey(), false);
    var d := Doc([], None, DashThenKey(), []);
    assert [d][1..] == [];
    assert FitsDoc(d, true);
  }

  // A `-` lets a key follow on its line: `- a: b` is a sequence of one mapping.
  lemma DashThenKeyRead()
    ensures var r := Eager(Begin(), DocsPieces([Doc([], None, DashThenKey(), [])]));
            && r.Ok?
            && r.value.tokens == [Token.StreamStart, BlockSequenceStart, BlockEntry, BlockMappingStart, Key, FlowStream.Said("a"), Value,
                                  FlowStream.Said("b"), BlockEnd, BlockEnd, Token.StreamEnd]
  {
    DashThenKeyFits();
    DashThenKeyWords();
    hide *;
    var d := Doc([], None, DashThenKey(), []);
    NothingThere(DocsPieces([d]));
    TokensAreWords([], [d]);
    FlowStream.RootWords(TreeOf(DashThenKey(), -1, false));
  }

  lemma NothingThere(ps: seq<Piece>)
    ensures [] + ps == ps
  {
  }

  function OnePair(): Written.Entries {
    Written.Entries(Written.KeyAndValue, FlowStream.Named("a"), FlowStream.Named("b"), Written.NoEntries)
  }

  lemma DashThenKeyWords()
    ensures Written.Words(Written.BlockSeq(FlowText.NoProps, Written.Items(Written.BlockMap(FlowText.NoProps, OnePair()), Written.NoItems)))
         == [BlockSequenceStart, BlockEntry, BlockMappingStart, Key, FlowStream.Said("a"), Value, FlowStream.Said("b"), BlockEnd, BlockEnd]
  {
    FlowStream.WordIs("a", 2, false);
    FlowStream.WordIs("b", 5, false);
    hide FlowStream.Named;
    var a, b := [FlowStream.Said("a")], [FlowStream.Said("b")];
    assert Written.PropWords(FlowText.NoProps) == [];
    assert Written.EntryWords(OnePair()) == [Key] + (a + ([Value] + b)) + [];
    var inner := Written.BlockMap(FlowText.NoProps, OnePair());
    assert Written.Words(inner) == [] + ([BlockMappingStart] + (Written.EntryWords(OnePair()) + [BlockEnd]));
    var items := Written.Items(inner, Written.NoItems);
    assert Written.ItemWords(items) == [BlockEntry] + (Written.Words(inner) + []);
  }
}
