// Over every block collection as it is written: the scanner's tokens are the words of its tree
// (crates/yamluna-scanner/src/scanner.rs).
module BlockWords {
  import opened Results
  import opened ScalarEmitter
  import opened Events
  import opened TokenBalance
  import opened TokenSteps
  import opened FlowText
  import opened FlowTokens
  import opened FlowReads
  import opened FlowTheorem
  import opened BlockForms
  import opened BlockReads
  import opened BlockNodes
  import Written

  // ------------------------------------------------------------------ what a stretch of text gives

  // Once what is further in has ended, the pieces have given exactly the words; or, if they do not,
  // never to be made up for.
  ghost predicate Gives(q: Queue, at: Place, ps: seq<Piece>, words: seq<Token>, good: bool, n: Queue, to: Place) {
    if good then TakenAll(q, ps) == Ok(n) && Pending(n, to) && Ended(n, to).tokens == Ended(q, at).tokens + words
    else TakenAll(q, ps).Ok? ==> Parted(Kept(TakenAll(q, ps).value.tokens), Kept(Ended(q, at).tokens + words))
  }

  // What has gone wrong stays wrong.
  lemma WrongOn(q: Queue, at: Place, a: seq<Piece>, words: seq<Token>, m: Queue, mid: Place, b: seq<Piece>, all: seq<Token>, n: Queue, to: Place)
    requires Gives(q, at, a, words, false, m, mid) && Kept(words) <= Kept(all)
    ensures Gives(q, at, a + b, all, false, n, to)
  {
    hide Kept, Parted, TakenAll, Ended;
    TakenJoin(q, a, b);
    if TakenAll(q, a).Ok? && TakenAll(q, a + b).Ok? {
      var x := TakenAll(q, a).value;
      AllTakenAppends(x, b);
      KeptJoin(Ended(q, at).tokens, words);
      KeptJoin(Ended(q, at).tokens, all);
      PartedMore(Kept(x.tokens), Kept(Ended(q, at).tokens + words), Kept(TakenAll(x, b).value.tokens), Kept(Ended(q, at).tokens + all));
    }
  }

  lemma GivesMore(q: Queue, at: Place, a: seq<Piece>, words: seq<Token>, m: Queue, mid: Place,
                  b: seq<Piece>, more: seq<Token>, good: bool, n: Queue, to: Place)
    requires Gives(q, at, a, words, true, m, mid) && Gives(m, mid, b, more, good, n, to)
    ensures Gives(q, at, a + b, words + more, good, n, to)
  {
    hide Kept, Parted, TakenAll, Ended, Pending;
    TakenJoin(q, a, b);
    assert Ended(q, at).tokens + words + more == Ended(q, at).tokens + (words + more);
  }

  lemma GivesBoth(q: Queue, at: Place, a: seq<Piece>, words: seq<Token>, good: bool, m: Queue, mid: Place,
                  b: seq<Piece>, more: seq<Token>, good2: bool, n: Queue, to: Place)
    requires Gives(q, at, a, words, good, m, mid) && (good ==> Gives(m, mid, b, more, good2, n, to))
    ensures Gives(q, at, a + b, words + more, good && good2, n, to)
  {
    hide Kept, Gives;
    if good {
      GivesMore(q, at, a, words, m, mid, b, more, good2, n, to);
    } else {
      KeptJoin(words, more);
      WrongOn(q, at, a, words, m, mid, b, words + more, n, to);
    }
  }

  lemma GivesNone(q: Queue, at: Place)
    requires Pending(q, at)
    ensures Gives(q, at, [], [], true, q, at)
  {
    hide Ended, Pending;
    assert Ended(q, at).tokens + [] == Ended(q, at).tokens;
  }

  // The same words, otherwise grouped.
  lemma GivesSame(q: Queue, at: Place, a: seq<Piece>, words: seq<Token>, good: bool, n: Queue, to: Place, b: seq<Piece>, same: seq<Token>, also: bool)
    requires Gives(q, at, a, words, good, n, to) && a == b && words == same && good == also
    ensures Gives(q, at, b, same, also, n, to)
  {
  }

  // An indicator.
  lemma PieceGives(q: Queue, at: Place, p: Piece, words: seq<Token>, allowed: bool, n: Queue, to: Place)
    requires Taken(q, p) == Ok(n) && Indicated(Ended(q, at), words, allowed, to, n)
    ensures Gives(q, at, [p], words, true, n, to)
  {
    hide Taken, Ended, Stands, Kept, Parted;
    TakenOne(q, p);
    StandsOutside(n, to);
    StandsPending(n, to);
  }

  lemma ClosesGood(q: Queue, at: Place, ps: seq<Piece>, words: seq<Token>, n: Queue, col: nat)
    requires Sound(at) && at.indent <= col && Gives(q, at, ps, words, true, n, Inner(at, col))
    ensures Gives(q, at, ps, words + Ends(at, col), true, n, at)
  {
    hide Kept, Parted, TakenAll, Ended, Pending, Sound;
    EndsOuter(n, at, col);
    var ts := Ended(q, at).tokens;
    assert ts + words + Ends(at, col) == ts + (words + Ends(at, col));
  }

  // The end of a block.
  lemma CloseGives(q: Queue, at: Place, ps: seq<Piece>, words: seq<Token>, good: bool, n: Queue, col: nat)
    requires Sound(at) && at.indent <= col && Gives(q, at, ps, words, good, n, Inner(at, col))
    ensures Gives(q, at, ps, words + Ends(at, col), good, n, at)
  {
    hide Kept, Gives, Inner, Ends, Sound;
    if good {
      ClosesGood(q, at, ps, words, n, col);
    } else {
      KeptJoin(words, Ends(at, col));
      WrongOn(q, at, ps, words, n, Inner(at, col), [], words + Ends(at, col), n, at);
      assert ps + [] == ps;
    }
  }

  function Ends(at: Place, col: nat): seq<Token> {
    if at.indent < col then [BlockEnd] else []
  }

  // ------------------------------------------------------------------ where nodes begin and end

  // In front of a node: in its block, with no key in sight.
  predicate Opening(q: Queue, at: Place, free: bool, last: Piece) {
    Stands(q, at) && !q.keys[0].possible && q.allowed == free && (EndsLine(last) ==> free)
  }

  // Behind a node.
  predicate Done(q: Queue, last: Piece) {
    (EndsLine(last) ==> q.allowed) && (q.keys != [] && q.keys[0].possible ==> q.keys[0].mark.line <= last.mark.line)
  }

  lemma IndicatedOpens(q: Queue, words: seq<Token>, allowed: bool, to: Place, n: Queue, p: Piece)
    requires Indicated(q, words, allowed, to, n) && (EndsLine(p) ==> allowed)
    ensures Opening(n, to, allowed, p) && Sound(to)
  {
    hide Levels;
  }

  lemma OpeningPending(q: Queue, at: Place, free: bool, last: Piece)
    requires Opening(q, at, free, last)
    ensures Pending(q, at) && Ended(q, at).tokens == q.tokens && Done(q, last) && Outside(q) && Calm(q) && Sound(at)
  {
    StandsPending(q, at);
  }

  lemma LastJoin(a: seq<Piece>, b: seq<Piece>, before: Piece)
    ensures LastOf(a + b, before) == LastOf(b, LastOf(a, before))
  {
  }

  lemma LastOne(p: Piece, before: Piece)
    ensures LastOf([p], before) == p
  {
  }

  // ------------------------------------------------------------------ flow nodes and block scalars

  lemma HeadsThere(f: Form)
    ensures |Heads(f)| <= |Pieces(f)| && forall i | 0 <= i < |Heads(f)| :: Heads(f)[i] == Pieces(f)[i]
  {
  }

  lemma HeadsFit(f: Form, outer: int, base: int)
    requires FitsForm(f, outer, base)
    ensures forall i | 0 <= i < |Heads(f)| :: Clear(Heads(f)[i], outer)
    ensures !f.Missing? ==> Heads(f) != [] && Heads(f)[0] == First(f)
  {
    if !f.Missing? {
      assert forall i | 0 <= i < |f.props| :: IsProp(f.props[i], outer);
    }
  }

  lemma OpeningAhead(ps: seq<Piece>, q: Queue, at: Place, free: bool, last: Piece)
    requires Opening(q, at, free, last) && Ordered(ps) && forall i | 0 <= i < |ps| :: Clear(ps[i], at.indent)
    ensures Ahead(q, ps, at, None, true)
  {
    StandsLevels(q, at);
    hide Levels, Stands, Ordered;
  }

  lemma HeadsOrdered(f: Form)
    requires Ordered(Pieces(f))
    ensures Ordered(Heads(f))
  {
    HeadsThere(f);
    hide Heads, Pieces;
  }

  lemma ValueAhead(f: Form, q: Queue, at: Place, free: bool, last: Piece)
    requires Opening(q, at, free, last) && FitsForm(f, at.indent, at.indent) && Ordered(Pieces(f))
    ensures Ahead(q, Heads(f), at, None, true)
  {
    HeadsOrdered(f);
    HeadsFit(f, at.indent, at.indent);
    OpeningAhead(Heads(f), q, at, free, last);
  }

  lemma FormReads(f: Form, q: Queue, at: Place, key: Option<SimpleKey>, outer: int, base: int) returns (n: Queue)
    requires !f.Missing? && FitsForm(f, outer, base) && Depth(f) <= 255 && at.indent <= base && Ahead(q, Heads(f), at, key, true)
    requires f.Leaf? ==> FitsForm(f, outer, outer)
    ensures Gets(q, Pieces(f), Written.Words(Tree(f, q.inMapping)), Good(f, q.inMapping, false), n)
    ensures Good(f, q.inMapping, false) ==> FormLeft(q, f, at, key, n)
  {
    hide Ahead, FormLeft, Gets, Tree, Written.Words, FitsForm, Depth;
    if f.Leaf? {
      n := LeafReads(f, q, at, key, outer);
    } else {
      n := CollectionReads(f, q, at, key, outer, base);
    }
  }

  // What is read where nothing is left to end.
  lemma GetsGives(q: Queue, at: Place, ps: seq<Piece>, words: seq<Token>, good: bool, n: Queue)
    requires Gets(q, ps, words, good, n) && Ended(q, at).tokens == q.tokens && (good ==> Stands(n, at) && Calm(n))
    ensures Gives(q, at, ps, words, good, n, at)
  {
    if good {
      StandsPending(n, at);
    }
  }

  lemma FormBehind(q: Queue, f: Form, at: Place, n: Queue, last: Piece)
    requires FormLeft(q, f, at, None, n) && Ordered(Pieces(f))
    ensures Done(n, LastOf(Pieces(f), last)) && Calm(n) && Stands(n, at) && n.inMapping == Flag(f, q.inMapping)
  {
    hide Stands, Flag, Heads, EndsLine;
    HeadsThere(f);
    var i := |Heads(f)| - 1;
    assert Heads(f)[i] == Pieces(f)[i];
    assert Pieces(f)[i].mark.line <= Pieces(f)[|Pieces(f)| - 1].mark.line;
  }

  lemma FlowGives(f: Form, q: Queue, at: Place, free: bool, last: Piece) returns (n: Queue)
    requires Opening(q, at, free, last) && FitsForm(f, at.indent, at.indent) && Depth(f) <= 255 && Ordered(Pieces(f))
    ensures Gives(q, at, Pieces(f), Written.Words(Tree(f, q.inMapping)), Good(f, q.inMapping, false), n, at)
    ensures Good(f, q.inMapping, false) ==> n.inMapping == Flag(f, q.inMapping) && Done(n, LastOf(Pieces(f), last))
  {
    OpeningPending(q, at, free, last);
    if f.Missing? {
      n := q;
      GivesNone(q, at);
    } else {
      hide FitsForm, Depth, Ordered, Tree, Written.Words, Gets, Gives, Good, FormLeft, Done, Opening, Ahead, Ended, Pending, Stands;
      ValueAhead(f, q, at, free, last);
      n := FormReads(f, q, at, None, at.indent, at.indent);
      if Good(f, q.inMapping, false) {
        FormBehind(q, f, at, n, last);
      }
      GetsGives(q, at, Pieces(f), Written.Words(Tree(f, q.inMapping)), Good(f, q.inMapping, false), n);
    }
  }

  lemma LinesAhead(props: seq<Piece>, p: Piece, q: Queue, at: Place, free: bool, last: Piece)
    requires Opening(q, at, free, last) && FitsProps(props, at.indent) && Clear(p, at.indent) && Ordered(props + [p])
    ensures Ahead(q, props + [p], at, None, true)
  {
    forall i | 0 <= i < |props + [p]| ensures Clear((props + [p])[i], at.indent) {
      if i < |props| {
        assert IsProp(props[i], at.indent);
      }
    }
    OpeningAhead(props + [p], q, at, free, last);
  }

  // A block scalar.
  lemma ScalarReads(p: Piece, q: Queue, at: Place, first: bool) returns (n: Queue)
    requires Ahead(q, [p], at, None, first) && p.lexeme.BlockScalar?
    ensures Gets(q, [p], [p.lexeme.token], true, n) && Stands(n, at) && Calm(n) && n.inMapping == q.inMapping && Done(n, p)
  {
    assert Says(p, p.lexeme.token) && EndsLine(p);
    hide Taken, Levels, KeyAt, Ahead, Stands, Gets;
    AheadStands(q, [p], at, None, first);
    HeadKey(q, [p], at, None, first);
    n := SaysGets(q, p, p.lexeme.token, at);
    OneGets(q, p, [p.lexeme.token], n);
  }

  lemma LinesGive(props: seq<Piece>, p: Piece, q: Queue, at: Place, free: bool, last: Piece) returns (n: Queue)
    requires Opening(q, at, free, last) && FitsProps(props, at.indent) && Clear(p, at.indent) && Ordered(props + [p]) && p.lexeme.BlockScalar?
    ensures Gives(q, at, props + [p], Written.PropWords(PropsOf(props)) + [p.lexeme.token], true, n, at)
    ensures n.inMapping == q.inMapping && Done(n, p)
  {
    OpeningPending(q, at, free, last);
    LinesAhead(props, p, q, at, free, last);
    PropWordsOf(props, at.indent);
    hide *;
    var m := PropsRead(q, props, [p], props + [p], at, None, true, at.indent);
    GetsIs(q, props, Written.PropWords(PropsOf(props)), m);
    n := ScalarReads(p, m, at, props == []);
    GoodBoth(q, props, Written.PropWords(PropsOf(props)), m, [p], [p.lexeme.token], true, n);
    GetsGives(q, at, props + [p], Written.PropWords(PropsOf(props)) + [p.lexeme.token], true, n);
  }

  // ------------------------------------------------------------------ keys

  lemma KeyAhead(k: Form, colon: Piece, col: nat, s: Queue, at: Place)
    requires IsKey(k, colon, col) && at.indent <= col && Stands(s, at) && s.indent <= col && Calm(s) && (s.allowed || First(k).newline)
    ensures Pieces(k) != [] && Pieces(k)[0] == First(k) && s.keys != []
    ensures Ahead(s, Heads(k), at, Some(KeyAt(s, First(k))), true)
  {
    HeadsThere(k);
    HeadsFit(k, col - 1, col);
    hide Stands, FitsForm, Heads, Pieces, First, Depth;
    StandsOutside(s, at);
    var key := KeyAt(s, First(k));
    assert key.mark == First(k).mark;
  }

  // Where the first piece is taken alike, so are all.
  lemma TakenAlike(q: Queue, s: Queue, ps: seq<Piece>)
    requires ps != [] && Taken(q, ps[0]) == Taken(s, ps[0])
    ensures TakenAll(q, ps) == TakenAll(s, ps)
  {
    hide Taken;
  }

  function KeyWords(at: Place, col: nat, words: seq<Token>): seq<Token> {
    Starts(at, col, BlockMappingStart) + ([Key] + words + [Value])
  }

  lemma KeptInKey(at: Place, col: nat, words: seq<Token>)
    ensures Kept(words) <= Kept(KeyWords(at, col, words))
  {
    var start := Starts(at, col, BlockMappingStart);
    KeptJoin(start, [Key] + words + [Value]);
    KeptJoin([Key] + words, [Value]);
    KeptJoin([Key], words);
    KeptOne(Key);
    KeptOne(BlockMappingStart);
    assert Kept(start) == [] && Kept([Key]) == [] by {
      KeptNone();
    }
    hide Kept;
    assert [] + (([] + Kept(words)) + Kept([Value])) == Kept(words) + Kept([Value]);
  }

  // `Key`, and the mapping it starts, in front of the key's own words.
  lemma KeyTokens(s: seq<Token>, n1: seq<Token>, n: seq<Token>, at: Place, col: nat, words: seq<Token>)
    requires n1 == s + words
    requires n == n1[..|s|] + (Starts(at, col, BlockMappingStart) + [Key]) + n1[|s|..] + [Value]
    ensures n == s + KeyWords(at, col, words)
  {
    var start := Starts(at, col, BlockMappingStart);
    assert n1[..|s|] == s && n1[|s|..] == words;
    assert s + (start + [Key]) + words + [Value] == s + (start + ([Key] + words + [Value]));
  }

  lemma KeyGives(k: Form, colon: Piece, q: Queue, at: Place, col: nat) returns (n: Queue)
    requires IsKey(k, colon, col) && at.indent <= col && AtBlock(q, First(k), at) && (q.allowed || First(k).newline)
    ensures Gives(q, at, Pieces(k) + [colon], KeyWords(at, col, Written.Words(Tree(k, q.inMapping))), Good(k, q.inMapping, false), n, Inner(at, col))
    ensures Good(k, q.inMapping, false) ==> Opening(n, Inner(at, col), false, colon) && n.inMapping == Flag(k, q.inMapping)
  {
    var words := Written.Words(Tree(k, q.inMapping));
    var s := Settled(q, First(k), at);
    AtBlockCalm(q, First(k), at, s);
    KeyAhead(k, colon, col, s, at);
    KeyParts(k, colon, col);
    TakenAlike(q, s, Pieces(k));
    hide *;
    var key := KeyAt(s, First(k));
    var n1 := FormReads(k, s, at, Some(key), col - 1, col);
    if Good(k, q.inMapping, false) {
      n := KeyColon(k, colon, col, q, s, at, key, words, n1);
    } else {
      n := q;
      GetsWrong(q, at, s, Pieces(k), words, n1);
      KeptInKey(at, col, words);
      WrongOn(q, at, Pieces(k), words, n1, at, [colon], KeyWords(at, col, words), n, Inner(at, col));
    }
  }

  lemma AtBlockCalm(q: Queue, p: Piece, at: Place, s: Queue)
    requires AtBlock(q, p, at) && s.keys == q.keys && s.allowed == q.allowed
    ensures Calm(s) && s.keys != []
  {
  }

  lemma KeyParts(k: Form, colon: Piece, col: nat)
    requires IsKey(k, colon, col)
    ensures !k.Missing? && FitsForm(k, col - 1, col) && Depth(k) <= 255 && First(k).mark.col == col
    ensures k.Leaf? ==> FitsForm(k, col - 1, col - 1)
    ensures colon.lexeme == Colon && Clear(colon, col) && Near(First(k).mark, colon.mark) && !EndsLine(colon)
  {
  }

  lemma GetsWrong(q: Queue, at: Place, s: Queue, ps: seq<Piece>, words: seq<Token>, n: Queue)
    requires Gets(s, ps, words, false, n) && TakenAll(q, ps) == TakenAll(s, ps) && s.tokens == Ended(q, at).tokens
    ensures Gives(q, at, ps, words, false, n, at)
  {
    hide Kept, Parted, TakenAll, Ended;
  }

  lemma FormKey(q: Queue, f: Form, at: Place, k: SimpleKey, n: Queue)
    requires FormLeft(q, f, at, Some(k), n)
    ensures n.keys == [k] && Stands(n, at) && n.inMapping == Flag(f, q.inMapping)
  {
  }

  lemma KeyAtIs(s: Queue, p: Piece)
    requires s.keys != [] && (s.allowed || p.newline)
    ensures KeyAt(s, p).possible && KeyAt(s, p).tokenNumber == |s.tokens| && KeyAt(s, p).mark == p.mark
  {
  }

  // The `:` behind the key.
  lemma KeyColon(k: Form, colon: Piece, col: nat, q: Queue, s: Queue, at: Place, key: SimpleKey, words: seq<Token>, n1: Queue) returns (n: Queue)
    requires !k.Missing? && s.keys != [] && (s.allowed || First(k).newline) && key == KeyAt(s, First(k)) && First(k).mark.col == col && at.indent <= col
    requires colon.lexeme == Colon && Clear(colon, col) && Near(First(k).mark, colon.mark) && !EndsLine(colon)
    requires Gets(s, Pieces(k), words, true, n1) && FormLeft(s, k, at, Some(key), n1)
    requires TakenAll(q, Pieces(k)) == TakenAll(s, Pieces(k)) && s.tokens == Ended(q, at).tokens && s.inMapping == q.inMapping
    ensures Gives(q, at, Pieces(k) + [colon], KeyWords(at, col, words), true, n, Inner(at, col))
    ensures Opening(n, Inner(at, col), false, colon) && n.inMapping == Flag(k, q.inMapping)
  {
    GetsAre(s, Pieces(k), words, n1);
    FormKey(s, k, at, key, n1);
    KeyAtIs(s, First(k));
    hide FormLeft, Stands, Taken, TakenAll, Pieces, Depth, Tree, First, KeyAt, Flag, Ended, Gets, Starts, Pending, EndsLine, Near, KeyWords;
    n := KeyGets(n1, colon, at, key);
    KeyTokens(s.tokens, n1.tokens, n.tokens, at, col, words);
    TakenJoin(q, Pieces(k), [colon]);
    TakenOne(n1, colon);
    OpeningPending(n, Inner(at, col), false, colon);
  }

  lemma GetsAre(q: Queue, ps: seq<Piece>, words: seq<Token>, n: Queue)
    requires Gets(q, ps, words, true, n)
    ensures TakenAll(q, ps) == Ok(n) && n.tokens == q.tokens + words
  {
  }
}
