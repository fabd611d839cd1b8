// Reading a flow collection: node by node, entry by entry, what the scanner's state is behind each
// (crates/yamluna-scanner/src/scanner.rs).
module FlowReads {
  import opened Results
  import opened ScalarEmitter
  import opened Events
  import opened TokenBalance
  import opened TokenSteps
  import opened FlowText
  import opened FlowTokens
  import Written

  function LastKey(q: Queue): SimpleKey
    requires q.keys != []
  {
    q.keys[|q.keys| - 1]
  }

  // The indentation is at most `indent`, but for a level that starts no block.
  predicate Within(q: Queue, indent: int) {
    q.indent <= indent || (q.indent == indent + 1 && q.levels != [] && !OnBlock(q))
  }

  // The levels are what they were, or the last of them, which started no block, has ended.
  predicate SameBlocks(q: Queue, n: Queue) {
    || (n.levels == q.levels && n.indent == q.indent)
    || (q.levels != [] && !OnBlock(q) && n.levels == q.levels[..|q.levels| - 1] && n.indent == q.levels[|q.levels| - 1].indent
        && n.indent < q.indent && (n.levels != [] ==> OnBlock(n)))
  }

  // Inside a flow collection that stands further in than `indent`. Between braces the flag is set.
  predicate Ready(q: Queue, indent: int) {
    && q.flow > 0 && q.keys != [] && Within(q, indent) && Levels(q.levels, q.indent) && !LastKey(q).required
    && (q.inMapping || q.implicit != [])
  }

  // Only the last key may have changed; a level that started no block may have ended.
  predicate Steady(q: Queue, n: Queue) {
    && n.flow == q.flow && n.indent <= q.indent && Levels(n.levels, n.indent) && SameBlocks(q, n)
    && |n.keys| == |q.keys| > 0 && n.keys[..|n.keys| - 1] == q.keys[..|q.keys| - 1] && !LastKey(n).required
  }

  lemma SteadyTwice(a: Queue, b: Queue, c: Queue)
    requires Steady(a, b) && Steady(b, c)
    ensures Steady(a, c)
  {
    hide Levels;
  }

  // The last key, once something has been read that may be one.
  function Keyed(q: Queue, mark: Mark): SimpleKey
    requires q.keys != []
  {
    if q.allowed then SimpleKey(true, false, |q.tokens|, mark) else LastKey(q)
  }

  lemma TakenHere(q: Queue, p: Piece, indent: int)
    requires Ready(q, indent) && Clear(p, indent) && !p.lexeme.EndOfInput? && !p.lexeme.BlockScalar?
    ensures var r := Read(q.(mark := p.mark), p);
            Taken(q, p) == if r.Ok? then Ok(r.value.(mark := p.after)) else r
  {
    hide Read;
    var s := q.(mark := p.mark);
    assert q.tokens + [] == q.tokens;
    assert Reached(q, p) == s;
    var r := Read(s, p);
    if r.Ok? {
      assert r.value.tokens + [] == r.value.tokens;
    }
  }

  lemma SavedHere(q: Queue, indent: int)
    requires Ready(q, indent)
    ensures Saved(q) == q.(keys := q.keys[..|q.keys| - 1] + [Keyed(q, q.mark)])
  {
    assert q.keys == q.keys[..|q.keys| - 1] + [LastKey(q)];
  }

  // ------------------------------------------------------------------ properties and scalars

  function TokensOf(ps: seq<Piece>, indent: int): (ts: seq<Token>)
    requires forall i | 0 <= i < |ps| :: IsProp(ps[i], indent)
  {
    if ps == [] then []
    else
      assert IsProp(ps[0], indent);
      [ps[0].lexeme.token] + TokensOf(ps[1..], indent)
  }

  lemma PropGets(p: Piece, q: Queue, indent: int) returns (n: Queue)
    requires Ready(q, indent) && IsProp(p, indent)
    ensures Taken(q, p) == Ok(n) && Ready(n, indent) && Steady(q, n) && n.tokens == q.tokens + [p.lexeme.token]
    ensures !n.allowed && LastKey(n) == Keyed(q, p.mark) && n.implicit == q.implicit && n.inMapping == q.inMapping
  {
    hide Levels, Saved;
    TakenHere(q, p, indent);
    SavedHere(q.(mark := p.mark), indent);
    n := Taken(q, p).value;
  }

  lemma {:induction false} PropsGet(ps: seq<Piece>, q: Queue, indent: int) returns (n: Queue)
    requires Ready(q, indent) && forall i | 0 <= i < |ps| :: IsProp(ps[i], indent)
    ensures TakenAll(q, ps) == Ok(n) && Ready(n, indent) && Steady(q, n) && n.tokens == q.tokens + TokensOf(ps, indent)
    ensures n.allowed == (ps == [] && q.allowed) && LastKey(n) == if ps == [] then LastKey(q) else Keyed(q, ps[0].mark)
    ensures n.implicit == q.implicit && n.inMapping == q.inMapping
    decreases |ps|
  {
    hide Taken, Levels, Ready, Steady, Keyed, IsProp;
    SteadySelf(q, indent);
    if ps == [] {
      n := q;
      NothingMore(q.tokens);
    } else {
      var p, rest := ps[0], ps[1..];
      assert IsProp(p, indent);
      var m := PropGets(p, q, indent);
      assert forall i | 0 <= i < |rest| :: rest[i] == ps[i + 1];
      n := PropsGet(rest, m, indent);
      SteadyTwice(q, m, n);
      SteadySelf(m, indent);
      NotKeyed(m, rest);
      FirstToken(ps, indent, q.tokens, m.tokens);
    }
  }

  lemma NothingMore(ts: seq<Token>)
    ensures ts + [] == ts
  {
  }

  lemma FirstToken(ps: seq<Piece>, indent: int, before: seq<Token>, mid: seq<Token>)
    requires ps != [] && forall i | 0 <= i < |ps| :: IsProp(ps[i], indent)
    requires IsProp(ps[0], indent) && mid == before + [ps[0].lexeme.token]
    ensures forall i | 0 <= i < |ps[1..]| :: IsProp(ps[1..][i], indent)
    ensures mid + TokensOf(ps[1..], indent) == before + TokensOf(ps, indent)
  {
    assert forall i | 0 <= i < |ps[1..]| :: ps[1..][i] == ps[i + 1];
    var rest := TokensOf(ps[1..], indent);
    assert TokensOf(ps, indent) == [ps[0].lexeme.token] + rest;
    assert before + [ps[0].lexeme.token] + rest == before + ([ps[0].lexeme.token] + rest);
  }

  lemma SteadySelf(q: Queue, indent: int)
    requires Ready(q, indent)
    ensures Steady(q, q) && q.keys != []
  {
  }

  lemma NotKeyed(q: Queue, ps: seq<Piece>)
    requires q.keys != [] && !q.allowed
    ensures forall mark :: Keyed(q, mark) == LastKey(q)
  {
  }

  lemma {:induction false} TokensAre(ps: seq<Piece>, indent: int, words: seq<Token>)
    requires forall i | 0 <= i < |ps| :: IsProp(ps[i], indent)
    requires |words| == |ps| && forall i | 0 <= i < |ps| :: IsProp(ps[i], indent) && words[i] == ps[i].lexeme.token
    ensures TokensOf(ps, indent) == words
    decreases |ps|
  {
    if ps != [] {
      assert forall i | 0 <= i < |ps[1..]| :: ps[1..][i] == ps[i + 1];
      TokensAre(ps[1..], indent, words[1..]);
    }
  }

  lemma {:induction false} BlocksHere(q: Queue)
    requires Levels(q.levels, q.indent)
    ensures var n := BlocksOnly(q);
            && n == q.(levels := n.levels, indent := n.indent) && n.indent <= q.indent && Levels(n.levels, n.indent)
            && SameBlocks(q, n) && (q.levels != [] ==> OnBlock(n))
    decreases |q.levels|
  {
    if q.levels != [] && !OnBlock(q) {
      LevelsPop(q.levels, q.indent);
      BlocksHere(Popped(q));
    }
  }

  // Behind a scalar or an alias.
  predicate Said(q: Queue, t: Token, n: Queue) {
    && q.keys != [] && n.tokens == q.tokens + [t] && n.keys == q.keys[..|q.keys| - 1] + [Keyed(q, q.mark)] && n.flow == q.flow
    && n.implicit == q.implicit && n.inMapping == q.inMapping && n.indent <= q.indent && Levels(n.levels, n.indent)
    && SameBlocks(q, n)
  }

  lemma ScalarSaid(q: Queue, t: Token, newline: bool, indent: int)
    requires Ready(q, indent) && q.mark.col > indent
    ensures Said(q, t, PropertyRead(q, t)) && Said(q, t, FlowScalarRead(q, t, newline))
  {
    hide Levels, Saved;
    SavedHere(q, indent);
  }

  lemma PlainSaid(q: Queue, t: Token, newline: bool, indent: int)
    requires Ready(q, indent) && q.mark.col > indent
    ensures PlainRead(q, t, newline).Ok? && Said(q, t, PlainRead(q, t, newline).value)
  {
    hide Levels, Saved, BlocksOnly;
    SavedHere(q, indent);
    BlocksHere(Allowing(Saved(q), false));
  }

  lemma SaidSteady(q: Queue, t: Token, n: Queue, indent: int)
    requires Ready(q, indent) && Said(q, t, n)
    ensures Steady(q, n) && LastKey(n) == Keyed(q, q.mark)
  {
    hide Levels;
  }

  lemma ReadyMarked(q: Queue, mark: Mark, indent: int)
    requires Ready(q, indent)
    ensures Ready(q.(mark := mark), indent)
  {
  }

  // A scalar or an alias.
  lemma ContentGets(p: Piece, props: seq<Piece>, q: Queue, indent: int) returns (n: Queue)
    requires Ready(q, indent) && FitsContent(p, props, indent)
    ensures Taken(q, p) == Ok(n) && Steady(q, n) && n.tokens == q.tokens + [p.lexeme.token]
    ensures LastKey(n) == Keyed(q, p.mark) && n.implicit == q.implicit && n.inMapping == q.inMapping
  {
    hide Levels, Ready, Steady, PropertyRead, FlowScalarRead, PlainRead, Taken;
    var s := q.(mark := p.mark);
    TakenHere(q, p, indent);
    ReadyMarked(q, p.mark, indent);
    match p.lexeme {
      case Quoted(t, newline) => ScalarSaid(s, t, newline, indent);
      case Plain(t, newline) => PlainSaid(s, t, newline, indent);
      case Property(t) => ScalarSaid(s, t, true, indent);
    }
    n := Taken(q, p).value;
    SaidSteady(s, p.lexeme.token, Read(s, p).value, indent);
    MarkedSteady(q, p.mark, Read(s, p).value, p.after);
  }

  // Where the scanner stands makes no difference.
  lemma MarkedSteady(q: Queue, mark: Mark, n: Queue, after: Mark)
    requires Steady(q.(mark := mark), n)
    ensures Steady(q, n.(mark := after))
  {
    hide Levels;
  }

  // ------------------------------------------------------------------ brackets and braces

  // Behind an opening bracket or brace.
  predicate Opened(q: Queue, mark: Mark, isSeq: bool, n: Queue) {
    && q.keys != []
    && n.keys == (q.keys[..|q.keys| - 1] + [Keyed(q, mark)]) + [NoKey()]
    && n.tokens == q.tokens + [if isSeq then FlowSequenceStart else FlowMappingStart]
    && n.allowed && n.flow == q.flow + 1 && n.indent == q.indent && n.levels == q.levels
    && n.implicit == (if isSeq then q.implicit + [false] else q.implicit)
    && n.inMapping == (!isSeq || q.inMapping)
  }

  lemma OpenGets(p: Piece, isSeq: bool, q: Queue, indent: int) returns (n: Queue)
    requires Ready(q, indent) && p.lexeme == FlowStart(isSeq) && Clear(p, indent) && q.flow < 255
    ensures Taken(q, p) == Ok(n) && Opened(q, p.mark, isSeq, n) && Ready(n, indent)
  {
    hide Levels, Saved;
    TakenHere(q, p, indent);
    SavedHere(q.(mark := p.mark), indent);
    n := Taken(q, p).value;
  }

  // Behind a closing one.
  predicate Closed(q: Queue, isSeq: bool, n: Queue) {
    && q.keys != [] && n.keys == q.keys[..|q.keys| - 1] && n.flow == q.flow - 1 && n.indent == q.indent && n.levels == q.levels
    && (!isSeq ==> n.implicit == q.implicit && n.inMapping == q.inMapping && n.tokens == q.tokens + [FlowMappingEnd])
    && (isSeq && q.implicit != [] ==>
          && n.implicit == q.implicit[..|q.implicit| - 1] && n.inMapping == (q.inMapping && !InsideImplicit(q))
          && n.tokens == q.tokens + (if InsideImplicit(q) then [FlowMappingEnd] else []) + [FlowSequenceEnd])
  }

  lemma CloseGets(p: Piece, isSeq: bool, q: Queue, indent: int) returns (n: Queue)
    requires Ready(q, indent) && p.lexeme == FlowEnd(isSeq) && Clear(p, indent) && (isSeq ==> q.implicit != [])
    ensures Taken(q, p) == Ok(n) && Closed(q, isSeq, n)
  {
    hide Levels;
    TakenHere(q, p, indent);
    var s := q.(mark := p.mark);
    assert Removed(s) == Ok(Withdrawn(s));
    assert Withdrawn(s).keys[..|q.keys| - 1] == q.keys[..|q.keys| - 1];
    n := Taken(q, p).value;
    if isSeq {
      var l := FlowLeft(Withdrawn(s));
      assert l.implicit == q.implicit;
      assert l.implicit[|l.implicit| - 1 := false][..|l.implicit| - 1] == l.implicit[..|l.implicit| - 1];
      assert q.tokens + [] == q.tokens;
    }
  }

  // In front of an entry: a key may begin, and none has.
  predicate AtEntry(q: Queue, indent: int) {
    Ready(q, indent) && q.allowed && !LastKey(q).possible
  }

  // Behind a `,`, what it ends being what it should end.
  predicate Separated(q: Queue, n: Queue) {
    && n.inMapping == (q.inMapping && !InsideImplicit(q))
    && n.implicit == (if InsideImplicit(q) then q.implicit[|q.implicit| - 1 := false] else q.implicit)
    && n.tokens == q.tokens + (if InsideImplicit(q) then [FlowMappingEnd] else []) + [FlowEntry]
  }

  lemma CommaGets(p: Piece, q: Queue, indent: int) returns (n: Queue)
    requires Ready(q, indent) && p.lexeme == Lexeme.Comma && Clear(p, indent)
    ensures Taken(q, p) == Ok(n) && Steady(q, n) && Separated(q, n) && n.allowed && !LastKey(n).possible
  {
    hide Levels;
    TakenHere(q, p, indent);
    var s := q.(mark := p.mark);
    assert Removed(s) == Ok(Withdrawn(s));
    assert Withdrawn(s).keys[..|q.keys| - 1] == q.keys[..|q.keys| - 1];
    assert q.tokens + [] == q.tokens;
    n := Taken(q, p).value;
  }

  // ------------------------------------------------------------------ `?` and `:`

  lemma QuestionGets(p: Piece, q: Queue, indent: int) returns (n: Queue)
    requires Ready(q, indent) && IsQuestion(p, indent)
    ensures Taken(q, p) == Ok(n) && Steady(q, n) && n.tokens == q.tokens + [Key] && n.inMapping && n.implicit == q.implicit
    ensures !n.allowed && !LastKey(n).possible
  {
    hide Levels;
    TakenHere(q, p, indent);
    var s := q.(mark := p.mark, inMapping := true);
    assert Removed(s) == Ok(Withdrawn(s));
    assert Withdrawn(s).keys[..|q.keys| - 1] == q.keys[..|q.keys| - 1];
    n := Taken(q, p).value;
  }

  // Behind a `:`.
  predicate Valued(q: Queue, n: Queue) {
    && Steady(q, n) && !n.allowed && !LastKey(n).possible && n.inMapping == q.inMapping
    && n.implicit == (if Implicit(q) then q.implicit[|q.implicit| - 1 := true] else q.implicit)
  }

  // A `:` with no key in front of it gets a `FlowMappingStart` of its own exactly when the flag is
  // clear, between brackets or in braces between brackets.
  lemma ColonAlone(p: Piece, q: Queue, indent: int) returns (n: Queue)
    requires Ready(q, indent) && IsColon(p, indent) && !LastKey(q).possible
    ensures Taken(q, p) == Ok(n) && Valued(q, n)
    ensures n.tokens == q.tokens + (if Implicit(q) then [FlowMappingStart] else []) + [Value]
    ensures n.tokens == q.tokens + [FlowMappingStart] + [Value] <==> q.implicit != [] && !q.inMapping
  {
    hide Levels;
    TakenHere(q, p, indent);
    assert q.tokens + [] == q.tokens;
    n := Taken(q, p).value;
    assert |q.tokens + [FlowMappingStart] + [Value]| != |q.tokens + [Value]|;
  }

  // A `:` behind a key that began at token `t`.
  lemma ColonBehind(p: Piece, q: Queue, indent: int, t: nat, mark: Mark) returns (n: Queue)
    requires Ready(q, indent) && IsColon(p, indent) && LastKey(q) == SimpleKey(true, false, t, mark) && t <= |q.tokens|
    requires Implicit(q) ==> p.mark.line <= mark.line
    ensures Taken(q, p) == Ok(n) && Valued(q, n)
    ensures n.tokens == q.tokens[..t] + KeyPrefix(false, Implicit(q)) + q.tokens[t..] + [Value]
  {
    hide Levels, Put, KeyPrefix, KeyPut, Taken;
    TakenHere(q, p, indent);
    var s := q.(mark := p.mark);
    KeyPutRest(Entering(s), LastKey(s), Implicit(s));
    KeyGoesInFront(s);
    n := Taken(q, p).value;
    ColonSteady(q, s, n);
  }

  lemma ColonSteady(q: Queue, s: Queue, n: Queue)
    requires q.keys != [] && s == q.(mark := s.mark) && Levels(q.levels, q.indent)
    requires n == Entering(s).(tokens := n.tokens, keys := q.keys[|q.keys| - 1 := Off(LastKey(q))], allowed := false, mark := n.mark)
    requires !LastKey(q).required
    ensures Valued(q, n)
  {
    hide Levels;
  }

  lemma KeyPutRest(q: Queue, k: SimpleKey, implicit: bool)
    requires q.flow > 0 && q.keys != []
    ensures var n := KeyPut(q, k, implicit);
            n == q.(tokens := n.tokens, keys := q.keys[|q.keys| - 1 := Off(LastKey(q))], allowed := false)
  {
  }
}
