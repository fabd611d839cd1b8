// Reading outside of brackets, piece by piece: where the scanner stands behind each, and what it has
// still to end (crates/yamluna-scanner/src/scanner.rs, `roll_indent`, `unroll_indent`).
module BlockReads {
  import opened Results
  import opened ScalarEmitter
  import opened Events
  import opened TokenBalance
  import opened TokenSteps
  import opened FlowText
  import opened FlowTokens
  import opened FlowReads
  import opened BlockForms
  import Written

  // ------------------------------------------------------------------ places

  // A block and the levels around it; with no levels, the document itself.
  datatype Place = Place(levels: seq<Indent>, indent: int)

  const Bottom := Place([], -1)

  predicate Sound(at: Place) {
    Levels(at.levels, at.indent) && (at.levels != [] ==> at.levels[|at.levels| - 1].needsBlockEnd)
  }

  // A block of its own at `col`, when that is further in.
  function Inner(at: Place, col: nat): Place {
    if at.indent < col then Place(at.levels + [Indent(at.indent, true)], col) else at
  }

  lemma InnerSound(at: Place, col: nat)
    requires Sound(at)
    ensures Sound(Inner(at, col))
  {
    if at.indent < col {
      LevelsPush(at.levels, at.indent, col, true);
    }
  }

  predicate Outside(q: Queue) {
    q.flow == 0 && |q.keys| == 1 && q.implicit == []
  }

  // In the block; a level that starts no block may have been added.
  predicate Stands(q: Queue, at: Place) {
    && Outside(q) && Sound(at)
    && if q.indent == at.indent then q.levels == at.levels
       else at.levels != [] && q.levels == at.levels + [Indent(at.indent, false)] && q.indent == at.indent + 1
  }

  lemma StandsLevels(q: Queue, at: Place)
    requires Stands(q, at)
    ensures Levels(q.levels, q.indent) && at.indent <= q.indent <= at.indent + 1 && (q.levels == [] <==> at.levels == [])
    ensures OnBlock(q) <==> q.levels == at.levels && at.levels != []
    ensures !OnBlock(q) && q.levels != [] ==> q.levels[..|q.levels| - 1] == at.levels && q.levels[|q.levels| - 1].indent == at.indent
    ensures at.indent >= -1 && (at.levels == [] <==> at.indent == -1)
    ensures OnBlock(q) ==> q.indent == at.indent
  {
    LevelsFloor(at.levels, at.indent);
    if q.levels != at.levels {
      LevelsPush(at.levels, at.indent, q.indent, false);
    }
  }

  // No key that a `:` must follow.
  predicate Calm(q: Queue) {
    q.keys != [] && !(LastKey(q).possible && LastKey(q).required)
  }

  // What is left once everything further in than the block has ended.
  function Ended(q: Queue, at: Place): Queue {
    Unrolled(q, at.indent)
  }

  predicate Pending(q: Queue, at: Place) {
    && Outside(q) && Calm(q) && Sound(at)
    && Ended(q, at).levels == at.levels && Ended(q, at).indent == at.indent
  }

  // ------------------------------------------------------------------ ending levels

  lemma {:induction false} UnrolledRest(q: Queue, col: int)
    ensures var u := Unrolled(q, col);
            u == q.(tokens := u.tokens, levels := u.levels, indent := u.indent) && (q.flow > 0 || u.indent <= col || u.levels == [])
    decreases |q.levels|
  {
    if !(q.flow > 0 || q.indent <= col || q.levels == []) {
      UnrolledRest(if OnBlock(q) then Added(Popped(q), BlockEnd) else Popped(q), col);
    }
  }

  lemma {:induction false} UnrolledTwice(q: Queue, c: int, d: int)
    requires d <= c
    ensures Unrolled(Unrolled(q, c), d) == Unrolled(q, d)
    decreases |q.levels|
  {
    if !(q.flow > 0 || q.indent <= c || q.levels == []) {
      UnrolledTwice(if OnBlock(q) then Added(Popped(q), BlockEnd) else Popped(q), c, d);
    }
  }

  // Keys, marks and whether a key is allowed have no part in it.
  lemma {:induction false} UnrolledWith(q: Queue, col: int, allowed: bool, keys: seq<SimpleKey>, mark: Mark)
    ensures Unrolled(q.(allowed := allowed, keys := keys, mark := mark), col) == Unrolled(q, col).(allowed := allowed, keys := keys, mark := mark)
    decreases |q.levels|
  {
    if !(q.flow > 0 || q.indent <= col || q.levels == []) {
      var n := if OnBlock(q) then Added(Popped(q), BlockEnd) else Popped(q);
      UnrolledWith(n, col, allowed, keys, mark);
    }
  }

  lemma UnrolledThere(q: Queue, col: int)
    requires q.indent <= col || q.levels == []
    ensures Unrolled(q, col) == q
  {
  }

  // Standing in a block, there is at most a level to end that starts none.
  lemma StandsPending(q: Queue, at: Place)
    requires Stands(q, at) && Calm(q)
    ensures Pending(q, at) && Ended(q, at).tokens == q.tokens
  {
    StandsLevels(q, at);
    UnrolledOnce(q, at.indent);
  }

  lemma UnrolledOnce(q: Queue, col: int)
    requires q.flow == 0 && (q.levels != [] && !OnBlock(q) ==> Popped(q).indent <= col) && (q.levels == [] || !OnBlock(q) || q.indent <= col)
    ensures Unrolled(q, col) == if q.indent <= col || q.levels == [] then q else Popped(q)
  {
  }

  // What ends a block also ends what is in it.
  lemma EndsOuter(q: Queue, at: Place, col: nat)
    requires Sound(at) && Pending(q, Inner(at, col)) && at.indent <= col
    ensures Pending(q, at)
    ensures Ended(q, at).tokens == Ended(q, Inner(at, col)).tokens + if at.indent < col then [BlockEnd] else []
  {
    var u := Ended(q, Inner(at, col));
    UnrolledTwice(q, Inner(at, col).indent, at.indent);
    UnrolledRest(q, Inner(at, col).indent);
    if at.indent < col {
      assert u.levels[..|u.levels| - 1] == at.levels;
      UnrolledThere(Added(Popped(u), BlockEnd), at.indent);
    } else {
      assert u.tokens + [] == u.tokens;
    }
  }

  // ------------------------------------------------------------------ what ends levels

  lemma StaledKey(q: Queue)
    requires q.flow == 0 && |q.keys| == 1 && !Missed(q.keys[0], q.mark)
    ensures Staled(q) == Ok(q.(keys := [Checked(q.keys[0], q.mark)]))
  {
    assert forall k | k in q.keys :: k == q.keys[0];
    assert seq(|q.keys|, i requires 0 <= i < |q.keys| => Checked(q.keys[i], q.mark)) == [Checked(q.keys[0], q.mark)];
  }

  // The scanner in front of a piece.
  function Facing(q: Queue, p: Piece): Queue
    requires q.keys != []
  {
    q.(allowed := q.allowed || p.newline, keys := [Checked(q.keys[0], p.mark)], mark := p.mark)
  }

  lemma FacesIt(q: Queue, p: Piece)
    requires Outside(q) && p.comments == [] && !Missed(q.keys[0], p.mark)
    ensures Staled(Reached(q, p)) == Ok(Facing(q, p))
  {
    assert q.tokens + [] == q.tokens;
    StaledKey(Reached(q, p));
  }

  lemma CalmMissed(q: Queue, mark: Mark)
    requires Outside(q) && Calm(q)
    ensures !Missed(q.keys[0], mark)
  {
  }

  // A piece in the column of a block, or further out, ends what is further in.
  lemma TakenEnded(q: Queue, p: Piece, at: Place)
    requires Pending(q, at) && p.comments == [] && p.mark.col <= at.indent
    ensures Taken(q, p) == Taken(Ended(q, at), p)
  {
    hide Read, StreamEnded;
    var u := Ended(q, at);
    UnrolledRest(q, at.indent);
    CalmMissed(q, p.mark);
    FacesIt(q, p);
    FacesIt(u, p);
    var f := Facing(q, p);
    UnrolledWith(q, at.indent, f.allowed, f.keys, f.mark);
    UnrolledTwice(f, at.indent, p.mark.col);
  }

  lemma BoundaryTwice(q: Queue, col: int, t: Token)
    requires col >= -1
    ensures Boundary(Unrolled(q, col), t) == Boundary(Unrolled(Unrolled(q, -1), col), t)
    ensures Unrolled(Unrolled(q, col), -1) == Unrolled(Unrolled(Unrolled(q, -1), col), -1) == Unrolled(q, -1)
  {
    UnrolledTwice(q, col, -1);
    UnrolledRest(q, -1);
    if q.flow == 0 {
      UnrolledThere(Unrolled(q, -1), col);
    }
    UnrolledTwice(q, -1, -1);
  }

  // A directive and a document marker end everything.
  lemma MarginEnded(q: Queue, p: Piece)
    requires Pending(q, Bottom) && p.comments == [] && AtMargin(p.lexeme)
    ensures Taken(q, p) == Taken(Ended(q, Bottom), p)
  {
    hide Boundary;
    var u := Ended(q, Bottom);
    UnrolledRest(q, -1);
    CalmMissed(q, p.mark);
    FacesIt(q, p);
    FacesIt(u, p);
    var f := Facing(q, p);
    UnrolledWith(q, -1, f.allowed, f.keys, f.mark);
    match p.lexeme {
      case Directive(t) => BoundaryTwice(f, p.mark.col, t);
      case DocumentMarker(t) => BoundaryTwice(f, p.mark.col, t);
    }
  }

  // And so does the end of the text.
  lemma EndEnds(q: Queue)
    requires Pending(q, Bottom)
    ensures var r := Taken(q, AtEnd(q.mark)); r.Ok? && r.value.tokens == Ended(q, Bottom).tokens + [Token.StreamEnd]
  {
    var p := AtEnd(q.mark);
    CalmMissed(q, p.mark);
    FacesIt(q, p);
    var f := Facing(q, p);
    var u := Unrolled(f, p.mark.col);
    UnrolledRest(f, p.mark.col);
    DroppedKey(u);
    var d := Dropped(u).value;
    UnrolledWith(u, -1, d.allowed, d.keys, d.mark);
    UnrolledRest(d, -1);
    BoundaryTwice(f, p.mark.col, Token.StreamEnd);
    UnrolledWith(q, -1, f.allowed, f.keys, f.mark);
  }

  lemma DroppedKey(q: Queue)
    requires |q.keys| == 1 && Calm(q)
    ensures Dropped(q) == Ok(q.(keys := [Off(q.keys[0])]))
  {
    assert forall k | k in q.keys :: k == q.keys[0];
    assert seq(|q.keys|, i requires 0 <= i < |q.keys| => Off(q.keys[i])) == [Off(q.keys[0])];
  }

  // ------------------------------------------------------------------ pieces

  // A piece that ends no level.
  lemma Passed(q: Queue, p: Piece)
    requires Outside(q) && Alone(p) && (q.indent <= p.mark.col || q.levels == []) && !Missed(q.keys[0], p.mark) && !p.lexeme.EndOfInput?
    requires q.levels == [] ==> q.indent == -1
    ensures var r := Read(Facing(q, p), p);
            Taken(q, p) == if r.Ok? then Ok(r.value.(mark := p.after)) else r
  {
    hide Read;
    FacesIt(q, p);
    UnrolledThere(Facing(q, p), p.mark.col);
    var r := Read(Facing(q, p), p);
    if r.Ok? {
      assert r.value.tokens + [] == r.value.tokens;
    }
  }

  // In front of a piece in a block's column, what is further in has ended; in front of one further in,
  // nothing has.
  lemma Settled(q: Queue, p: Piece, at: Place) returns (s: Queue)
    requires Pending(q, at) && Alone(p) && (p.mark.col == at.indent || (p.mark.col > at.indent && Stands(q, at)))
    ensures Stands(s, at) && s.indent <= p.mark.col && Taken(q, p) == Taken(s, p) && s.tokens == Ended(q, at).tokens
    ensures s.keys == q.keys && s.allowed == q.allowed && s.inMapping == q.inMapping && s.mark == q.mark
    ensures p.mark.col == at.indent ==> s.levels == at.levels && s.indent == at.indent
  {
    if p.mark.col == at.indent {
      s := Ended(q, at);
      UnrolledRest(q, at.indent);
      TakenEnded(q, p, at);
    } else {
      s := q;
      StandsPending(q, at);
      StandsLevels(q, at);
    }
  }

  // The key behind a piece that may be one.
  function KeyAt(q: Queue, p: Piece): SimpleKey
    requires q.keys != []
  {
    if q.allowed || p.newline then SimpleKey(true, q.indent == p.mark.col && OnBlock(q), |q.tokens|, p.mark)
    else Checked(q.keys[0], p.mark)
  }

  lemma SavedOut(q: Queue, p: Piece)
    requires Outside(q)
    ensures Saved(Facing(q, p)) == Facing(q, p).(keys := [KeyAt(q, p)])
  {
  }

  // A property, a scalar or an alias.
  predicate Says(p: Piece, t: Token) {
    match p.lexeme
    case Property(u) => t == u
    case Quoted(u, _) => t == u
    case Plain(u, _) => t == u
    case BlockScalar(u) => t == u
    case _ => false
  }

  lemma BlocksOut(q: Queue, at: Place)
    requires Stands(q, at)
    ensures Stands(BlocksOnly(q), at) && BlocksOnly(q) == q.(levels := BlocksOnly(q).levels, indent := BlocksOnly(q).indent)
  {
    StandsLevels(q, at);
    BlocksHere(q);
  }

  // Tokens, keys and marks have no part in where the scanner stands.
  lemma StandsWith(q: Queue, at: Place, n: Queue)
    requires Stands(q, at) && n.levels == q.levels && n.indent == q.indent && Outside(n)
    ensures Stands(n, at)
  {
    hide Levels;
  }

  lemma StandsOutside(q: Queue, at: Place)
    requires Stands(q, at)
    ensures Outside(q)
  {
  }

  // Behind a token that may be a key.
  predicate SaidOut(q: Queue, t: Token, k: SimpleKey, allowed: bool, at: Place, n: Queue) {
    Stands(n, at) && n.tokens == q.tokens + [t] && n.keys == [k] && n.inMapping == q.inMapping && n.allowed == allowed
  }

  lemma PlainOut(f: Queue, t: Token, newline: bool, k: SimpleKey, at: Place)
    requires Stands(f, at) && Saved(f) == f.(keys := [k])
    ensures PlainRead(f, t, newline).Ok? && SaidOut(f, t, k, newline, at, PlainRead(f, t, newline).value)
  {
    hide Levels, BlocksOnly, Stands, Saved;
    var b := f.(keys := [k], allowed := false);
    StandsOutside(f, at);
    StandsWith(f, at, b);
    BlocksOut(b, at);
    StandsWith(BlocksOnly(b), at, PlainRead(f, t, newline).value);
  }

  lemma BlockOut(f: Queue, t: Token, k: SimpleKey, at: Place)
    requires Stands(f, at) && Saved(f) == f.(keys := [k])
    ensures SaidOut(f, t, k, true, at, BlockScalarRead(f, t, []))
  {
    hide Levels, BlocksOnly, Stands, Saved;
    var b := f.(keys := [k], allowed := true);
    StandsOutside(f, at);
    StandsWith(f, at, b);
    BlocksOut(b, at);
    assert f.tokens + [] == f.tokens;
    StandsWith(BlocksOnly(b), at, BlockScalarRead(f, t, []));
  }

  lemma FlowOut(f: Queue, t: Token, newline: bool, k: SimpleKey, at: Place)
    requires Stands(f, at) && Saved(f) == f.(keys := [k])
    ensures SaidOut(f, t, k, newline, at, FlowScalarRead(f, t, newline))
    ensures SaidOut(f, t, k, false, at, PropertyRead(f, t))
  {
    hide Levels, Stands, Saved;
    StandsOutside(f, at);
    StandsWith(f, at, FlowScalarRead(f, t, newline));
    StandsWith(f, at, PropertyRead(f, t));
  }

  lemma SaysRead(f: Queue, p: Piece, t: Token, k: SimpleKey, at: Place)
    requires Stands(f, at) && Saved(f) == f.(keys := [k]) && Says(p, t) && p.trailing == []
    ensures Read(f, p).Ok? && SaidOut(f, t, k, EndsLine(p), at, Read(f, p).value)
  {
    hide Levels, Stands, BlocksOnly, Saved, PlainRead, FlowScalarRead, PropertyRead, BlockScalarRead, SaidOut;
    match p.lexeme {
      case Property(_) => FlowOut(f, t, false, k, at);
      case Quoted(_, newline) => FlowOut(f, t, newline, k, at);
      case Plain(_, newline) => PlainOut(f, t, newline, k, at);
      case BlockScalar(_) => BlockOut(f, t, k, at);
    }
  }

  lemma SaidMarked(q: Queue, f: Queue, t: Token, k: SimpleKey, allowed: bool, at: Place, r: Queue, mark: Mark)
    requires SaidOut(f, t, k, allowed, at, r) && f.tokens == q.tokens && f.inMapping == q.inMapping
    ensures SaidOut(q, t, k, allowed, at, r.(mark := mark))
  {
    hide Levels;
  }

  lemma FacingSays(q: Queue, p: Piece, t: Token, at: Place)
    requires Stands(q, at) && Outside(q) && Says(p, t) && p.trailing == []
    ensures var r := Read(Facing(q, p), p); r.Ok? && SaidOut(q, t, KeyAt(q, p), EndsLine(p), at, r.value.(mark := p.after))
  {
    hide Levels, Stands, Saved, Read, KeyAt, SaidOut, EndsLine, Says;
    var f := Facing(q, p);
    SavedOut(q, p);
    StandsWith(q, at, f);
    SaysRead(f, p, t, KeyAt(q, p), at);
    SaidMarked(q, f, t, KeyAt(q, p), EndsLine(p), at, Read(f, p).value, p.after);
  }

  lemma SaysGets(q: Queue, p: Piece, t: Token, at: Place) returns (n: Queue)
    requires Stands(q, at) && Alone(p) && q.indent <= p.mark.col && !Missed(q.keys[0], p.mark) && Says(p, t)
    ensures Taken(q, p) == Ok(n) && SaidOut(q, t, KeyAt(q, p), EndsLine(p), at, n)
  {
    StandsLevels(q, at);
    StandsOutside(q, at);
    hide *;
    SaysNoEnd(p, t);
    Passed(q, p);
    FacingSays(q, p, t, at);
    n := Taken(q, p).value;
  }

  lemma SaysNoEnd(p: Piece, t: Token)
    requires Says(p, t)
    ensures !p.lexeme.EndOfInput?
  {
  }

  // Behind an opening bracket or brace.
  predicate OpenedOut(q: Queue, isSeq: bool, k: SimpleKey, at: Place, n: Queue) {
    && n.flow == 1 && n.keys == [k, NoKey()] && n.allowed && n.tokens == q.tokens + [if isSeq then FlowSequenceStart else FlowMappingStart]
    && n.implicit == (if isSeq then [false] else []) && n.inMapping == (!isSeq || q.inMapping)
    && Stands(n.(flow := 0, keys := [k], implicit := []), at)
  }

  lemma OpenRead(f: Queue, isSeq: bool, k: SimpleKey, at: Place)
    requires Stands(f, at) && Saved(f) == f.(keys := [k])
    ensures FlowStarted(f, isSeq).Ok? && OpenedOut(f, isSeq, k, at, FlowStarted(f, isSeq).value)
  {
    hide Levels, Stands, Saved, OneIn;
    StandsOutside(f, at);
    var s := f.(keys := [k]);
    StandsWith(f, at, s);
    OneInStands(s, at);
    StandsOutside(OneIn(s), at);
    var n := FlowStarted(f, isSeq).value;
    assert [k] + [NoKey()] == [k, NoKey()] && [] + [false] == [false];
    StandsWith(OneIn(s), at, n.(flow := 0, keys := [k], implicit := []));
  }

  lemma FacingOpens(q: Queue, p: Piece, isSeq: bool, at: Place)
    requires Stands(q, at) && Outside(q) && p.lexeme == FlowStart(isSeq)
    ensures var r := Read(Facing(q, p), p); r.Ok? && OpenedOut(q, isSeq, KeyAt(q, p), at, r.value.(mark := p.after))
  {
    hide Levels, Stands, Saved, FlowStarted, KeyAt, OpenedOut;
    var f := Facing(q, p);
    SavedOut(q, p);
    StandsWith(q, at, f);
    OpenRead(f, isSeq, KeyAt(q, p), at);
    OpenedMarked(q, f, isSeq, KeyAt(q, p), at, FlowStarted(f, isSeq).value, p.after);
  }

  lemma OpenedMarked(q: Queue, f: Queue, isSeq: bool, k: SimpleKey, at: Place, r: Queue, mark: Mark)
    requires OpenedOut(f, isSeq, k, at, r) && f.tokens == q.tokens && f.inMapping == q.inMapping
    ensures OpenedOut(q, isSeq, k, at, r.(mark := mark))
  {
    hide Levels;
  }

  lemma OpensOut(q: Queue, p: Piece, isSeq: bool, at: Place, base: int) returns (n: Queue)
    requires Stands(q, at) && Alone(p) && q.indent <= p.mark.col && !Missed(q.keys[0], p.mark) && p.lexeme == FlowStart(isSeq)
    requires at.indent <= base
    ensures Taken(q, p) == Ok(n) && AtEntry(n, base) && OpenedOut(q, isSeq, KeyAt(q, p), at, n)
  {
    StandsLevels(q, at);
    StandsOutside(q, at);
    hide *;
    Passed(q, p);
    FacingOpens(q, p, isSeq, at);
    n := Taken(q, p).value;
    OpenedEntryOut(q, isSeq, KeyAt(q, p), at, n, base);
  }

  lemma OpenedEntryOut(q: Queue, isSeq: bool, k: SimpleKey, at: Place, n: Queue, base: int)
    requires OpenedOut(q, isSeq, k, at, n) && at.indent <= base
    ensures AtEntry(n, base)
  {
    EntryOut(n, n.(flow := 0, keys := [k], implicit := []), at, base);
  }

  lemma EntryOut(n: Queue, o: Queue, at: Place, base: int)
    requires Stands(o, at) && o.levels == n.levels && o.indent == n.indent && at.indent <= base
    requires n.flow == 1 && |n.keys| == 2 && n.keys[1] == NoKey() && n.allowed && (n.inMapping || n.implicit != [])
    ensures AtEntry(n, base)
  {
    StandsLevels(o, at);
    hide Levels;
  }

  // A level that starts no block makes no difference to where the scanner stands.
  lemma OneInStands(q: Queue, at: Place)
    requires Stands(q, at)
    ensures Stands(OneIn(q), at) && OneIn(q) == q.(levels := OneIn(q).levels, indent := OneIn(q).indent)
  {
    StandsLevels(q, at);
  }

  // Behind a closing bracket or brace.
  lemma ClosesOut(inner: Queue, n: Queue, at: Place, k: SimpleKey)
    requires |inner.keys| == 2 && inner.keys[0] == k && inner.flow == 1
    requires Stands(inner.(flow := 0, keys := [k], implicit := []), at)
    requires SameBlocks(inner, n) && n.keys == inner.keys[..1] && n.flow == 0 && n.implicit == []
    ensures Stands(n, at) && n.keys == [k]
  {
    hide Levels;
    StandsLevels(inner.(flow := 0, keys := [k], implicit := []), at);
  }

  // ------------------------------------------------------------------ indicators

  function Starts(at: Place, col: nat, t: Token): seq<Token> {
    if at.indent < col then [t] else []
  }

  // Where a level begins.
  lemma PushedOut(q: Queue, col: nat, at: Place)
    requires Stands(q, at) && at.indent < col && q.indent <= col
    ensures var p := if q.indent <= col && q.levels != [] && !OnBlock(q) then Popped(q) else q;
            && p.indent < col && p.tokens == q.tokens && Outside(p)
            && var r := Pushed(p, col, true); r == q.(levels := Inner(at, col).levels, indent := col)
  {
    StandsLevels(q, at);
    hide Levels;
  }

  lemma RolledFurther(q: Queue, col: nat, number: nat, t: Token, at: Place)
    requires Stands(q, at) && at.indent < col && q.indent <= col && number <= |q.tokens|
    ensures var r := Rolled(q, col, number, t);
            && r == q.(tokens := r.tokens, levels := Inner(at, col).levels, indent := col)
            && r.tokens == q.tokens[..number] + [t] + q.tokens[number..]
  {
    PushedOut(q, col, at);
    hide Levels, Stands, Inner, Pushed;
    StandsOutside(q, at);
  }

  lemma RolledNone(q: Queue, number: nat, t: Token, at: Place)
    requires Stands(q, at) && at.indent >= 0
    ensures Rolled(q, at.indent, number, t) == q
  {
    StandsLevels(q, at);
  }

  // The block is the one there is, or a new one whose start goes in at token `number`.
  lemma RolledOut(q: Queue, col: nat, number: nat, t: Token, at: Place)
    requires Stands(q, at) && at.indent <= col && number <= |q.tokens|
    ensures var r := Rolled(q, col, number, t);
            && Stands(r, Inner(at, col)) && r == q.(tokens := r.tokens, levels := r.levels, indent := r.indent)
            && r.tokens == q.tokens[..number] + Starts(at, col, t) + q.tokens[number..]
  {
    StandsOutside(q, at);
    StandsLevels(q, at);
    hide Levels;
    if col > at.indent {
      RolledFurther(q, col, number, t, at);
      InnerStands(q, at, col, Rolled(q, col, number, t));
    } else {
      RolledNone(q, number, t, at);
      assert q.tokens == q.tokens[..number] + [] + q.tokens[number..];
    }
  }

  lemma InnerStands(q: Queue, at: Place, col: nat, r: Queue)
    requires Stands(q, at) && at.indent < col && r == q.(tokens := r.tokens, levels := Inner(at, col).levels, indent := col)
    ensures Stands(r, Inner(at, col))
  {
    InnerSound(at, col);
    hide Levels;
  }

  // Behind an indicator that adds `words`: in the block `to`, with no key in sight.
  predicate Indicated(q: Queue, words: seq<Token>, allowed: bool, to: Place, n: Queue) {
    Stands(n, to) && !n.keys[0].possible && n.allowed == allowed && n.inMapping == q.inMapping && n.tokens == q.tokens + words
  }

  lemma IndicatedFrom(q: Queue, s: Queue, words: seq<Token>, allowed: bool, to: Place, r: Queue, mark: Mark)
    requires Indicated(s, words, allowed, to, r) && s.tokens == q.tokens && s.inMapping == q.inMapping
    ensures Indicated(q, words, allowed, to, r.(mark := mark))
  {
    hide Levels;
  }

  // A key no longer possible is withdrawn without an error.
  lemma WithdrawnOut(q: Queue, at: Place)
    requires Stands(q, at) && Calm(q)
    ensures Removed(q) == Ok(q.(keys := [Off(q.keys[0])])) && Stands(q.(keys := [Off(q.keys[0])]), at)
  {
    hide Levels;
    assert q.keys[|q.keys| - 1 := Off(q.keys[0])] == [Off(q.keys[0])];
  }

  lemma AtTheEnd(ts: seq<Token>, a: seq<Token>, t: Token)
    ensures ts[..|ts|] + a + ts[|ts|..] + [t] == ts + (a + [t])
  {
    assert ts[..|ts|] == ts && ts[|ts|..] == [];
  }

  lemma DashOut(f: Queue, bare: bool, anchored: bool, at: Place)
    requires Stands(f, at) && Calm(f) && f.allowed && at.indent <= f.mark.col && (anchored && f.mark.col == 0 ==> at.indent == -1)
    ensures var r := DashRead(f, bare, anchored);
            r.Ok? && Indicated(f, Starts(at, f.mark.col, BlockSequenceStart) + [BlockEntry], true, Inner(at, f.mark.col), r.value)
  {
    StandsLevels(f, at);
    StandsOutside(f, at);
    hide Levels, Stands, Rolled, OneIn, Removed;
    var col, to := f.mark.col, Inner(at, f.mark.col);
    RolledOut(f, col, |f.tokens|, BlockSequenceStart, at);
    var p := Rolled(f, col, |f.tokens|, BlockSequenceStart);
    OneInStands(p, to);
    WithdrawnOut(p, to);
    WithdrawnOut(OneIn(p), to);
    var e := Removed(if bare then OneIn(p) else p).value;
    StandsWith(e, to, DashRead(f, bare, anchored).value);
    AtTheEnd(f.tokens, Starts(at, col, BlockSequenceStart), BlockEntry);
  }

  lemma QuestionOut(f: Queue, at: Place)
    requires Stands(f, at) && Calm(f) && f.allowed && at.indent <= f.mark.col
    ensures var r := QuestionRead(f);
            r.Ok? && Indicated(f, Starts(at, f.mark.col, BlockMappingStart) + [Key], true, Inner(at, f.mark.col), r.value)
  {
    StandsOutside(f, at);
    hide Levels, Stands, Rolled, Removed;
    var col, to := f.mark.col, Inner(at, f.mark.col);
    RolledOut(f, col, |f.tokens|, BlockMappingStart, at);
    var p := Rolled(f, col, |f.tokens|, BlockMappingStart);
    WithdrawnOut(p, to);
    StandsWith(Removed(p).value, to, QuestionRead(f).value);
    AtTheEnd(f.tokens, Starts(at, col, BlockMappingStart), Key);
  }

  // A `:` with no key in front of it.
  lemma ColonOut(f: Queue, at: Place)
    requires Stands(f, at) && !f.keys[0].possible && f.allowed && at.indent <= f.mark.col
    ensures var r := ColonRead(f);
            r.Ok? && Indicated(f, Starts(at, f.mark.col, BlockMappingStart) + [Value], true, Inner(at, f.mark.col), r.value)
  {
    StandsOutside(f, at);
    hide Levels, Stands, Rolled, OneIn;
    var col, to := f.mark.col, Inner(at, f.mark.col);
    RolledOut(f, col, |f.tokens|, BlockMappingStart, at);
    var p := Rolled(f, col, |f.tokens|, BlockMappingStart);
    OneInStands(p, to);
    StandsOutside(OneIn(p), to);
    StandsWith(OneIn(p), to, ColonRead(f).value);
    AtTheEnd(f.tokens, Starts(at, col, BlockMappingStart), Value);
  }

  // A `:` behind a key that began at token `t`, in the column of the block or further in.
  lemma KeyOut(f: Queue, at: Place)
    requires Stands(f, at) && f.keys[0].possible && f.keys[0].tokenNumber <= |f.tokens| && at.indent <= f.keys[0].mark.col
    ensures var r, k := ColonRead(f), f.keys[0];
            && r.Ok? && Stands(r.value, Inner(at, k.mark.col)) && !r.value.keys[0].possible && !r.value.allowed && r.value.inMapping == f.inMapping
            && r.value.tokens == f.tokens[..k.tokenNumber] + (Starts(at, k.mark.col, BlockMappingStart) + [Key]) + f.tokens[k.tokenNumber..] + [Value]
  {
    StandsOutside(f, at);
    hide Levels, Stands, Rolled, OneIn, Starts;
    var k := f.keys[0];
    var pos, col, to := k.tokenNumber, k.mark.col, Inner(at, k.mark.col);
    var p := Put(f, pos, Key);
    StandsWith(f, at, p);
    RolledOut(p, col, pos, BlockMappingStart, at);
    var r := Rolled(p, col, pos, BlockMappingStart);
    OneInStands(r, to);
    StandsOutside(OneIn(r), to);
    StandsWith(OneIn(r), to, ColonRead(f).value);
    PutBefore(f.tokens, pos, Starts(at, col, BlockMappingStart));
  }

  lemma PutBefore(ts: seq<Token>, pos: nat, a: seq<Token>)
    requires pos <= |ts|
    ensures var p := ts[..pos] + [Key] + ts[pos..]; p[..pos] + a + p[pos..] == ts[..pos] + (a + [Key]) + ts[pos..]
  {
    var p := ts[..pos] + [Key] + ts[pos..];
    assert p[..pos] == ts[..pos] && p[pos..] == [Key] + ts[pos..];
  }

  // ------------------------------------------------------------------ indicators in a block

  // In the column of the block; or further in, where nothing of the block has been read.
  predicate AtBlock(q: Queue, p: Piece, at: Place) {
    Pending(q, at) && Alone(p) && (p.mark.col == at.indent || (p.mark.col > at.indent && Stands(q, at)))
  }

  lemma FacingOut(s: Queue, p: Piece, at: Place)
    requires Stands(s, at) && Calm(s)
    ensures Stands(Facing(s, p), at) && Calm(Facing(s, p)) && !Missed(s.keys[0], p.mark)
  {
    hide Levels;
  }

  // What the step does to the piece it faces, it does to the piece.
  lemma IndicatorGets(q: Queue, p: Piece, at: Place, s: Queue, words: seq<Token>) returns (n: Queue)
    requires Stands(s, at) && Outside(s) && s.indent <= p.mark.col && Taken(q, p) == Taken(s, p) && s.tokens == Ended(q, at).tokens
    requires s.inMapping == q.inMapping && !Missed(s.keys[0], p.mark) && Alone(p) && !p.lexeme.EndOfInput?
    requires Read(Facing(s, p), p).Ok? && Indicated(Facing(s, p), words, true, Inner(at, p.mark.col), Read(Facing(s, p), p).value)
    ensures Taken(q, p) == Ok(n) && Indicated(Ended(q, at), words, true, Inner(at, p.mark.col), n)
  {
    StandsLevels(s, at);
    UnrolledRest(q, at.indent);
    hide Levels, Stands, Read, Taken, Indicated;
    Passed(s, p);
    n := Taken(s, p).value;
    IndicatedFrom(Ended(q, at), Facing(s, p), words, true, Inner(at, p.mark.col), Read(Facing(s, p), p).value, p.after);
  }

  lemma DashGets(q: Queue, p: Piece, at: Place) returns (n: Queue)
    requires AtBlock(q, p, at) && IsDash(p, p.mark.col, at.indent) && (q.allowed || p.newline)
    ensures Taken(q, p) == Ok(n)
    ensures Indicated(Ended(q, at), Starts(at, p.mark.col, BlockSequenceStart) + [BlockEntry], true, Inner(at, p.mark.col), n)
  {
    hide Levels, Stands, Taken, DashRead, Indicated;
    var s := Settled(q, p, at);
    FacingOut(s, p, at);
    StandsOutside(s, at);
    DashOut(Facing(s, p), p.lexeme.bare, p.lexeme.anchored, at);
    n := IndicatorGets(q, p, at, s, Starts(at, p.mark.col, BlockSequenceStart) + [BlockEntry]);
  }

  lemma AskedOut(q: Queue, p: Piece, at: Place) returns (n: Queue)
    requires AtBlock(q, p, at) && p.lexeme == Question && (q.allowed || p.newline)
    ensures Taken(q, p) == Ok(n)
    ensures Indicated(Ended(q, at), Starts(at, p.mark.col, BlockMappingStart) + [Key], true, Inner(at, p.mark.col), n)
  {
    hide Levels, Stands, Taken, QuestionRead, Indicated;
    var s := Settled(q, p, at);
    FacingOut(s, p, at);
    StandsOutside(s, at);
    QuestionOut(Facing(s, p), at);
    n := IndicatorGets(q, p, at, s, Starts(at, p.mark.col, BlockMappingStart) + [Key]);
  }

  // A `:` on a line below every key.
  lemma ColonGets(q: Queue, p: Piece, at: Place) returns (n: Queue)
    requires AtBlock(q, p, at) && p.lexeme == Colon && (q.allowed || p.newline)
    requires q.keys[0].possible ==> q.keys[0].mark.line < p.mark.line
    ensures Taken(q, p) == Ok(n)
    ensures Indicated(Ended(q, at), Starts(at, p.mark.col, BlockMappingStart) + [Value], true, Inner(at, p.mark.col), n)
  {
    hide Levels, Stands, Taken, ColonRead, Indicated;
    var s := Settled(q, p, at);
    FacingOut(s, p, at);
    StandsOutside(s, at);
    ColonOut(Facing(s, p), at);
    n := IndicatorGets(q, p, at, s, Starts(at, p.mark.col, BlockMappingStart) + [Value]);
  }

  // A `:` behind a key that may still be one.
  lemma KeyGets(q: Queue, p: Piece, at: Place, k: SimpleKey) returns (n: Queue)
    requires Stands(q, at) && q.keys == [k] && k.possible && k.tokenNumber <= |q.tokens| && at.indent <= k.mark.col
    requires p.lexeme == Colon && Clear(p, k.mark.col) && Near(k.mark, p.mark)
    ensures Taken(q, p) == Ok(n) && Stands(n, Inner(at, k.mark.col)) && !n.keys[0].possible && !n.allowed && n.inMapping == q.inMapping
    ensures n.tokens == q.tokens[..k.tokenNumber] + (Starts(at, k.mark.col, BlockMappingStart) + [Key]) + q.tokens[k.tokenNumber..] + [Value]
  {
    StandsLevels(q, at);
    StandsOutside(q, at);
    hide Levels, Stands, Taken, ColonRead, Starts;
    Passed(q, p);
    StandsWith(q, at, Facing(q, p));
    KeyOut(Facing(q, p), at);
    n := Taken(q, p).value;
    StandsOutside(ColonRead(Facing(q, p)).value, Inner(at, k.mark.col));
    StandsWith(ColonRead(Facing(q, p)).value, Inner(at, k.mark.col), n);
  }

  // A directive or a document marker.
  lemma MarginGets(q: Queue, p: Piece, t: Token) returns (n: Queue)
    requires Pending(q, Bottom) && Alone(p) && (p.lexeme == Directive(t) || p.lexeme == Lexeme.DocumentMarker(t))
    ensures Taken(q, p) == Ok(n) && Indicated(Ended(q, Bottom), [t], false, Bottom, n)
  {
    hide Taken, Removed;
    var u := Ended(q, Bottom);
    UnrolledRest(q, -1);
    MarginEnded(q, p);
    assert Stands(u, Bottom);
    FacingOut(u, p, Bottom);
    var f := Facing(u, p);
    Passed(u, p);
    UnrolledThere(f, -1);
    WithdrawnOut(f, Bottom);
    n := Taken(q, p).value;
  }
}
