// The scanner's tokens for a flow collection, read piece by piece: those of its tree, exactly when no
// `,` between braces stands in a pair without braces (crates/yamluna-scanner/src/scanner.rs).
module FlowTokens {
  import opened Results
  import opened ScalarEmitter
  import opened Events
  import opened TokenBalance
  import opened TokenSteps
  import opened FlowText
  import Written
  import TextToEvents

  // ------------------------------------------------------------------ piece by piece

  function TakenAll(q: Queue, ps: seq<Piece>): Next
    decreases |ps|
  {
    if ps == [] then Ok(q)
    else
      var n :- Taken(q, ps[0]);
      TakenAll(n, ps[1..])
  }

  lemma {:induction false} TakenJoin(q: Queue, a: seq<Piece>, b: seq<Piece>)
    ensures TakenAll(q, a + b) == if TakenAll(q, a).Ok? then TakenAll(TakenAll(q, a).value, b) else TakenAll(q, a)
    decreases |a|
  {
    hide Taken;
    if a == [] {
      assert a + b == b;
    } else {
      assert (a + b)[1..] == a[1..] + b;
      if Taken(q, a[0]).Ok? {
        TakenJoin(Taken(q, a[0]).value, a[1..], b);
      }
    }
  }

  lemma TakenOne(q: Queue, p: Piece)
    ensures TakenAll(q, [p]) == Taken(q, p)
  {
    hide Taken;
    assert [p][1..] == [];
    if Taken(q, p).Ok? {
      assert TakenAll(Taken(q, p).value, []) == Ok(Taken(q, p).value);
    }
  }

  // ------------------------------------------------------------------ tokens that stay in order

  // A token that is put in front of others.
  predicate Movable(t: Token) {
    t.Key? || t.FlowMappingStart? || t.BlockMappingStart? || t.BlockSequenceStart?
  }

  // The tokens that are only ever added at the end.
  function Kept(ts: seq<Token>): seq<Token> {
    if ts == [] then [] else (if Movable(ts[0]) then [] else [ts[0]]) + Kept(ts[1..])
  }

  lemma {:induction false} KeptJoin(a: seq<Token>, b: seq<Token>)
    ensures Kept(a + b) == Kept(a) + Kept(b)
    decreases |a|
  {
    if a == [] {
      assert a + b == b;
    } else {
      assert (a + b)[1..] == a[1..] + b;
      KeptJoin(a[1..], b);
    }
  }

  lemma KeptOne(t: Token)
    ensures Kept([t]) == if Movable(t) then [] else [t]
  {
    assert [t][1..] == [];
  }

  predicate Appends(q: Queue, n: Queue) {
    Kept(q.tokens) <= Kept(n.tokens)
  }

  predicate AllAppends(q: Queue, n: Next) {
    n.Ok? ==> Appends(q, n.value)
  }

  lemma AppendsTwice(a: Queue, b: Queue, c: Queue)
    requires Appends(a, b) && Appends(b, c)
    ensures Appends(a, c)
  {
  }

  lemma AddedAppends(q: Queue, t: Token)
    ensures Appends(q, Added(q, t))
  {
    KeptJoin(q.tokens, [t]);
  }

  lemma AddedAllAppends(q: Queue, ts: seq<Token>)
    ensures Appends(q, AddedAll(q, ts))
  {
    KeptJoin(q.tokens, ts);
  }

  lemma PutAppends(q: Queue, pos: nat, t: Token)
    requires Movable(t)
    ensures Appends(q, Put(q, pos, t))
  {
    if pos <= |q.tokens| {
      var a, b := q.tokens[..pos], q.tokens[pos..];
      assert q.tokens == a + b;
      KeptJoin(a, b);
      KeptJoin(a + [t], b);
      KeptJoin(a, [t]);
      KeptOne(t);
    }
  }

  lemma SameAppends(q: Queue, n: Queue)
    requires n.tokens == q.tokens
    ensures Appends(q, n)
  {
  }

  lemma RolledAppends(q: Queue, col: nat, number: nat, t: Token)
    requires Movable(t)
    ensures Appends(q, Rolled(q, col, number, t))
  {
    hide Put, Kept;
    var p := if q.indent <= col && q.levels != [] && !OnBlock(q) then Popped(q) else q;
    PutAppends(Pushed(p, col, true), number, t);
  }

  lemma {:induction false} UnrolledAppends(q: Queue, col: int)
    ensures Appends(q, Unrolled(q, col))
    decreases |q.levels|
  {
    hide Kept;
    if !(q.flow > 0 || q.indent <= col || q.levels == []) {
      AddedAppends(Popped(q), BlockEnd);
      UnrolledAppends(if OnBlock(q) then Added(Popped(q), BlockEnd) else Popped(q), col);
    }
  }

  lemma BoundaryAppends(q: Queue, t: Token)
    ensures AllAppends(q, Boundary(q, t))
  {
    hide Unrolled, Added, Removed, Kept;
    UnrolledAppends(q, -1);
    TextToEvents.KeptTokens(Unrolled(q, -1));
    var e := Removed(Unrolled(q, -1));
    if e.Ok? {
      AddedAppends(Allowing(e.value, false), t);
    }
  }

  lemma EndAppends(q: Queue)
    ensures AllAppends(q, StreamEnded(q))
  {
    hide Unrolled, Added, Removed, Dropped, Kept;
    TextToEvents.KeptTokens(q);
    if Dropped(q).Ok? {
      var d := Unrolled(Dropped(q).value, -1);
      UnrolledAppends(Dropped(q).value, -1);
      TextToEvents.KeptTokens(d);
      if Removed(d).Ok? {
        AddedAppends(Allowing(Removed(d).value, false), Token.StreamEnd);
      }
    }
  }

  lemma ScalarAppends(q: Queue, t: Token, newline: bool, comments: seq<Token>)
    ensures Appends(q, PropertyRead(q, t)) && Appends(q, FlowScalarRead(q, t, newline))
    ensures AllAppends(q, PlainRead(q, t, newline)) && Appends(q, BlockScalarRead(q, t, comments))
  {
    hide Added, AddedAll, Saved, BlocksOnly, Kept;
    TextToEvents.KeptTokens(q);
    AddedAppends(Allowing(Saved(q), false), t);
    AddedAppends(Allowing(Saved(q), newline && q.flow == 0), t);
    TextToEvents.BlocksSilent(Allowing(Saved(q), false));
    TextToEvents.BlocksSilent(Allowing(Saved(q), true));
    AddedAppends(Allowing(BlocksOnly(Allowing(Saved(q), false)), newline), t);
    var p := BlocksOnly(Allowing(Saved(q), true));
    AddedAllAppends(p, comments);
    AddedAppends(AddedAll(p, comments), t);
  }

  lemma ImplicitAppends(q: Queue)
    ensures Appends(q, ImplicitEnded(q))
  {
    if InsideImplicit(q) {
      AddedAppends(q.(inMapping := false, implicit := q.implicit[|q.implicit| - 1 := false]), FlowMappingEnd);
    }
  }

  lemma FlowStartAppends(q: Queue, isSeq: bool)
    ensures AllAppends(q, FlowStarted(q, isSeq))
  {
    hide Added, Saved, OneIn, Kept;
    TextToEvents.KeptTokens(q);
    TextToEvents.KeptTokens(Saved(q));
    var s := OneIn(Saved(q));
    var inner := s.(keys := s.keys + [NoKey()], flow := s.flow + 1, allowed := true);
    AddedAppends(inner.(implicit := inner.implicit + [false]), FlowSequenceStart);
    AddedAppends(inner.(inMapping := true), FlowMappingStart);
  }

  lemma FlowEndAppends(q: Queue, isSeq: bool)
    ensures AllAppends(q, FlowEnded(q, isSeq))
  {
    hide Added, Removed, ImplicitEnded, SequenceLeft, Kept;
    TextToEvents.KeptTokens(q);
    if q.flow > 0 && q.keys != [] && Removed(q).Ok? {
      var l := FlowLeft(Removed(q).value);
      ImplicitAppends(l);
      TextToEvents.KeptTokens(ImplicitEnded(l));
      AddedAppends(SequenceLeft(ImplicitEnded(l)), FlowSequenceEnd);
      AddedAppends(l, FlowMappingEnd);
    }
  }

  lemma CommaAppends(q: Queue)
    ensures AllAppends(q, CommaRead(q))
  {
    hide Added, Removed, ImplicitEnded, Kept;
    TextToEvents.KeptTokens(q);
    if Removed(q).Ok? {
      var p := Allowing(Removed(q).value, true);
      ImplicitAppends(p);
      AddedAppends(ImplicitEnded(p), FlowEntry);
    }
  }

  lemma DashAppends(q: Queue, bare: bool, anchored: bool)
    ensures AllAppends(q, DashRead(q, bare, anchored))
  {
    hide Added, Rolled, OneIn, Removed, Kept;
    RolledAppends(q, q.mark.col, |q.tokens|, BlockSequenceStart);
    var p := Rolled(q, q.mark.col, |q.tokens|, BlockSequenceStart);
    TextToEvents.KeptTokens(p);
    var e := if bare then OneIn(p) else p;
    TextToEvents.KeptTokens(e);
    if Removed(e).Ok? {
      AddedAppends(Allowing(Removed(e).value, true), BlockEntry);
    }
  }

  lemma QuestionAppends(q: Queue)
    ensures AllAppends(q, QuestionRead(q))
  {
    hide Added, Rolled, Removed, Kept;
    RolledAppends(q, q.mark.col, |q.tokens|, BlockMappingStart);
    var k := if q.flow == 0 then Rolled(q, q.mark.col, |q.tokens|, BlockMappingStart) else q.(inMapping := true);
    TextToEvents.KeptTokens(k);
    if Removed(k).Ok? {
      AddedAppends(Allowing(Removed(k).value, q.flow == 0), Key);
    }
  }

  lemma ColonAppends(q: Queue)
    ensures AllAppends(q, ColonRead(q))
  {
    hide Added, KeyPut, ValueStarted, Entering, Kept;
    if q.keys != [] {
      var k, p := q.keys[|q.keys| - 1], Entering(q);
      TextToEvents.KeptTokens(q);
      KeyAppends(p, k, Implicit(q));
      StartedAppends(p, Implicit(q));
      AddedAppends(KeyPut(p, k, Implicit(q)), Value);
      if ValueStarted(p, Implicit(q)).Ok? {
        AddedAppends(ValueStarted(p, Implicit(q)).value, Value);
      }
    }
  }

  lemma KeyAppends(q: Queue, k: SimpleKey, implicit: bool)
    ensures Appends(q, KeyPut(q, k, implicit))
  {
    hide Put, Rolled, OneIn, Withdrawn, Kept;
    var p := Put(q, k.tokenNumber, Key);
    var f := if implicit then Put(p, k.tokenNumber, FlowMappingStart) else p;
    PutAppends(q, k.tokenNumber, Key);
    PutAppends(p, k.tokenNumber, FlowMappingStart);
    RolledAppends(f, k.mark.col, k.tokenNumber, BlockMappingStart);
    var r := Rolled(f, k.mark.col, k.tokenNumber, BlockMappingStart);
    TextToEvents.KeptTokens(r);
    TextToEvents.KeptTokens(OneIn(r));
  }

  lemma StartedAppends(q: Queue, implicit: bool)
    ensures AllAppends(q, ValueStarted(q, implicit))
  {
    hide Added, Rolled, OneIn, Kept;
    var p := if implicit then Added(q, FlowMappingStart) else q;
    AddedAppends(q, FlowMappingStart);
    var r := if q.flow == 0 then Rolled(p, p.mark.col, |p.tokens|, BlockMappingStart) else p;
    RolledAppends(p, p.mark.col, |p.tokens|, BlockMappingStart);
    TextToEvents.KeptTokens(r);
  }

  lemma ReadAppends(q: Queue, p: Piece)
    ensures AllAppends(q, Read(q, p))
  {
    hide Boundary, StreamEnded, FlowStarted, FlowEnded, CommaRead, DashRead, QuestionRead, ColonRead, PropertyRead,
         FlowScalarRead, PlainRead, BlockScalarRead, Kept;
    match p.lexeme {
      case Directive(t) => BoundaryAppends(q, t);
      case DocumentMarker(t) => BoundaryAppends(q, t);
      case FlowStart(isSeq) => FlowStartAppends(q, isSeq);
      case FlowEnd(isSeq) => FlowEndAppends(q, isSeq);
      case Comma => CommaAppends(q);
      case Dash(bare, anchored) => DashAppends(q, bare, anchored);
      case Question => QuestionAppends(q);
      case Colon => ColonAppends(q);
      case Property(t) => ScalarAppends(q, t, true, []);
      case Quoted(t, newline) => ScalarAppends(q, t, newline, []);
      case Plain(t, newline) => ScalarAppends(q, t, newline, []);
      case BlockScalar(t) => ScalarAppends(q, t, true, p.trailing);
      case Bad(_) =>
      case EndOfInput => EndAppends(q);
    }
  }

  // Whatever a piece is, what is there keeps its order.
  lemma TakenAppends(q: Queue, p: Piece)
    ensures AllAppends(q, Taken(q, p))
  {
    hide Staled, Unrolled, Read, StreamEnded, Kept;
    var r := Reached(q, p);
    AddedAllAppends(q, p.comments);
    TextToEvents.KeptTokens(r);
    if Staled(r).Ok? {
      var s := Staled(r).value;
      UnrolledAppends(s, p.mark.col);
      var u := Unrolled(s, p.mark.col);
      if p.lexeme.EndOfInput? {
        EndAppends(u);
      } else {
        ReadAppends(u, p);
        if Read(u, p).Ok? {
          AddedAllAppends(Read(u, p).value.(mark := p.after), p.trailing);
        }
      }
    }
  }

  lemma {:induction false} AllTakenAppends(q: Queue, ps: seq<Piece>)
    ensures AllAppends(q, TakenAll(q, ps))
    decreases |ps|
  {
    hide Taken, Kept;
    if ps != [] {
      TakenAppends(q, ps[0]);
      if Taken(q, ps[0]).Ok? {
        AllTakenAppends(Taken(q, ps[0]).value, ps[1..]);
      }
    }
  }

  // ------------------------------------------------------------------ two sequences that part

  // Neither begins with the other.
  predicate Parted(a: seq<Token>, b: seq<Token>)
    decreases |a|
  {
    a != [] && b != [] && (a[0] != b[0] || Parted(a[1..], b[1..]))
  }

  lemma {:induction false} PartedMore(a: seq<Token>, b: seq<Token>, x: seq<Token>, y: seq<Token>)
    requires Parted(a, b) && a <= x && b <= y
    ensures Parted(x, y)
    decreases |a|
  {
    if a[0] == b[0] {
      PartedMore(a[1..], b[1..], x[1..], y[1..]);
    }
  }

  lemma {:induction false} PartedHere(c: seq<Token>, s: Token, t: Token, x: seq<Token>, y: seq<Token>)
    requires s != t
    ensures Parted(c + [s] + x, c + [t] + y)
    decreases |c|
  {
    if c != [] {
      assert (c + [s] + x)[1..] == c[1..] + [s] + x && (c + [t] + y)[1..] == c[1..] + [t] + y;
      PartedHere(c[1..], s, t, x, y);
    }
  }

  lemma {:induction false} PartedDiffer(a: seq<Token>)
    ensures !Parted(a, a)
    decreases |a|
  {
    if a != [] {
      PartedDiffer(a[1..]);
    }
  }

  // ------------------------------------------------------------------ what a stretch of text gives

  // The pieces give exactly the words; or, if they do not, never to be made up for.
  ghost predicate Gets(q: Queue, ps: seq<Piece>, words: seq<Token>, good: bool, n: Queue) {
    if good then TakenAll(q, ps) == Ok(n) && n.tokens == q.tokens + words
    else TakenAll(q, ps).Ok? ==> Parted(Kept(TakenAll(q, ps).value.tokens), Kept(q.tokens + words))
  }

  // What has gone wrong stays wrong.
  lemma GoneWrong(q: Queue, a: seq<Piece>, words: seq<Token>, n: Queue, b: seq<Piece>, all: seq<Token>, m: Queue)
    requires Gets(q, a, words, false, n) && Kept(words) <= Kept(all)
    ensures Gets(q, a + b, all, false, m)
  {
    hide Kept, Parted, TakenAll;
    TakenJoin(q, a, b);
    if TakenAll(q, a).Ok? && TakenAll(q, a + b).Ok? {
      var x := TakenAll(q, a).value;
      AllTakenAppends(x, b);
      KeptJoin(q.tokens, words);
      KeptJoin(q.tokens, all);
      PartedMore(Kept(x.tokens), Kept(q.tokens + words), Kept(TakenAll(x, b).value.tokens), Kept(q.tokens + all));
    }
  }

  lemma GetsBoth(q: Queue, a: seq<Piece>, words: seq<Token>, good: bool, m: Queue, b: seq<Piece>, more: seq<Token>, good2: bool, n: Queue)
    requires Gets(q, a, words, good, m) && (good ==> Gets(m, b, more, good2, n))
    ensures Gets(q, a + b, words + more, good && good2, n)
  {
    hide Kept, Parted, TakenAll;
    TakenJoin(q, a, b);
    if good {
      assert q.tokens + words + more == q.tokens + (words + more);
    } else {
      KeptJoin(words, more);
      GoneWrong(q, a, words, m, b, words + more, n);
    }
  }

  // The same words, otherwise grouped.
  lemma GetsSame(q: Queue, a: seq<Piece>, words: seq<Token>, good: bool, n: Queue, b: seq<Piece>, same: seq<Token>)
    requires Gets(q, a, words, good, n) && a == b && words == same
    ensures Gets(q, b, same, good, n)
  {
  }
}
