// From the pieces of a text to events: the scanner's tokens, read by the parser
// (crates/yamluna-scanner/src/scanner.rs, crates/yamluna-scanner/src/parser.rs).
module TextToEvents {
  import opened Results
  import opened Events
  import opened Grammar
  import opened ParserStep
  import opened ParserRun
  import opened TokenBalance
  import opened TokenSteps
  import ParserSafety
  import TokenQueue
  import Parser

  // ------------------------------------------------------------------ no end, no success

  predicate Unending(toks: seq<Token>) {
    forall i | 0 <= i < |toks| :: !toks[i].StreamEnd?
  }

  // A step neither ends the stream nor finds an end that was not there.
  predicate Onwards(o: Outcome) {
    o.Emit? ==> Unending(o.next.toks) && !o.event.StreamEnd?
  }

  lemma PropertiesUnending(m: Machine)
    requires Unending(m.toks)
    ensures var r := ReadProperties(m); r.Ok? ==> Unending(r.value.1.toks) && r.value.1.states == m.states
  {
    hide ResolveTag;
  }

  lemma ContentOnwards(m: Machine, p: Properties, block: bool, indentless: bool)
    requires m.states != [] && Unending(m.toks)
    ensures Onwards(NodeContent(m, p, block, indentless))
  {
  }

  lemma NodeOnwards(m: Machine, block: bool, indentless: bool)
    requires m.states != [] && Unending(m.toks)
    ensures Onwards(OnNode(m, block, indentless))
  {
    hide ReadProperties, NodeContent;
    PropertiesUnending(m);
    var r := ReadProperties(m);
    if r.Ok? {
      ContentOnwards(r.value.1, r.value.0, block, indentless);
    }
  }

  lemma NestedOnwards(m: Machine, back: State, block: bool, indentless: bool)
    requires Unending(m.toks)
    ensures Onwards(Nested(m, back, block, indentless))
  {
    hide OnNode;
    NodeOnwards(m.Push(back), block, indentless);
  }

  lemma SkipUnending(m: Machine)
    requires Unending(m.toks) && m.toks != []
    ensures Unending(m.Skip().toks)
  {
  }

  lemma {:induction false} EndsUnending(m: Machine)
    requires Unending(m.toks)
    ensures Unending(SkipDocumentEnds(m).toks)
    decreases |m.toks|
  {
    if m.At(Token.DocumentEnd) {
      EndsUnending(m.Skip());
    }
  }

  lemma {:induction false} DirectivesUnending(m: Machine, d: Directives)
    requires Unending(m.toks)
    ensures var r := ReadDirectives(m, d); r.Ok? ==> Unending(r.value.toks)
    decreases |m.toks|
  {
    if m.toks != [] {
      match m.toks[0] {
        case VersionDirective(major, minor) =>
          DirectivesUnending(m.Skip().(env := m.env.(version := Some((major, minor)))), d.(versionSeen := true));
        case TagDirective(handle, prefix) =>
          DirectivesUnending(m.Skip(), d.(tags := d.tags[handle := prefix]));
        case ReservedDirective(_, _) =>
          DirectivesUnending(m.Skip(), d);
        case _ =>
      }
    }
  }

  lemma DocumentOnwards(m: Machine, implicit: bool)
    requires Unending(m.toks)
    ensures Onwards(OnDocumentStart(m, implicit))
  {
    hide ReadDirectives, SkipDocumentEnds;
    EndsUnending(m);
    var n := SkipDocumentEnds(m);
    DirectivesUnending(n.(env := n.env.(version := None)), Directives(false, map[]));
  }

  lemma ContentStartOnwards(m: Machine)
    requires Unending(m.toks) && m.states != []
    ensures Onwards(OnDocumentContent(m))
  {
    hide OnNode;
    NodeOnwards(m, true, false);
  }

  lemma BlockMappingOnwards(m: Machine, first: bool)
    requires Unending(m.toks) && m.states != []
    ensures Onwards(OnBlockMappingKey(m, first)) && Onwards(OnBlockMappingValue(m))
  {
    hide Nested;
    if m.toks != [] {
      NestedOnwards(m.Skip(), BlockMappingKey, true, true);
      var n := if first then m.Skip() else m;
      if n.toks != [] {
        NestedOnwards(n.Skip(), BlockMappingValue, true, true);
      }
    }
  }

  lemma BlockSequenceOnwards(m: Machine, first: bool)
    requires Unending(m.toks) && m.states != []
    ensures Onwards(OnBlockSequenceEntry(m, first)) && Onwards(OnIndentlessSequenceEntry(m))
  {
    hide Nested;
    if m.toks != [] {
      NestedOnwards(m.Skip(), IndentlessSequenceEntry, true, false);
      var n := if first then m.Skip() else m;
      if n.toks != [] {
        NestedOnwards(n.Skip(), BlockSequenceEntry, true, false);
      }
    }
  }

  lemma EntryOnwards(m: Machine)
    requires Unending(m.toks) && m.states != []
    ensures Onwards(FlowMappingEntry(m)) && Onwards(FlowSequenceItem(m))
  {
    hide Nested;
    NestedOnwards(m, FlowMappingEmptyValue, false, false);
    NestedOnwards(m, FlowSequenceEntry, false, false);
    if m.toks != [] {
      NestedOnwards(m.Skip(), FlowMappingValue, false, false);
    }
  }

  lemma FlowOnwards(m: Machine, first: bool)
    requires Unending(m.toks) && m.states != []
    ensures Onwards(OnFlowMappingKey(m, first)) && Onwards(OnFlowSequenceEntry(m, first))
  {
    hide FlowMappingEntry, FlowSequenceItem;
    if m.toks != [] {
      var n := if first then m.Skip() else m;
      EntryOnwards(n);
      if n.toks != [] {
        EntryOnwards(n.Skip());
      }
    }
  }

  lemma ValueOnwards(m: Machine, empty: bool)
    requires Unending(m.toks)
    ensures Onwards(OnFlowMappingValue(m, empty)) && Onwards(FlowPairKey(m)) && Onwards(FlowPairValue(m))
  {
    hide Nested;
    NestedOnwards(m, FlowSequenceEntryMappingValue, false, false);
    if m.toks != [] {
      NestedOnwards(m.Skip(), FlowMappingKey, false, false);
      NestedOnwards(m.Skip(), FlowSequenceEntryMappingEnd, false, false);
    }
  }

  lemma StepOnwards(m: Machine)
    requires m.Valid() && Unending(m.toks) && !m.state.End?
    ensures Onwards(Step(m))
  {
    hide OnNode, OnDocumentStart, OnDocumentContent, OnBlockMappingKey, OnBlockMappingValue, OnBlockSequenceEntry,
         OnIndentlessSequenceEntry, OnFlowMappingKey, OnFlowSequenceEntry, OnFlowMappingValue, FlowPairKey, FlowPairValue;
    if m.state.ImplicitDocumentStart? || m.state.DocumentStart? {
      DocumentOnwards(m, m.state.ImplicitDocumentStart?);
    } else if m.states != [] {
      var first := m.state.BlockMappingFirstKey? || m.state.BlockSequenceFirstEntry? || m.state.FlowMappingFirstKey? || m.state.FlowSequenceFirstEntry?;
      NodeOnwards(m, true, false);
      ContentStartOnwards(m);
      BlockMappingOnwards(m, first);
      BlockSequenceOnwards(m, first);
      FlowOnwards(m, first);
      ValueOnwards(m, m.state.FlowMappingEmptyValue?);
    }
  }

  // Tokens that never end the stream are never read with success.
  lemma {:induction false} UnendingFails(m: Machine, perDocument: bool)
    requires m.Valid() && !m.state.End? && Unending(m.toks)
    ensures RunFrom(m, perDocument).error.Some?
    decreases ParserSafety.Distance(m)
  {
    hide Step, Machine.Valid;
    StepOnwards(m);
    if Step(m).Emit? {
      var e := Step(m).event;
      ParseStep(m, perDocument);
      UnendingFails(Forget(Step(m).next, e, perDocument), perDocument);
    }
  }

  // ------------------------------------------------------------------ comments of a text

  // The comments among tokens.
  function Remarks(ts: seq<Token>): seq<string> {
    if ts == [] then [] else (if ts[0].Comment? then [ts[0].text] else []) + Remarks(ts[1..])
  }

  // The comments of a text, up to its end.
  function TextRemarks(input: seq<Piece>): seq<string>
    decreases |input|
  {
    if input == [] then []
    else if input[0].lexeme.EndOfInput? then Remarks(input[0].comments)
    else Remarks(input[0].comments) + Remarks(input[0].trailing) + TextRemarks(input[1..])
  }

  lemma {:induction false} RemarksJoin(a: seq<Token>, b: seq<Token>)
    ensures Remarks(a + b) == Remarks(a) + Remarks(b)
    decreases |a|
  {
    if a == [] {
      assert a + b == b;
    } else {
      assert (a + b)[1..] == a[1..] + b;
      RemarksJoin(a[1..], b);
    }
  }

  // A step adds no comment.
  predicate Silent(q: Queue, n: Queue) {
    Remarks(n.tokens) == Remarks(q.tokens)
  }

  predicate AllSilent(q: Queue, n: Next) {
    n.Ok? ==> Silent(q, n.value)
  }

  lemma AddedSilent(q: Queue, t: Token)
    requires !t.Comment?
    ensures Silent(q, Added(q, t))
  {
    RemarksJoin(q.tokens, [t]);
  }

  lemma PutSilent(q: Queue, pos: nat, t: Token)
    requires !t.Comment?
    ensures Silent(q, Put(q, pos, t))
  {
    if pos <= |q.tokens| {
      var a, b := q.tokens[..pos], q.tokens[pos..];
      assert q.tokens == a + b;
      RemarksJoin(a, b);
      RemarksJoin(a + [t], b);
      RemarksJoin(a, [t]);
    }
  }

  lemma RolledSilent(q: Queue, col: nat, number: nat, t: Token)
    requires !t.Comment?
    ensures Silent(q, Rolled(q, col, number, t))
  {
    hide Put;
    var p := if q.indent <= col && q.levels != [] && !OnBlock(q) then Popped(q) else q;
    PutSilent(Pushed(p, col, true), number, t);
  }

  lemma {:induction false} UnrolledSilent(q: Queue, col: int)
    ensures Silent(q, Unrolled(q, col))
    decreases |q.levels|
  {
    hide Remarks;
    if !(q.flow > 0 || q.indent <= col || q.levels == []) {
      AddedSilent(Popped(q), BlockEnd);
      UnrolledSilent(if OnBlock(q) then Added(Popped(q), BlockEnd) else Popped(q), col);
    }
  }

  lemma {:induction false} BlocksSilent(q: Queue)
    ensures BlocksOnly(q).tokens == q.tokens
    decreases |q.levels|
  {
    if q.levels != [] && !OnBlock(q) {
      BlocksSilent(Popped(q));
    }
  }

  lemma KeptTokens(q: Queue)
    ensures Removed(q).Ok? ==>
              var r := Removed(q).value; r.tokens == q.tokens && r.flow == q.flow && |r.keys| == |q.keys|
    ensures Dropped(q).Ok? ==> Dropped(q).value.tokens == q.tokens
    ensures Staled(q).Ok? ==> Staled(q).value.tokens == q.tokens
    ensures Saved(q).tokens == q.tokens && OneIn(q).tokens == q.tokens && Entering(q).tokens == q.tokens
    ensures Withdrawn(q).tokens == q.tokens && SequenceLeft(q).tokens == q.tokens
  {
  }

  lemma BoundarySilent(q: Queue, t: Token)
    requires !t.Comment?
    ensures AllSilent(q, Boundary(q, t))
  {
    hide Unrolled, Added, Removed, Remarks;
    UnrolledSilent(q, -1);
    KeptTokens(Unrolled(q, -1));
    var e := Removed(Unrolled(q, -1));
    if e.Ok? {
      AddedSilent(Allowing(e.value, false), t);
    }
  }

  lemma EndSilent(q: Queue)
    ensures AllSilent(q, StreamEnded(q))
  {
    hide Unrolled, Added, Removed, Dropped, Remarks;
    KeptTokens(q);
    if Dropped(q).Ok? {
      var d := Unrolled(Dropped(q).value, -1);
      UnrolledSilent(Dropped(q).value, -1);
      KeptTokens(d);
      if Removed(d).Ok? {
        AddedSilent(Allowing(Removed(d).value, false), Token.StreamEnd);
      }
    }
  }

  lemma ScalarSilent(q: Queue, t: Token, newline: bool)
    requires !t.Comment?
    ensures Silent(q, PropertyRead(q, t)) && Silent(q, FlowScalarRead(q, t, newline)) && AllSilent(q, PlainRead(q, t, newline))
  {
    hide Added, Saved, BlocksOnly, Remarks;
    KeptTokens(q);
    AddedSilent(Allowing(Saved(q), false), t);
    AddedSilent(Allowing(Saved(q), newline && q.flow == 0), t);
    BlocksSilent(Allowing(Saved(q), false));
    AddedSilent(Allowing(BlocksOnly(Allowing(Saved(q), false)), newline), t);
  }

  lemma BlockScalarRemarks(q: Queue, t: Token, comments: seq<Token>)
    requires !t.Comment?
    ensures Remarks(BlockScalarRead(q, t, comments).tokens) == Remarks(q.tokens) + Remarks(comments)
  {
    hide Added, Saved, BlocksOnly, Remarks;
    KeptTokens(q);
    var p := BlocksOnly(Allowing(Saved(q), true));
    BlocksSilent(Allowing(Saved(q), true));
    RemarksJoin(p.tokens, comments);
    AddedSilent(AddedAll(p, comments), t);
  }

  lemma ImplicitSilent(q: Queue)
    ensures Silent(q, ImplicitEnded(q))
  {
    if InsideImplicit(q) {
      AddedSilent(q.(inMapping := false, implicit := q.implicit[|q.implicit| - 1 := false]), FlowMappingEnd);
    }
  }

  lemma FlowStartedSilent(q: Queue, isSeq: bool)
    ensures AllSilent(q, FlowStarted(q, isSeq))
  {
    hide Added, Saved, OneIn, Remarks;
    KeptTokens(q);
    KeptTokens(Saved(q));
    var s := OneIn(Saved(q));
    var inner := s.(keys := s.keys + [NoKey()], flow := s.flow + 1, allowed := true);
    AddedSilent(inner.(implicit := inner.implicit + [false]), FlowSequenceStart);
    AddedSilent(inner.(inMapping := true), FlowMappingStart);
  }

  lemma FlowEndedSilent(q: Queue, isSeq: bool)
    ensures AllSilent(q, FlowEnded(q, isSeq))
  {
    hide Added, Removed, ImplicitEnded, SequenceLeft, Remarks;
    KeptTokens(q);
    if q.flow > 0 && q.keys != [] && Removed(q).Ok? {
      var l := FlowLeft(Removed(q).value);
      ImplicitSilent(l);
      KeptTokens(ImplicitEnded(l));
      AddedSilent(SequenceLeft(ImplicitEnded(l)), FlowSequenceEnd);
      AddedSilent(l, FlowMappingEnd);
    }
  }

  lemma CommaSilent(q: Queue)
    ensures AllSilent(q, CommaRead(q))
  {
    hide Added, Removed, ImplicitEnded, Remarks;
    KeptTokens(q);
    if Removed(q).Ok? {
      var p := Allowing(Removed(q).value, true);
      ImplicitSilent(p);
      AddedSilent(ImplicitEnded(p), FlowEntry);
    }
  }

  lemma DashSilent(q: Queue, bare: bool, anchored: bool)
    ensures AllSilent(q, DashRead(q, bare, anchored))
  {
    hide Added, Rolled, OneIn, Removed, Remarks;
    RolledSilent(q, q.mark.col, |q.tokens|, BlockSequenceStart);
    var p := Rolled(q, q.mark.col, |q.tokens|, BlockSequenceStart);
    KeptTokens(p);
    var e := if bare then OneIn(p) else p;
    KeptTokens(e);
    if Removed(e).Ok? {
      AddedSilent(Allowing(Removed(e).value, true), BlockEntry);
    }
  }

  lemma QuestionSilent(q: Queue)
    ensures AllSilent(q, QuestionRead(q))
  {
    hide Added, Rolled, Removed, Remarks;
    RolledSilent(q, q.mark.col, |q.tokens|, BlockMappingStart);
    var k := if q.flow == 0 then Rolled(q, q.mark.col, |q.tokens|, BlockMappingStart) else q.(inMapping := true);
    KeptTokens(k);
    if Removed(k).Ok? {
      AddedSilent(Allowing(Removed(k).value, q.flow == 0), Key);
    }
  }

  lemma ColonSilent(q: Queue)
    ensures AllSilent(q, ColonRead(q))
  {
    hide Added, KeyPut, ValueStarted, Entering, Remarks;
    if q.keys != [] {
      var k, p := q.keys[|q.keys| - 1], Entering(q);
      KeptTokens(q);
      KeySilent(p, k, Implicit(q));
      StartedSilent(p, Implicit(q));
      AddedSilent(KeyPut(p, k, Implicit(q)), Value);
      if ValueStarted(p, Implicit(q)).Ok? {
        AddedSilent(ValueStarted(p, Implicit(q)).value, Value);
      }
    }
  }

  lemma KeySilent(q: Queue, k: SimpleKey, implicit: bool)
    ensures Silent(q, KeyPut(q, k, implicit))
  {
    hide Put, Rolled, OneIn, Withdrawn, Remarks;
    var p := Put(q, k.tokenNumber, Key);
    var f := if implicit then Put(p, k.tokenNumber, FlowMappingStart) else p;
    PutSilent(q, k.tokenNumber, Key);
    PutSilent(p, k.tokenNumber, FlowMappingStart);
    RolledSilent(f, k.mark.col, k.tokenNumber, BlockMappingStart);
    var r := Rolled(f, k.mark.col, k.tokenNumber, BlockMappingStart);
    KeptTokens(r);
    KeptTokens(OneIn(r));
  }

  lemma StartedSilent(q: Queue, implicit: bool)
    ensures AllSilent(q, ValueStarted(q, implicit))
  {
    hide Added, Rolled, OneIn, Remarks;
    var p := if implicit then Added(q, FlowMappingStart) else q;
    AddedSilent(q, FlowMappingStart);
    var r := if q.flow == 0 then Rolled(p, p.mark.col, |p.tokens|, BlockMappingStart) else p;
    RolledSilent(p, p.mark.col, |p.tokens|, BlockMappingStart);
    KeptTokens(r);
  }

  lemma ReadRemarks(q: Queue, p: Piece)
    requires TokenQueue.FitsPiece(p) && Read(q, p).Ok?
    ensures Remarks(Read(q, p).value.tokens) == Remarks(q.tokens) + if p.lexeme.BlockScalar? then Remarks(p.trailing) else []
  {
    hide Boundary, StreamEnded, FlowStarted, FlowEnded, CommaRead, DashRead, QuestionRead, ColonRead, PropertyRead,
         FlowScalarRead, PlainRead, BlockScalarRead, Remarks;
    match p.lexeme {
      case Directive(t) => BoundarySilent(q, t);
      case DocumentMarker(t) => BoundarySilent(q, t);
      case FlowStart(isSeq) => FlowStartedSilent(q, isSeq);
      case FlowEnd(isSeq) => FlowEndedSilent(q, isSeq);
      case Comma => CommaSilent(q);
      case Dash(bare, anchored) => DashSilent(q, bare, anchored);
      case Question => QuestionSilent(q);
      case Colon => ColonSilent(q);
      case Property(t) => ScalarSilent(q, t, true);
      case Quoted(t, newline) => ScalarSilent(q, t, newline);
      case Plain(t, newline) => ScalarSilent(q, t, newline);
      case BlockScalar(t) => BlockScalarRemarks(q, t, p.trailing);
      case Bad(_) =>
      case EndOfInput => EndSilent(q);
    }
  }

  lemma TakenRemarks(q: Queue, p: Piece)
    requires TokenQueue.FitsPiece(p) && Taken(q, p).Ok?
    ensures Remarks(Taken(q, p).value.tokens)
         == Remarks(q.tokens) + Remarks(p.comments) + if p.lexeme.EndOfInput? then [] else Remarks(p.trailing)
  {
    hide Staled, Unrolled, Read, StreamEnded, TokenQueue.FitsPiece, Remarks;
    var r := Reached(q, p);
    RemarksJoin(q.tokens, p.comments);
    KeptTokens(r);
    var s := Staled(r).value;
    UnrolledSilent(s, p.mark.col);
    var u := Unrolled(s, p.mark.col);
    if p.lexeme.EndOfInput? {
      EndSilent(u);
    } else {
      ReadRemarks(u, p);
      RemarksJoin(Read(u, p).value.tokens, p.trailing);
    }
  }

  // Every comment of a text is a token, once, and they keep their order, whatever keys are put in
  // front of what.
  lemma {:induction false} CommentsKept(q: Queue, input: seq<Piece>)
    requires TokenQueue.Fits(input) && Eager(q, input).Ok?
    ensures Remarks(Eager(q, input).value.tokens) == Remarks(q.tokens) + TextRemarks(input)
    decreases |input|
  {
    hide Taken, Remarks, TokenQueue.FitsPiece;
    TokenQueue.NextFits(input, q.mark);
    if input == [] {
      TakenRemarks(q, TokenSteps.AtEnd(q.mark));
      NoRemarks();
    } else {
      TakenRemarks(q, input[0]);
      if !input[0].lexeme.EndOfInput? {
        CommentsKept(Taken(q, input[0]).value, input[1..]);
        Associated(Remarks(q.tokens), Remarks(input[0].comments), Remarks(input[0].trailing), TextRemarks(input[1..]));
      }
    }
  }

  lemma NoRemarks()
    ensures Remarks([]) == []
  {
  }

  lemma Associated(a: seq<string>, b: seq<string>, c: seq<string>, d: seq<string>)
    ensures a + b + c + d == a + (b + c + d)
  {
  }

  // ------------------------------------------------------------------ from text to events

  function Spoken(remarks: seq<string>): seq<Event> {
    if remarks == [] then [] else [Event.Comment(remarks[0])] + Spoken(remarks[1..])
  }

  // The comments the parser finds in tokens that end with the stream.
  lemma {:induction false} CommentsSpoken(ts: seq<Token>)
    requires ts != [] && ts[|ts| - 1] == Token.StreamEnd && TokenQueue.Unended(ts[..|ts| - 1])
    ensures Parser.Comments(ts) == Spoken(Remarks(ts))
    decreases |ts|
  {
    if |ts| == 1 {
      assert ts[1..] == [];
    } else {
      assert ts[..|ts| - 1][0] == ts[0];
      assert ts[1..][..|ts[1..]| - 1] == ts[..|ts| - 1][1..];
      CommentsSpoken(ts[1..]);
      if ts[0].Comment? {
        assert ([ts[0].text] + Remarks(ts[1..]))[1..] == Remarks(ts[1..]);
      } else {
        assert [] + Remarks(ts[1..]) == Remarks(ts[1..]);
      }
    }
  }

  lemma {:induction false} ErasedUnended(ts: seq<Token>)
    requires TokenQueue.Unended(ts)
    ensures Unending(Parser.Erase(ts))
    decreases |ts|
  {
    if ts != [] {
      ErasedUnended(ts[1..]);
    }
  }

  // Reads a text: the scanner's tokens, as far as it gets, and the parser's events from them. What
  // comes out are the events of documents, all of them when nothing is wrong with the text, each
  // comment of the text among them once and in its place in the order of comments; and a text the
  // scanner refuses is refused.
  method ReadText(input: seq<Piece>, keepTags: bool, refusal: string) returns (events: seq<Event>, error: Option<ParseError>)
    requires TokenQueue.Fits(input) && Onward(Begin().mark, input)
    ensures AdvanceAll([WholeStream], Structural(events)).Some?
    ensures error == None ==>
              && Eager(Begin(), input).Ok? && CommentsOf(events) == Spoken(TextRemarks(input))
              && exists docs :: DocsWellFormed(docs) && SpellStream(docs) == Structural(events)
  {
    hide Eager, RunFrom, TokenQueue.Fits, Onward, Begin, AdvanceAll, Structural, CommentsOf, SpellStream, DocsWellFormed, Unending,
         TokenQueue.Unended, Parser.Comments, TextRemarks, Spoken, Remarks, Parser.Erase;
    var tokens, r := TokenQueue.ReadTokens(input);
    var scanError := if r.Err? then Some(refusal) else None;
    events, error := Parser.ReadAll(tokens, keepTags, scanError);
    EveryRunIsGrammatical(Parser.Erase(tokens), keepTags, scanError, false);
    if r.Err? {
      ErasedUnended(tokens);
      UnendingFails(Fresh(Parser.Erase(tokens), keepTags, scanError), false);
    } else {
      CommentsKept(Begin(), input);
      StartSilent();
      CommentsSpoken(tokens);
      assert [] + TextRemarks(input) == TextRemarks(input);
    }
  }

  lemma StartSilent()
    ensures Remarks(Begin().tokens) == []
  {
    assert [Token.StreamStart][1..] == [];
  }
}
