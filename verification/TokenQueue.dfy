// The scanner's token queue: tokens that turn out to be keys get `Key` and `BlockMappingStart`
// put in front of them while they wait, and changes of indentation start and end blocks
// (crates/yamluna-scanner/src/scanner.rs).
module TokenQueue {
  import opened Results
  import opened Events
  import opened TokenBalance
  import opened TokenSteps

  // Only comments.
  ghost predicate AllComments(ts: seq<Token>) {
    forall i | 0 <= i < |ts| :: ts[i].Comment?
  }

  // A token of the text that neither starts nor ends a block.
  predicate Neutral(t: Token) {
    Weight(t) == 0
  }

  lemma {:induction false} CommentsNeutral(a: seq<Token>, ts: seq<Token>)
    requires AllComments(ts)
    ensures Net(a + ts) == Net(a) && (Safe(a + ts) <==> Safe(a))
    decreases |ts|
  {
    if ts == [] {
      assert a + ts == a;
    } else {
      var k := |ts| - 1;
      assert a + ts == (a + ts[..k]) + [ts[k]];
      CommentsNeutral(a, ts[..k]);
      NetSnoc(a + ts[..k], ts[k]);
      if Safe(a + ts[..k]) { SafeNet(a + ts[..k]); }
    }
  }

  class Scanner {
    var tokens: seq<Token>
    var tokensParsed: nat
    var tokenAvailable: bool
    var streamStartProduced: bool
    var streamEndProduced: bool
    var simpleKeyAllowed: bool
    var simpleKeys: seq<SimpleKey>
    var indent: int
    var indents: seq<Indent>
    var flowLevel: nat
    var flowMappingStarted: bool
    var implicitFlowMappings: seq<bool>  // for each open flow sequence: inside an implicit mapping
    var mark: Mark

    // The text still to be read.
    var input: seq<Piece>

    // The tokens handed out so far, and whether the end of the text has been reached.
    ghost var handed: seq<Token>
    ghost var ended: bool

    ghost function Stream(): seq<Token>
      reads this`handed, this`tokens
    {
      handed + tokens
    }

    // The state the specification speaks of; handing out a token is no part of it.
    ghost function Now(): Queue
      reads this`handed, this`tokens, this`simpleKeyAllowed, this`simpleKeys, this`indent, this`indents, this`flowLevel,
        this`flowMappingStarted, this`implicitFlowMappings, this`mark
    {
      Queue(Stream(), simpleKeyAllowed, simpleKeys, indent, indents, flowLevel, flowMappingStarted, implicitFlowMappings, mark)
    }

    // A step comes to what its specification says: the same state or the same error.
    ghost predicate Yields(r: Result<(), TokenError>, spec: Next)
      reads this`handed, this`tokens, this`simpleKeyAllowed, this`simpleKeys, this`indent, this`indents, this`flowLevel,
        this`flowMappingStarted, this`implicitFlowMappings, this`mark
    {
      if spec.Ok? then r.Ok? && Now() == spec.value else r == Err(spec.error)
    }

    // Between two operations; `coming` is how many tokens a key may be waiting for.
    ghost predicate Holds(coming: nat)
      reads this`handed, this`tokens, this`tokensParsed, this`streamStartProduced, this`simpleKeys, this`flowLevel, this`indents,
        this`indent
    {
      && |handed| == tokensParsed && streamStartProduced && flowLevel <= 255
      && |simpleKeys| == flowLevel + 1 && Keys(simpleKeys, tokensParsed, tokensParsed + |tokens| + coming)
      && Levels(indents, indent)
      && Safe(Stream()) && Net(Stream()) == Blocks(indents)
    }

    // The text has ended: nothing waits for a `:`, the end of the stream is the last token, and in
    // block context every block has been closed.
    ghost predicate AtEnd()
      reads this`handed, this`tokens, this`simpleKeys, this`flowLevel
    {
      && Stream() != [] && Stream()[|Stream()| - 1] == Token.StreamEnd && Unended(Stream()[..|Stream()| - 1])
      && (forall i | 0 <= i < |simpleKeys| :: !simpleKeys[i].possible)
      && (flowLevel == 0 ==> Net(Stream()) == 0)
    }

    ghost predicate Valid()
      reads this
    {
      && Fits(input) && (!ended ==> Onward(mark, input))
      && (if streamStartProduced then Holds(0)
          else
            && tokens == [] && handed == [] && tokensParsed == 0 && simpleKeys == [] && indents == [] && flowLevel == 0
            && !flowMappingStarted && implicitFlowMappings == [] && mark == Begin().mark
            && !streamEndProduced && !ended)
      && (tokenAvailable ==> Settled())
      && (if ended then AtEnd() else Unended(Stream()))
      && (streamEndProduced ==> ended) && (ended ==> (streamEndProduced <==> tokens == []))
    }

    // What reading the rest of the text comes to.
    ghost function Outcome(): Next
      reads this
    {
      if !streamStartProduced then Eager(Begin(), input)
      else if ended then Ok(Now())
      else Eager(Now(), input)
    }

    // The next token is no possible key, so it can be handed out.
    ghost predicate Settled()
      reads this
    {
      tokens != [] && NoneAt(simpleKeys, tokensParsed)
    }

    constructor (input: seq<Piece>)
      requires Fits(input) && Onward(Begin().mark, input)
      ensures Valid() && handed == [] && this.input == input && !tokenAvailable && !streamEndProduced
      ensures Outcome() == Eager(Begin(), input)
    {
      this.input := input;
      tokens, tokensParsed, tokenAvailable, handed := [], 0, false, [];
      streamStartProduced, streamEndProduced, ended := false, false, false;
      simpleKeyAllowed, simpleKeys, indent, indents := true, [], 0, [];
      flowLevel, flowMappingStarted, implicitFlowMappings := 0, false, [];
      mark := Mark(0, 1, 0);
    }

    // ---------------------------------------------------------------- the queue

    method PushToken(t: Token)
      requires Holds(1) && Neutral(t)
      modifies this`tokens
      ensures Holds(0) && tokens == old(tokens) + [t] && Now() == Added(old(Now()), t)
    {
      hide Net, Safe, Levels, Blocks;
      NetSnoc(Stream(), t);
      assert Stream() + [t] == handed + (tokens + [t]);
      SafeNet(Stream());
      tokens := tokens + [t];
    }

    // Puts a token in front of one that waits; nothing already handed out is touched.
    method InsertToken(pos: nat, t: Token)
      requires pos <= |tokens| && Weight(t) >= 0
      requires Safe(Stream()) && |handed| == tokensParsed
      modifies this`tokens
      ensures tokens == old(tokens)[..pos] + [t] + old(tokens)[pos..]
      ensures Safe(Stream()) && Net(Stream()) == old(Net(Stream())) + Weight(t)
      ensures Now() == Put(old(Now()), tokensParsed + pos, t)
    {
      hide Net, Safe;
      var a, b := handed + tokens[..pos], tokens[pos..];
      assert Stream() == a + b && a == Stream()[..tokensParsed + pos] && b == Stream()[tokensParsed + pos..];
      InsertSafe(a, t, b);
      tokens := tokens[..pos] + [t] + tokens[pos..];
      assert Stream() == a + [t] + b;
    }

    // ---------------------------------------------------------------- indentation

    method PopIndent() returns (top: Indent)
      requires Levels(indents, indent) && indents != []
      modifies this`indent, this`indents
      ensures top == old(indents)[|old(indents)| - 1] && indents == old(indents)[..|old(indents)| - 1]
      ensures indent == top.indent < old(indent)
      ensures Levels(indents, indent) && old(Blocks(indents)) == Blocks(indents) + (if top.needsBlockEnd then 1 else 0)
      ensures !top.needsBlockEnd ==> indents != [] && indents[|indents| - 1].needsBlockEnd
    {
      hide Levels, Blocks;
      LevelsPop(indents, indent);
      top := indents[|indents| - 1];
      indents := indents[..|indents| - 1];
      indent := top.indent;
    }

    method PushIndent(col: int, block: bool)
      requires Levels(indents, indent) && indent < col
      requires !block ==> indents != [] && indents[|indents| - 1].needsBlockEnd
      modifies this`indent, this`indents
      ensures indent == col && indents == old(indents) + [Indent(old(indent), block)]
      ensures Levels(indents, indent) && Blocks(indents) == old(Blocks(indents)) + (if block then 1 else 0)
    {
      hide Levels, Blocks;
      LevelsPush(indents, indent, col, block);
      indents := indents + [Indent(indent, block)];
      indent := col;
    }

    // Starts a block when the column is further in than the current level; `number` is the token
    // it starts at, when that is not the next one.
    method RollIndent(col: nat, number: Option<nat>, t: Token)
      requires Holds(0) && Weight(t) == 1
      requires number.Some? ==> tokensParsed <= number.value <= tokensParsed + |tokens|
      modifies this`tokens, this`indent, this`indents
      ensures Holds(0)
      ensures Now() == Rolled(old(Now()), col, if number.Some? then number.value else |old(Stream())|, t)
    {
      hide Levels, Blocks, Net, Safe, Put;
      if flowLevel > 0 {
        return;
      }
      if indent <= col && indents != [] && !indents[|indents| - 1].needsBlockEnd {
        var _ := PopIndent();
      }
      if indent < col {
        PushIndent(col, true);
        InsertToken(if number.Some? then number.value - tokensParsed else |tokens|, t);
      }
    }

    // Ends the blocks further in than `col`.
    method UnrollIndent(col: int)
      requires Holds(0) && col >= -1
      modifies this`tokens, this`indent, this`indents
      ensures Holds(0) && Now() == Unrolled(old(Now()), col)
      ensures flowLevel == 0 ==> indent <= col
    {
      hide Levels, Blocks, Net, Safe;
      if flowLevel > 0 {
        return;
      }
      LevelsFloor(indents, indent);
      while indent > col
        invariant Holds(0) && (indents == [] <==> indent == -1) && indent >= -1
        invariant Unrolled(Now(), col) == Unrolled(old(Now()), col)
        decreases |indents|
      {
        ghost var q := Now();
        var top := PopIndent();
        assert Now() == Popped(q);
        if top.needsBlockEnd {
          EndBlock();
        }
        LevelsFloor(indents, indent);
      }
    }

    method EndBlock()
      requires Safe(Stream()) && Net(Stream()) > 0
      modifies this`tokens
      ensures tokens == old(tokens) + [BlockEnd] && Now() == Added(old(Now()), BlockEnd)
      ensures Safe(Stream()) && Net(Stream()) == old(Net(Stream())) - 1
    {
      hide Net, Safe;
      NetSnoc(Stream(), BlockEnd);
      assert Stream() + [BlockEnd] == handed + (tokens + [BlockEnd]);
      tokens := tokens + [BlockEnd];
    }

    method RollOneColIndent()
      requires Levels(indents, indent)
      modifies this`indent, this`indents
      ensures Levels(indents, indent) && Blocks(indents) == old(Blocks(indents)) && Now() == OneIn(old(Now()))
    {
      hide Levels, Blocks;
      if flowLevel == 0 && indents != [] && indents[|indents| - 1].needsBlockEnd {
        PushIndent(indent + 1, false);
      }
    }

    method UnrollNonBlockIndents()
      requires Levels(indents, indent)
      modifies this`indent, this`indents
      ensures Levels(indents, indent) && Blocks(indents) == old(Blocks(indents)) && Now() == BlocksOnly(old(Now()))
    {
      hide Levels, Blocks;
      while indents != [] && !indents[|indents| - 1].needsBlockEnd
        invariant Levels(indents, indent) && Blocks(indents) == old(Blocks(indents))
        invariant BlocksOnly(Now()) == BlocksOnly(old(Now()))
        decreases |indents|
      {
        ghost var q := Now();
        var _ := PopIndent();
        assert Now() == Popped(q);
      }
    }

    // ---------------------------------------------------------------- keys

    // The token read next may turn out to be a key.
    method SaveSimpleKey()
      requires Holds(0)
      modifies this`simpleKeys
      ensures Holds(1) && Now() == Saved(old(Now()))
    {
      hide Net, Safe, Levels, Blocks, Keys;
      KeysSave(simpleKeys, tokensParsed, tokensParsed + |tokens|);
      if simpleKeyAllowed {
        LevelsFloor(indents, indent);
        var required := flowLevel == 0 && indent == mark.col && indents[|indents| - 1].needsBlockEnd;
        var k := |simpleKeys| - 1;
        simpleKeys := simpleKeys[..k] + [SimpleKey(true, required, tokensParsed + |tokens|, mark)];
      }
    }

    // A token more may be coming, and the innermost key may be the token coming.
    lemma KeysSave(keys: seq<SimpleKey>, low: nat, high: nat)
      requires Keys(keys, low, high) && keys != [] && low <= high
      ensures Keys(keys, low, high + 1)
      ensures forall k: SimpleKey | k.tokenNumber == high :: Keys(keys[..|keys| - 1] + [k], low, high + 1)
    {
    }

    // The innermost possible key is none.
    method RemoveSimpleKey() returns (r: Result<(), TokenError>)
      requires Holds(0)
      modifies this`simpleKeys
      ensures r.Ok? ==> Holds(0)
      ensures Yields(r, Removed(old(Now())))
    {
      hide Net, Safe, Levels, Blocks;
      var k := |simpleKeys| - 1;
      if simpleKeys[k].possible && simpleKeys[k].required {
        return Err(SimpleKeyExpected);
      }
      simpleKeys := simpleKeys[k := simpleKeys[k].(possible := false)];
      return Ok(());
    }

    // Keys cannot span lines outside flow collections.
    method StaleSimpleKeys() returns (r: Result<(), TokenError>)
      requires Holds(0)
      modifies this`simpleKeys
      ensures r.Ok? ==> Holds(0)
      ensures Yields(r, Staled(old(Now())))
    {
      hide Net, Safe, Levels, Blocks;
      var i: nat := 0;
      while i < |simpleKeys|
        invariant i <= |simpleKeys| == |old(simpleKeys)| && Holds(0)
        invariant forall j | 0 <= j < i ::
            if flowLevel > 0 then simpleKeys[j] == old(simpleKeys)[j]
            else !Missed(old(simpleKeys)[j], mark) && simpleKeys[j] == Checked(old(simpleKeys)[j], mark)
        invariant forall j | i <= j < |simpleKeys| :: simpleKeys[j] == old(simpleKeys)[j]
      {
        var k := simpleKeys[i];
        if k.possible && flowLevel == 0 && (k.mark.line < mark.line || k.mark.index + 1024 < mark.index) {
          if k.required {
            assert k in old(simpleKeys) && Missed(k, mark);
            return Err(SimpleKeyExpected);
          }
          simpleKeys := simpleKeys[i := k.(possible := false)];
        }
        i := i + 1;
      }
      return Ok(());
    }

    // ---------------------------------------------------------------- tokens of the text

    method FetchStreamStart()
      requires Valid() && !streamStartProduced
      modifies this`indent, this`streamStartProduced, this`simpleKeyAllowed, this`tokens, this`simpleKeys
      ensures Holds(0) && Unended(Stream()) && tokens != [] && Now() == Begin()
    {
      hide Net, Safe, Levels, Blocks, Keys, Fits, Onward;
      StartHolds();
      indent := -1;
      streamStartProduced := true;
      simpleKeyAllowed := true;
      tokens := [Token.StreamStart];
      simpleKeys := [SimpleKey(false, false, 0, Mark(0, 0, 0))];
      assert handed + tokens == [Token.StreamStart];
    }

    lemma StartHolds()
      ensures Net([Token.StreamStart]) == 0 && Safe([Token.StreamStart]) && Levels([], -1) && Blocks([]) == 0 && Keys([NoKey()], 0, 1)
    {
      assert [] + [Token.StreamStart] == [Token.StreamStart];
      NetSnoc([], Token.StreamStart);
    }

    // No key is possible any more.
    method DropKeys() returns (r: Result<(), TokenError>)
      requires Holds(0)
      modifies this`simpleKeys
      ensures r.Ok? ==> Holds(0) && forall i | 0 <= i < |simpleKeys| :: !simpleKeys[i].possible
      ensures Yields(r, Dropped(old(Now())))
    {
      hide Net, Safe, Levels, Blocks;
      var i: nat := 0;
      while i < |simpleKeys|
        invariant i <= |simpleKeys| == |old(simpleKeys)| && Holds(0)
        invariant forall j | 0 <= j < i ::
            simpleKeys[j] == Off(old(simpleKeys)[j]) && !(old(simpleKeys)[j].possible && old(simpleKeys)[j].required)
        invariant forall j | i <= j < |simpleKeys| :: simpleKeys[j] == old(simpleKeys)[j]
      {
        if simpleKeys[i].required && simpleKeys[i].possible {
          assert simpleKeys[i] in old(simpleKeys);
          return Err(SimpleKeyExpected);
        }
        simpleKeys := simpleKeys[i := simpleKeys[i].(possible := false)];
        i := i + 1;
      }
      return Ok(());
    }

    // ---------------------------------------------------------------- `:`

    // A `:` behind a token that may be a key: the token is one.
    method InsertKey(implicit: bool)
      requires Holds(0) && simpleKeys[flowLevel].possible
      modifies this`tokens, this`indent, this`indents, this`simpleKeys, this`simpleKeyAllowed
      ensures Holds(0) && Now() == KeyPut(old(Now()), old(simpleKeys)[flowLevel], implicit)
    {
      hide Net, Safe, Levels, Blocks, Keys, Put, Rolled, OneIn, Withdrawn;
      var sk := simpleKeys[flowLevel];
      KeyInQueue(flowLevel);
      PutKey(sk.tokenNumber - tokensParsed, implicit);
      RollIndent(sk.mark.col, Some(sk.tokenNumber), BlockMappingStart);
      RollOneColIndent();
      WithdrawKey();
      simpleKeyAllowed := false;
    }

    // `Key`, and the start of a mapping without braces, in front of a token that waits.
    method PutKey(pos: nat, implicit: bool)
      requires Holds(0) && pos <= |tokens|
      modifies this`tokens
      ensures Holds(0) && |tokens| > |old(tokens)|
      ensures var p := Put(old(Now()), tokensParsed + pos, Key);
              Now() == if implicit then Put(p, tokensParsed + pos, FlowMappingStart) else p
    {
      hide Net, Safe, Levels, Blocks, Put;
      InsertToken(pos, Key);
      if implicit {
        InsertToken(pos, FlowMappingStart);
      }
    }

    lemma KeyInQueue(k: nat)
      requires Holds(0) && k < |simpleKeys| && simpleKeys[k].possible
      ensures tokensParsed <= simpleKeys[k].tokenNumber < tokensParsed + |tokens|
    {
    }

    method WithdrawKey()
      requires Holds(0)
      modifies this`simpleKeys
      ensures Holds(0) && Now() == Withdrawn(old(Now()))
    {
      hide Net, Safe, Levels, Blocks;
      simpleKeys := simpleKeys[flowLevel := simpleKeys[flowLevel].(possible := false)];
    }

    method FetchValue() returns (r: Result<(), TokenError>)
      requires Holds(0)
      modifies this`tokens, this`indent, this`indents, this`simpleKeys, this`simpleKeyAllowed, this`implicitFlowMappings
      ensures r.Ok? ==> Holds(0)
      ensures Yields(r, ColonRead(old(Now())))
    {
      hide Net, Safe, Levels, Blocks, Keys, KeyPut, ValueStarted;
      var sk := simpleKeys[flowLevel];
      var start := mark;
      var implicit := implicitFlowMappings != [] && !flowMappingStarted;
      if implicit {
        implicitFlowMappings := implicitFlowMappings[|implicitFlowMappings| - 1 := true];
      }
      assert Now() == Entering(old(Now()));
      if sk.possible {
        if implicit && sk.mark.line < start.line {
          return Err(MisplacedColon);
        }
        InsertKey(implicit);
      } else {
        var _ :- StartValue(implicit);
      }
      HoldsMore();
      PushToken(Value);
      return Ok(());
    }

    // A `:` with no simple key in front of it.
    method StartValue(implicit: bool) returns (r: Result<(), TokenError>)
      requires Holds(0) && !simpleKeys[flowLevel].possible
      modifies this`tokens, this`indent, this`indents, this`simpleKeyAllowed
      ensures r.Ok? ==> Holds(0)
      ensures Yields(r, ValueStarted(old(Now()), implicit))
    {
      hide Net, Safe, Levels, Blocks, Keys, Rolled, OneIn;
      if implicit {
        HoldsMore();
        PushToken(FlowMappingStart);
      }
      if flowLevel == 0 {
        if !simpleKeyAllowed {
          return Err(ValueNotAllowed);
        }
        RollIndent(mark.col, None, BlockMappingStart);
      }
      RollOneColIndent();
      simpleKeyAllowed := flowLevel == 0;
      return Ok(());
    }

    // A key may wait for one token more than are there.
    lemma HoldsMore()
      requires Holds(0)
      ensures Holds(1)
    {
      hide Net, Safe, Levels, Blocks;
    }

    // ---------------------------------------------------------------- the other tokens

    // Everything closes, in block context.
    method FetchStreamEnd() returns (r: Result<(), TokenError>)
      requires Holds(0) && Unended(Stream())
      modifies this`tokens, this`indent, this`indents, this`simpleKeys, this`simpleKeyAllowed
      ensures r.Ok? ==> Holds(0) && AtEnd() && tokens != []
      ensures Yields(r, StreamEnded(old(Now())))
    {
      hide Net, Safe, Levels, Blocks, Keys, Dropped, Unrolled, Removed;
      var _ :- DropKeys();
      UnrolledUnended(Now(), -1);
      UnrollIndent(-1);
      assert flowLevel == 0 ==> indents == [] by {
        LevelsFloor(indents, indent);
      }
      ghost var q := Now();
      var _ :- RemoveSimpleKey();
      RemovedKeeps(q);
      simpleKeyAllowed := false;
      HoldsMore();
      ghost var before := Stream();
      PushToken(Token.StreamEnd);
      NoBlocks();
      assert Stream() == before + [Token.StreamEnd];
      return Ok(());
    }

    // A directive or a document marker.
    method FetchBoundary(t: Token) returns (r: Result<(), TokenError>)
      requires Holds(0) && Written(t)
      modifies this`tokens, this`indent, this`indents, this`simpleKeys, this`simpleKeyAllowed
      ensures r.Ok? ==> Holds(0)
      ensures Yields(r, Boundary(old(Now()), t))
    {
      hide Net, Safe, Levels, Blocks, Keys, Unrolled, Removed;
      UnrollIndent(-1);
      var _ :- RemoveSimpleKey();
      simpleKeyAllowed := false;
      HoldsMore();
      PushToken(t);
      return Ok(());
    }

    method FetchProperty(t: Token)
      requires Holds(0) && Written(t)
      modifies this`tokens, this`simpleKeys, this`simpleKeyAllowed
      ensures Holds(0) && Now() == PropertyRead(old(Now()), t)
    {
      hide Net, Safe, Levels, Blocks, Keys, Saved;
      SaveSimpleKey();
      simpleKeyAllowed := false;
      PushToken(t);
    }

    method FetchFlowScalar(t: Token, newline: bool)
      requires Holds(0) && Written(t)
      modifies this`tokens, this`simpleKeys, this`simpleKeyAllowed
      ensures Holds(0) && Now() == FlowScalarRead(old(Now()), t, newline)
    {
      hide Net, Safe, Levels, Blocks, Keys, Saved;
      SaveSimpleKey();
      simpleKeyAllowed := newline && flowLevel == 0;
      PushToken(t);
    }

    method FetchPlainScalar(t: Token, newline: bool) returns (r: Result<(), TokenError>)
      requires Holds(0) && Written(t)
      modifies this`tokens, this`simpleKeys, this`simpleKeyAllowed, this`indent, this`indents
      ensures r.Ok? ==> Holds(0)
      ensures Yields(r, PlainRead(old(Now()), t, newline))
    {
      hide Net, Safe, Levels, Blocks, Keys, Saved, BlocksOnly;
      SaveSimpleKey();
      simpleKeyAllowed := false;
      UnrollNonBlockIndents();
      if flowLevel > 0 && mark.col < indent + 1 {
        return Err(InvalidIndentation);
      }
      if newline {
        simpleKeyAllowed := true;
      }
      PushToken(t);
      return Ok(());
    }

    // A comment on the header's line comes before the scalar.
    method FetchBlockScalar(t: Token, comments: seq<Token>)
      requires Holds(0) && Written(t) && AllComments(comments)
      modifies this`tokens, this`simpleKeys, this`simpleKeyAllowed, this`indent, this`indents
      ensures Holds(0) && Now() == BlockScalarRead(old(Now()), t, comments)
    {
      hide Net, Safe, Levels, Blocks, Keys, Saved, BlocksOnly;
      SaveSimpleKey();
      simpleKeyAllowed := true;
      UnrollNonBlockIndents();
      FlushComments(comments, 1);
      PushToken(t);
    }

    method FlushComments(comments: seq<Token>, ghost coming: nat)
      requires Holds(coming) && AllComments(comments)
      modifies this`tokens
      ensures Holds(coming) && Now() == AddedAll(old(Now()), comments)
    {
      hide Net, Safe, Levels, Blocks;
      CommentsNeutral(Stream(), comments);
      assert Stream() + comments == handed + (tokens + comments);
      tokens := tokens + comments;
    }

    method FetchFlowCollectionStart(isSeq: bool) returns (r: Result<(), TokenError>)
      requires Holds(0)
      modifies this`tokens, this`simpleKeys, this`simpleKeyAllowed, this`indent, this`indents, this`flowLevel,
        this`flowMappingStarted, this`implicitFlowMappings
      ensures r.Ok? ==> Holds(0)
      ensures Yields(r, FlowStarted(old(Now()), isSeq))
    {
      hide Net, Safe, Levels, Blocks, Keys, Saved, OneIn;
      SaveSimpleKey();
      RollOneColIndent();
      if flowLevel == 255 {
        return Err(RecursionLimit);
      }
      IncreaseFlowLevel();
      simpleKeyAllowed := true;
      if isSeq {
        implicitFlowMappings := implicitFlowMappings + [false];
      } else {
        flowMappingStarted := true;
      }
      PushToken(if isSeq then FlowSequenceStart else FlowMappingStart);
      return Ok(());
    }

    method IncreaseFlowLevel()
      requires Holds(1) && flowLevel < 255
      modifies this`simpleKeys, this`flowLevel
      ensures Holds(1) && Now() == old(Now()).(keys := old(simpleKeys) + [NoKey()], flow := old(flowLevel) + 1)
    {
      hide Net, Safe, Levels, Blocks;
      simpleKeys := simpleKeys + [SimpleKey(false, false, 0, Mark(0, 0, 0))];
      flowLevel := flowLevel + 1;
    }

    method DecreaseFlowLevel()
      requires Holds(0)
      modifies this`simpleKeys, this`flowLevel
      ensures Holds(0)
      ensures Now() == if old(flowLevel) == 0 then old(Now()) else FlowLeft(old(Now())).(allowed := old(simpleKeyAllowed))
    {
      hide Net, Safe, Levels, Blocks;
      if flowLevel > 0 {
        flowLevel := flowLevel - 1;
        simpleKeys := simpleKeys[..|simpleKeys| - 1];
      }
    }

    method FetchFlowCollectionEnd(isSeq: bool) returns (r: Result<(), TokenError>)
      requires Holds(0)
      modifies this`tokens, this`simpleKeys, this`simpleKeyAllowed, this`flowLevel, this`flowMappingStarted,
        this`implicitFlowMappings
      ensures r.Ok? ==> Holds(0)
      ensures Yields(r, FlowEnded(old(Now()), isSeq))
    {
      hide Net, Safe, Levels, Blocks, Keys, ImplicitEnded;
      if flowLevel == 0 {
        return Err(MisplacedBracket);
      }
      var _ :- RemoveSimpleKey();
      DecreaseFlowLevel();
      simpleKeyAllowed := false;
      if isSeq {
        EndImplicitMapping();
        LeaveSequence();
      }
      HoldsMore();
      PushToken(if isSeq then FlowSequenceEnd else FlowMappingEnd);
      return Ok(());
    }

    method LeaveSequence()
      modifies this`implicitFlowMappings
      ensures Now() == SequenceLeft(old(Now()))
    {
      if implicitFlowMappings != [] {
        implicitFlowMappings := implicitFlowMappings[..|implicitFlowMappings| - 1];
      }
    }

    method EndImplicitMapping()
      requires Holds(0)
      modifies this`tokens, this`flowMappingStarted, this`implicitFlowMappings
      ensures Holds(0) && Now() == ImplicitEnded(old(Now()))
    {
      hide Net, Safe, Levels, Blocks, Keys;
      if implicitFlowMappings != [] && implicitFlowMappings[|implicitFlowMappings| - 1] {
        flowMappingStarted := false;
        implicitFlowMappings := implicitFlowMappings[|implicitFlowMappings| - 1 := false];
        HoldsMore();
        PushToken(FlowMappingEnd);
      }
    }

    method FetchFlowEntry() returns (r: Result<(), TokenError>)
      requires Holds(0)
      modifies this`tokens, this`simpleKeys, this`simpleKeyAllowed, this`flowMappingStarted, this`implicitFlowMappings
      ensures r.Ok? ==> Holds(0)
      ensures Yields(r, CommaRead(old(Now())))
    {
      hide Net, Safe, Levels, Blocks, Keys, Removed, ImplicitEnded;
      var _ :- RemoveSimpleKey();
      simpleKeyAllowed := true;
      EndImplicitMapping();
      HoldsMore();
      PushToken(FlowEntry);
      return Ok(());
    }

    method FetchBlockEntry(bare: bool, anchored: bool) returns (r: Result<(), TokenError>)
      requires Holds(0)
      modifies this`tokens, this`simpleKeys, this`simpleKeyAllowed, this`indent, this`indents
      ensures r.Ok? ==> Holds(0)
      ensures Yields(r, DashRead(old(Now()), bare, anchored))
    {
      hide Net, Safe, Levels, Blocks, Keys, Rolled, OneIn, Removed;
      if flowLevel > 0 {
        return Err(EntryInFlow);
      }
      if !simpleKeyAllowed {
        return Err(EntryNotAllowed);
      }
      if anchored && mark.col == 0 && indent > -1 {
        return Err(MisplacedAnchor);
      }
      RollIndent(mark.col, None, BlockSequenceStart);
      if bare {
        RollOneColIndent();
      }
      var _ :- RemoveSimpleKey();
      simpleKeyAllowed := true;
      HoldsMore();
      PushToken(BlockEntry);
      return Ok(());
    }

    method FetchKey() returns (r: Result<(), TokenError>)
      requires Holds(0)
      modifies this`tokens, this`simpleKeys, this`simpleKeyAllowed, this`indent, this`indents, this`flowMappingStarted
      ensures r.Ok? ==> Holds(0)
      ensures Yields(r, QuestionRead(old(Now())))
    {
      hide Net, Safe, Levels, Blocks, Keys, Rolled, Removed;
      if flowLevel == 0 {
        if !simpleKeyAllowed {
          return Err(KeyNotAllowed);
        }
        RollIndent(mark.col, None, BlockMappingStart);
      } else {
        flowMappingStarted := true;
      }
      var _ :- RemoveSimpleKey();
      simpleKeyAllowed := flowLevel == 0;
      HoldsMore();
      PushToken(Key);
      return Ok(());
    }

    lemma NoBlocks()
      requires Holds(0)
      ensures indents == [] ==> Net(Stream()) == 0
    {
    }

    // ---------------------------------------------------------------- the next token

    // One token of the text, once what lies in front of it has been dealt with.
    method FetchLexeme(p: Piece) returns (r: Result<(), TokenError>)
      requires Holds(0) && FitsPiece(p) && !p.lexeme.EndOfInput?
      modifies this`tokens, this`simpleKeys, this`simpleKeyAllowed, this`indent, this`indents, this`flowLevel,
        this`flowMappingStarted, this`implicitFlowMappings
      ensures r.Ok? ==> Holds(0)
      ensures Yields(r, Read(old(Now()), p))
    {
      hide Net, Safe, Levels, Blocks, Keys, AllComments, FitsPiece;
      hide Boundary, FlowStarted, FlowEnded, CommaRead, DashRead, QuestionRead, ColonRead, PropertyRead, FlowScalarRead,
           PlainRead, BlockScalarRead;
      FitsTokens(p);
      match p.lexeme {
        case Directive(t) => r := FetchBoundary(t);
        case DocumentMarker(t) => r := FetchBoundary(t);
        case FlowStart(isSeq) => r := FetchFlowCollectionStart(isSeq);
        case FlowEnd(isSeq) => r := FetchFlowCollectionEnd(isSeq);
        case Comma => r := FetchFlowEntry();
        case Dash(bare, anchored) => r := FetchBlockEntry(bare, anchored);
        case Question => r := FetchKey();
        case Colon => r := FetchValue();
        case Property(t) => FetchProperty(t); r := Ok(());
        case Quoted(t, newline) => FetchFlowScalar(t, newline); r := Ok(());
        case Plain(t, newline) => r := FetchPlainScalar(t, newline);
        case BlockScalar(t) => FetchBlockScalar(t, p.trailing); r := Ok(());
        case Bad(info) => r := Err(BadText(info));
        case EndOfInput => r := Err(NoNextToken);
      }
    }

    // One more piece of the text becomes tokens.
    method FetchPiece(p: Piece) returns (r: Result<(), TokenError>)
      requires Holds(0) && FitsPiece(p) && Unended(Stream())
      modifies this`tokens, this`simpleKeys, this`simpleKeyAllowed, this`indent, this`indents, this`flowLevel,
        this`flowMappingStarted, this`implicitFlowMappings, this`mark
      ensures r.Ok? ==> Holds(0) && tokens != [] && (if p.lexeme.EndOfInput? then AtEnd() else Unended(Stream()))
      ensures Yields(r, Taken(old(Now()), p))
    {
      hide Net, Safe, Levels, Blocks, Keys, AllComments, FitsPiece, Staled, Unrolled, StreamEnded, Read, Behind;
      FitsTokens(p);
      if p.newline && flowLevel == 0 {
        simpleKeyAllowed := true;
      }
      FlushComments(p.comments, 0);
      mark := p.mark;
      assert Now() == Reached(old(Now()), p);
      CommentsUnended(old(Stream()), p.comments);
      ghost var q := Now();
      var _ :- StaleSimpleKeys();
      StaledKeeps(q);
      UnrolledUnended(Now(), mark.col);
      UnrollIndent(mark.col);
      if p.lexeme.EndOfInput? {
        r := FetchStreamEnd();
        return;
      }
      if !AtMargin(p.lexeme) && mark.col < indent {
        return Err(InvalidIndentation);
      }
      r := FetchBehind(p);
    }

    // What is found at a piece's mark, and what stands behind it.
    method FetchBehind(p: Piece) returns (r: Result<(), TokenError>)
      requires Holds(0) && FitsPiece(p) && !p.lexeme.EndOfInput? && Unended(Stream())
      modifies this`tokens, this`simpleKeys, this`simpleKeyAllowed, this`indent, this`indents, this`flowLevel,
        this`flowMappingStarted, this`implicitFlowMappings, this`mark
      ensures r.Ok? ==> Holds(0) && tokens != [] && Unended(Stream())
      ensures var n := Read(old(Now()), p); Yields(r, if n.Ok? then Ok(Behind(n.value, p)) else n)
    {
      hide Net, Safe, Levels, Blocks, Keys, AllComments, FitsPiece, Read;
      FitsTokens(p);
      ReadGrows(Now(), p);
      r := FetchLexeme(p);
      if r.Ok? {
        CommentsUnended(Stream(), p.trailing);
        mark := p.after;
        if !p.lexeme.BlockScalar? {
          FlushComments(p.trailing, 0);
        }
      }
    }

    method FetchNextToken() returns (r: Result<(), TokenError>)
      requires Valid() && !ended && !tokenAvailable
      modifies this
      ensures handed == old(handed) && tokensParsed == old(tokensParsed) && !tokenAvailable && !streamEndProduced
      ensures r.Ok? ==> Valid() && tokens != [] && Left() < old(Left()) && Outcome() == old(Outcome())
      ensures r.Err? ==> old(Outcome()) == Err(r.error)
    {
      hide Net, Safe, Levels, Blocks, Keys, Fits, AtEnd, Unended, Taken, Begin;
      if !streamStartProduced {
        FetchStreamStart();
        return Ok(());
      }
      var p := if input == [] then TokenSteps.AtEnd(mark) else input[0];
      NextFits(input, mark);
      input := if input == [] then [] else input[1..];
      TakenAt(Now(), p);
      r := FetchPiece(p);
      if r.Ok? && p.lexeme.EndOfInput? {
        ended := true;
      }
    }

    // How often more text can still be fetched.
    ghost function Left(): nat
      reads this`streamStartProduced, this`input, this`ended
    {
      (if streamStartProduced then 0 else 1) + |input| + (if ended then 0 else 1)
    }

    // Looks for keys that lie too far back, which changes nothing about the text still to come.
    method StaleAll() returns (r: Result<(), TokenError>)
      requires Valid() && tokens != [] && !tokenAvailable
      modifies this`simpleKeys
      ensures r.Ok? ==> Valid() && Outcome() == old(Outcome())
      ensures r.Err? ==> old(Outcome()) == Err(r.error)
    {
      hide Net, Safe, Levels, Blocks, Keys, Fits, Unended, Staled, Eager, Onward;
      ghost var q := Now();
      if ended {
        NoneStaled(q);
      } else {
        EagerStaled(q, input);
      }
      StaledKeeps(q);
      r := StaleSimpleKeys();
    }

    // Whether the token to be handed out next may still become a key.
    method NextMayBeKey() returns (may: bool)
      requires Valid() && tokens != []
      ensures may <==> !NoneAt(simpleKeys, tokensParsed)
      ensures ended ==> !may
    {
      hide Net, Safe, Levels, Blocks, Keys, Fits, Unended, Onward;
      may := false;
      var i := 0;
      while i < |simpleKeys| && !may
        invariant 0 <= i <= |simpleKeys|
        invariant may ==> !NoneAt(simpleKeys, tokensParsed)
        invariant !may ==> forall j | 0 <= j < i && simpleKeys[j].possible :: simpleKeys[j].tokenNumber != tokensParsed
      {
        may := simpleKeys[i].possible && simpleKeys[i].tokenNumber == tokensParsed;
        i := i + 1;
      }
    }

    // Fetches until the next token cannot become a key any more.
    method FetchMoreTokens() returns (r: Result<(), TokenError>)
      requires Valid() && !tokenAvailable && !streamEndProduced
      modifies this
      ensures handed == old(handed) && tokensParsed == old(tokensParsed) && !streamEndProduced
      ensures r.Ok? ==> Valid() && tokenAvailable && Outcome() == old(Outcome())
      ensures r.Ok? ==> Left() < old(Left()) || (Left() == old(Left()) && tokens == old(tokens))
      ensures r.Err? ==> old(Outcome()) == Err(r.error)
    {
      hide Net, Safe, Levels, Blocks, Keys, Fits, AtEnd, Unended, NoneAt, Holds, Eager, Onward;
      var more := true;
      while more
        invariant Valid() && !tokenAvailable && !streamEndProduced
        invariant handed == old(handed) && tokensParsed == old(tokensParsed)
        invariant !more ==> Settled()
        invariant Left() < old(Left()) || (Left() == old(Left()) && tokens == old(tokens))
        invariant Outcome() == old(Outcome())
        decreases more, Left()
      {
        if tokens != [] {
          var _ :- StaleAll();
          more := NextMayBeKey();
        }
        if more {
          var _ :- FetchNextToken();
        }
      }
      tokenAvailable := true;
      return Ok(());
    }

    // Hands out the next token. It is behind all that have been handed out before, none of which
    // ever changes.
    method NextToken() returns (r: Result<Option<Token>, TokenError>)
      requires Valid()
      modifies this
      ensures r.Ok? ==> Valid() && (r.value.None? <==> old(streamEndProduced)) && Outcome() == old(Outcome())
      ensures r.Ok? && r.value.Some? ==>
                && handed == old(handed) + [r.value.value] && (streamEndProduced <==> r.value.value.StreamEnd?)
                && (Left() < old(Left()) || (Left() == old(Left()) && |tokens| < |old(tokens)|))
      ensures r.Ok? && r.value.None? ==> handed == old(handed)
      ensures r.Err? ==> handed == old(handed) && old(Outcome()) == Err(r.error)
    {
      hide Net, Safe, Levels, Blocks, Keys, Fits, Unended, AtEnd, NoneAt, Holds, Eager, Onward;
      if streamEndProduced {
        return Ok(None);
      }
      if !tokenAvailable {
        var _ :- FetchMoreTokens();
      }
      var t := HandOut();
      return Ok(Some(t));
    }

    method HandOut() returns (t: Token)
      requires Valid() && tokenAvailable && !streamEndProduced
      modifies this`tokens, this`tokensParsed, this`tokenAvailable, this`streamEndProduced, this`handed
      ensures Valid() && Outcome() == old(Outcome())
      ensures handed == old(handed) + [t] && old(tokens) == [t] + tokens && (streamEndProduced <==> t.StreamEnd?)
    {
      hide Net, Safe, Levels, Blocks, Fits, Onward, Eager;
      KeysStart();
      t := tokens[0];
      EndIsLast();
      tokens := tokens[1..];
      handed := handed + [t];
      assert Stream() == old(Stream());
      tokenAvailable := false;
      tokensParsed := tokensParsed + 1;
      if t.StreamEnd? {
        streamEndProduced := true;
      }
    }

    lemma KeysStart()
      requires Valid() && Settled()
      ensures Keys(simpleKeys, tokensParsed + 1, tokensParsed + |tokens|)
    {
      hide Net, Safe, Levels, Blocks, Fits, Unended, Onward;
    }

    // The end of the stream is the last token there is.
    lemma EndIsLast()
      requires Valid() && tokens != []
      ensures tokens[0].StreamEnd? <==> ended && |tokens| == 1
    {
      hide Net, Safe, Levels, Blocks, Fits, Keys, Onward;
      assert Stream()[|handed|] == tokens[0];
    }
  }

  // Reads a text's tokens to the end. They are the tokens of the whole text read at once, although
  // each is handed out before what follows it has been looked at; and wherever reading stops, no
  // more blocks have been ended than started, and at the end of a text whose brackets are closed
  // all have been.
  method ReadTokens(input: seq<Piece>) returns (out: seq<Token>, r: Result<nat, TokenError>)
    requires Fits(input) && Onward(Begin().mark, input)
    ensures var all := Eager(Begin(), input);
            if all.Ok? then r == Ok(all.value.flow) && out == all.value.tokens else r == Err(all.error)
    ensures Safe(out)
    ensures r.Ok? ==> out != [] && out[|out| - 1] == Token.StreamEnd && Unended(out[..|out| - 1])
    ensures r == Ok(0) ==> Net(out) == 0
    ensures r.Err? ==> Unended(out)
  {
    hide Net, Safe, Levels, Blocks, Keys, Fits, Unended, NoneAt, Onward, Eager, Begin;
    var scanner := new Scanner(input);
    out := [];
    SafeNone();
    while !scanner.streamEndProduced
      invariant scanner.Valid() && fresh(scanner) && out == scanner.handed && Safe(out)
      invariant scanner.Outcome() == Eager(Begin(), input)
      decreases scanner.Left(), |scanner.tokens|
    {
      HandedUnended(scanner);
      var next := scanner.NextToken();
      if next.Err? {
        return out, Err(next.error);
      }
      out := out + [next.value.value];
      HandedSafe(scanner);
    }
    assert scanner.Stream() == out;
    return out, Ok(scanner.flowLevel);
  }

  lemma SafeNone()
    ensures Safe([])
  {
  }

  // Until it has been handed out, the end of the stream is not among the tokens handed out.
  lemma HandedUnended(scanner: Scanner)
    requires scanner.Valid() && !scanner.streamEndProduced
    ensures Unended(scanner.handed)
  {
    UnendedJoin(scanner.handed, scanner.tokens);
    if scanner.ended {
      var k := |scanner.tokens| - 1;
      assert scanner.Stream()[..|scanner.Stream()| - 1] == scanner.handed + scanner.tokens[..k];
      UnendedJoin(scanner.handed, scanner.tokens[..k]);
    }
  }

  lemma HandedSafe(scanner: Scanner)
    requires scanner.Valid()
    ensures Safe(scanner.handed)
  {
    if scanner.streamStartProduced {
      SafePrefix(scanner.handed, scanner.tokens);
    }
  }

  lemma {:induction false} SafePrefix(a: seq<Token>, b: seq<Token>)
    requires Safe(a + b)
    ensures Safe(a)
    decreases |b|
  {
    if b == [] {
      assert a + b == a;
    } else {
      assert a + b == (a + b[..|b| - 1]) + [b[|b| - 1]];
      NetSnoc(a + b[..|b| - 1], b[|b| - 1]);
      SafePrefix(a, b[..|b| - 1]);
    }
  }

  // ------------------------------------------------------------------ texts

  // The text is made of pieces that fit; nothing stands behind its end.
  ghost predicate Fits(input: seq<Piece>) {
    forall i | 0 <= i < |input| :: FitsPiece(input[i])
  }

  lemma NextFits(input: seq<Piece>, mark: Mark)
    requires Fits(input)
    ensures FitsPiece(if input == [] then TokenSteps.AtEnd(mark) else input[0])
    ensures Fits(if input == [] then [] else input[1..])
  {
  }

  // The tokens a piece of text carries are ones the text can write: no block starts or ends, and
  // not the end of the stream; and only comments are found around it. What begins at the margin stands there.
  ghost predicate FitsPiece(p: Piece) {
    && AllComments(p.comments) && AllComments(p.trailing)
    && (AtMargin(p.lexeme) ==> p.mark.col == 0)
    && match p.lexeme
       case Directive(t) => Written(t)
       case DocumentMarker(t) => Written(t)
       case Property(t) => Written(t)
       case Quoted(t, _) => Written(t)
       case Plain(t, _) => Written(t)
       case BlockScalar(t) => Written(t)
       case _ => true
  }

  predicate CarriesToken(l: Lexeme) {
    l.Directive? || l.DocumentMarker? || l.Property? || l.Quoted? || l.Plain? || l.BlockScalar?
  }

  predicate Written(t: Token) {
    Neutral(t) && !t.StreamEnd? && !t.Comment?
  }

  predicate Unended(ts: seq<Token>) {
    forall i | 0 <= i < |ts| :: !ts[i].StreamEnd?
  }

  lemma UnendedJoin(a: seq<Token>, b: seq<Token>)
    ensures Unended(a + b) <==> Unended(a) && Unended(b)
  {
    if Unended(a + b) {
      forall i | 0 <= i < |b| ensures !b[i].StreamEnd? {
        assert (a + b)[|a| + i] == b[i];
      }
      forall i | 0 <= i < |a| ensures !a[i].StreamEnd? {
        assert (a + b)[i] == a[i];
      }
    }
  }

  lemma FitsTokens(p: Piece)
    requires FitsPiece(p)
    ensures AllComments(p.comments) && AllComments(p.trailing)
    ensures CarriesToken(p.lexeme) ==> Written(p.lexeme.token)
  {
  }

  // ------------------------------------------------------------------ what steps leave alone

  lemma CommentsUnended(a: seq<Token>, ts: seq<Token>)
    requires AllComments(ts)
    ensures Unended(a + ts) <==> Unended(a)
  {
    UnendedJoin(a, ts);
  }

  lemma StaledKeeps(q: Queue)
    ensures Staled(q).Ok? ==> Staled(q).value == q.(keys := Staled(q).value.keys)
  {
  }

  lemma RemovedKeeps(q: Queue)
    requires Removed(q).Ok?
    ensures var e := Removed(q).value;
            && e == q.(keys := e.keys)
            && ((forall k | k in q.keys :: !k.possible) ==> forall i | 0 <= i < |e.keys| :: !e.keys[i].possible)
  {
  }

  lemma NoneStaled(q: Queue)
    requires forall i | 0 <= i < |q.keys| :: !q.keys[i].possible
    ensures Staled(q) == Ok(q)
  {
    if q.flow == 0 {
      assert forall k | k in q.keys :: !Missed(k, q.mark);
      assert Staled(q).value.keys == q.keys;
    }
  }

  // Nothing is lost by checking the keys before more of the text is looked at.
  lemma EagerStaled(q: Queue, input: seq<Piece>)
    requires Onward(q.mark, input)
    ensures Staled(q).Ok? ==> Eager(Staled(q).value, input) == Eager(q, input)
    ensures Staled(q).Err? ==> Eager(q, input) == Err(Staled(q).error)
  {
    hide Taken, Staled;
    StaledEarly(q, if input == [] then TokenSteps.AtEnd(q.mark) else input[0]);
    StaledKeeps(q);
  }

  // The state behind a piece of text stands where the piece ends.
  lemma TakenAt(q: Queue, p: Piece)
    ensures Taken(q, p).Ok? && !p.lexeme.EndOfInput? ==> Taken(q, p).value.mark == p.after
  {
    hide Staled, Unrolled, Read, StreamEnded;
  }

  lemma {:induction false} UnrolledUnended(q: Queue, col: int)
    ensures Unended(q.tokens) ==> Unended(Unrolled(q, col).tokens)
    ensures |Unrolled(q, col).tokens| >= |q.tokens|
    decreases |q.levels|
  {
    if !(q.flow > 0 || q.indent <= col || q.levels == []) {
      UnrolledUnended(if OnBlock(q) then Added(Popped(q), BlockEnd) else Popped(q), col);
    }
  }

  // Tokens have been added, and none of them ends the stream.
  ghost predicate Grows(q: Queue, n: Next) {
    n.Ok? ==> Unended(n.value.tokens) && |n.value.tokens| > |q.tokens|
  }

  // A token put anywhere.
  lemma PutUnended(q: Queue, pos: nat, t: Token)
    requires Unended(q.tokens) && !t.StreamEnd?
    ensures Unended(Put(q, pos, t).tokens) && |Put(q, pos, t).tokens| >= |q.tokens|
  {
  }

  lemma AddedGrows(q: Queue, p: Queue, t: Token)
    requires Unended(p.tokens) && |p.tokens| >= |q.tokens| && !t.StreamEnd?
    ensures Grows(q, Ok(Added(p, t)))
  {
  }

  lemma RolledUnended(q: Queue, col: nat, number: nat, t: Token)
    requires Unended(q.tokens) && !t.StreamEnd?
    ensures var r := Rolled(q, col, number, t); Unended(r.tokens) && |r.tokens| >= |q.tokens|
  {
    hide Put;
    var p := if q.indent <= col && q.levels != [] && !OnBlock(q) then Popped(q) else q;
    PutUnended(Pushed(p, col, true), number, t);
  }

  lemma {:induction false} BlocksOnlyKeeps(q: Queue)
    ensures BlocksOnly(q).tokens == q.tokens
    decreases |q.levels|
  {
    if q.levels != [] && !OnBlock(q) {
      BlocksOnlyKeeps(Popped(q));
    }
  }

  lemma RemovedTokens(q: Queue)
    ensures Removed(q).Ok? ==>
              var r := Removed(q).value; r.tokens == q.tokens && r.flow == q.flow && |r.keys| == |q.keys|
  {
  }

  lemma BoundaryGrows(q: Queue, t: Token)
    requires Unended(q.tokens) && !t.StreamEnd?
    ensures Grows(q, Boundary(q, t))
  {
    hide Unended, Unrolled, Removed, Added, Grows;
    UnrolledUnended(q, -1);
    RemovedTokens(Unrolled(q, -1));
    if Removed(Unrolled(q, -1)).Ok? {
      AddedGrows(q, Allowing(Removed(Unrolled(q, -1)).value, false), t);
    } else {
      ErrGrows(q, Boundary(q, t));
    }
  }

  lemma ErrGrows(q: Queue, n: Next)
    requires n.Err?
    ensures Grows(q, n)
  {
  }

  lemma ScalarsGrow(q: Queue, t: Token, newline: bool, comments: seq<Token>)
    requires Unended(q.tokens) && !t.StreamEnd? && AllComments(comments)
    ensures Grows(q, Ok(PropertyRead(q, t))) && Grows(q, Ok(FlowScalarRead(q, t, newline)))
    ensures Grows(q, PlainRead(q, t, newline)) && Grows(q, Ok(BlockScalarRead(q, t, comments)))
  {
    hide BlocksOnly;
    BlocksOnlyKeeps(Allowing(Saved(q), false));
    BlocksOnlyKeeps(Allowing(Saved(q), true));
    CommentsUnended(q.tokens, comments);
  }

  lemma ImplicitUnended(q: Queue)
    requires Unended(q.tokens)
    ensures Unended(ImplicitEnded(q).tokens) && |ImplicitEnded(q).tokens| >= |q.tokens|
  {
  }

  lemma FlowStartGrows(q: Queue, isSeq: bool)
    requires Unended(q.tokens)
    ensures Grows(q, FlowStarted(q, isSeq))
  {
    hide Unended;
    var s := OneIn(Saved(q));
    var inner := s.(keys := s.keys + [NoKey()], flow := s.flow + 1, allowed := true);
    AddedGrows(q, inner.(implicit := inner.implicit + [false]), FlowSequenceStart);
    AddedGrows(q, inner.(inMapping := true), FlowMappingStart);
  }

  lemma FlowGrows(q: Queue, isSeq: bool)
    requires Unended(q.tokens)
    ensures Grows(q, FlowEnded(q, isSeq)) && Grows(q, CommaRead(q))
  {
    hide ImplicitEnded, Unended, Removed, Added;
    RemovedTokens(q);
    if Removed(q).Ok? {
      var p := Removed(q).value;
      ImplicitUnended(Allowing(p, true));
      AddedGrows(q, ImplicitEnded(Allowing(p, true)), FlowEntry);
      if q.flow > 0 && p.keys != [] && p.flow > 0 {
        ImplicitUnended(FlowLeft(p));
        AddedGrows(q, SequenceLeft(ImplicitEnded(FlowLeft(p))), FlowSequenceEnd);
        AddedGrows(q, FlowLeft(p), FlowMappingEnd);
      }
    }
  }

  lemma EntriesGrow(q: Queue, bare: bool, anchored: bool)
    requires Unended(q.tokens)
    ensures Grows(q, DashRead(q, bare, anchored)) && Grows(q, QuestionRead(q))
  {
    hide Rolled;
    RolledUnended(q, q.mark.col, |q.tokens|, BlockSequenceStart);
    RolledUnended(q, q.mark.col, |q.tokens|, BlockMappingStart);
  }

  lemma KeyPutUnended(q: Queue, k: SimpleKey, implicit: bool)
    requires Unended(q.tokens)
    ensures Unended(KeyPut(q, k, implicit).tokens) && |KeyPut(q, k, implicit).tokens| >= |q.tokens|
  {
    hide Put, Rolled, Unended;
    var p := Put(q, k.tokenNumber, Key);
    PutUnended(q, k.tokenNumber, Key);
    PutUnended(p, k.tokenNumber, FlowMappingStart);
    RolledUnended(if implicit then Put(p, k.tokenNumber, FlowMappingStart) else p, k.mark.col, k.tokenNumber, BlockMappingStart);
  }

  lemma ValueUnended(q: Queue, implicit: bool)
    requires Unended(q.tokens)
    ensures var n := ValueStarted(q, implicit); n.Ok? ==> Unended(n.value.tokens) && |n.value.tokens| >= |q.tokens|
  {
    hide Rolled;
    var p := if implicit then Added(q, FlowMappingStart) else q;
    RolledUnended(p, p.mark.col, |p.tokens|, BlockMappingStart);
  }

  lemma ColonGrows(q: Queue)
    requires Unended(q.tokens)
    ensures Grows(q, ColonRead(q))
  {
    hide KeyPut, ValueStarted;
    if q.keys != [] {
      KeyPutUnended(Entering(q), q.keys[|q.keys| - 1], Implicit(q));
      ValueUnended(Entering(q), Implicit(q));
    }
  }

  // No lexeme ends the stream, and every one makes a token.
  lemma ReadGrows(q: Queue, p: Piece)
    requires FitsPiece(p) && !p.lexeme.EndOfInput? && Unended(q.tokens)
    ensures Grows(q, Read(q, p))
  {
    FitsTokens(p);
    hide Unended, Grows, FitsPiece, AllComments;
    hide Boundary, FlowStarted, FlowEnded, CommaRead, DashRead, QuestionRead, ColonRead, PropertyRead, FlowScalarRead,
         PlainRead, BlockScalarRead;
    match p.lexeme {
      case Directive(t) => BoundaryGrows(q, t);
      case DocumentMarker(t) => BoundaryGrows(q, t);
      case FlowStart(isSeq) => FlowStartGrows(q, isSeq);
      case FlowEnd(isSeq) => FlowGrows(q, isSeq);
      case Comma => FlowGrows(q, true);
      case Dash(bare, anchored) => EntriesGrow(q, bare, anchored);
      case Question => EntriesGrow(q, false, false);
      case Colon => ColonGrows(q);
      case Property(t) => ScalarsGrow(q, t, false, []);
      case Quoted(t, newline) => ScalarsGrow(q, t, newline, []);
      case Plain(t, newline) => ScalarsGrow(q, t, newline, []);
      case BlockScalar(t) => ScalarsGrow(q, t, false, p.trailing);
      case Bad(info) => ErrGrows(q, Read(q, p));
    }
  }
}
