// Counting block collections in a token stream, and the two stacks the scanner keeps beside it
// (crates/yamluna-scanner/src/scanner.rs).
module TokenBalance {
  import opened Results
  import opened Events

  // A position in the text.
  datatype Mark = Mark(index: nat, line: nat, col: nat)

  // A token that a `:` may still turn into a key.
  datatype SimpleKey = SimpleKey(possible: bool, required: bool, tokenNumber: nat, mark: Mark)

  // A level of indentation: the one before it, and whether a `BlockEnd` closes it.
  datatype Indent = Indent(indent: int, needsBlockEnd: bool)

  // ------------------------------------------------------------------ starts and ends

  function Weight(t: Token): int {
    match t
    case BlockSequenceStart => 1
    case BlockMappingStart => 1
    case BlockEnd => -1
    case _ => 0
  }

  // Block starts less block ends.
  function Net(ts: seq<Token>): int
    decreases |ts|
  {
    if ts == [] then 0 else Net(ts[..|ts| - 1]) + Weight(ts[|ts| - 1])
  }

  // No beginning of the stream ends more blocks than it starts.
  predicate Safe(ts: seq<Token>)
    decreases |ts|
  {
    ts == [] || (Safe(ts[..|ts| - 1]) && Net(ts) >= 0)
  }

  lemma NetSnoc(ts: seq<Token>, t: Token)
    ensures Net(ts + [t]) == Net(ts) + Weight(t)
    ensures Safe(ts + [t]) <==> Safe(ts) && Net(ts) + Weight(t) >= 0
  {
    assert (ts + [t])[..|ts|] == ts;
  }

  lemma {:induction false} NetJoin(a: seq<Token>, b: seq<Token>)
    ensures Net(a + b) == Net(a) + Net(b)
    decreases |b|
  {
    if b == [] {
      assert a + b == a;
    } else {
      var k := |b| - 1;
      assert a + b == (a + b[..k]) + [b[k]];
      NetSnoc(a + b[..k], b[k]);
      NetJoin(a, b[..k]);
    }
  }

  // A token that ends nothing may be put anywhere.
  lemma {:induction false} InsertSafe(a: seq<Token>, t: Token, b: seq<Token>)
    requires Safe(a + b) && Weight(t) >= 0
    ensures Safe(a + [t] + b) && Net(a + [t] + b) == Net(a + b) + Weight(t)
    decreases |b|
  {
    if b == [] {
      assert a + b == a && a + [t] + b == a + [t];
      NetSnoc(a, t);
      SafeNet(a);
    } else {
      var k := |b| - 1;
      assert a + b == (a + b[..k]) + [b[k]];
      assert a + [t] + b == (a + [t] + b[..k]) + [b[k]];
      NetSnoc(a + b[..k], b[k]);
      InsertSafe(a, t, b[..k]);
      NetSnoc(a + [t] + b[..k], b[k]);
    }
  }

  lemma SafeNet(ts: seq<Token>)
    requires Safe(ts)
    ensures Net(ts) >= 0
  {
  }

  // Every beginning of a safe stream has at least as many starts as ends.
  lemma {:induction false} SafeMeans(ts: seq<Token>)
    ensures Safe(ts) <==> forall i | 0 <= i <= |ts| :: Net(ts[..i]) >= 0
    decreases |ts|
  {
    if ts == [] {
      assert ts[..0] == [];
    } else {
      var k := |ts| - 1;
      SafeMeans(ts[..k]);
      assert ts[..|ts|] == ts;
      forall i | 0 <= i <= k ensures ts[..k][..i] == ts[..i] {
      }
    }
  }

  // ------------------------------------------------------------------ levels of indentation

  function Blocks(levels: seq<Indent>): nat
    decreases |levels|
  {
    if levels == [] then 0
    else Blocks(levels[..|levels| - 1]) + if levels[|levels| - 1].needsBlockEnd then 1 else 0
  }

  // Levels strictly increase from -1 up to the current indentation, the lowest is a block, and of
  // two that follow each other one is.
  predicate Levels(levels: seq<Indent>, indent: int)
    decreases |levels|
  {
    if levels == [] then indent == -1
    else
      var top := levels[|levels| - 1];
      && top.indent < indent && Levels(levels[..|levels| - 1], top.indent)
      && (!top.needsBlockEnd ==> |levels| >= 2 && levels[|levels| - 2].needsBlockEnd)
  }

  lemma LevelsPush(levels: seq<Indent>, indent: int, col: int, block: bool)
    requires Levels(levels, indent) && indent < col && (!block ==> levels != [] && levels[|levels| - 1].needsBlockEnd)
    ensures Levels(levels + [Indent(indent, block)], col)
    ensures Blocks(levels + [Indent(indent, block)]) == Blocks(levels) + if block then 1 else 0
  {
    var n := levels + [Indent(indent, block)];
    assert n[..|levels|] == levels;
  }

  lemma LevelsPop(levels: seq<Indent>, indent: int)
    requires Levels(levels, indent) && levels != []
    ensures var top := levels[|levels| - 1];
            && top.indent < indent && Levels(levels[..|levels| - 1], top.indent)
            && (!top.needsBlockEnd ==> |levels| >= 2 && levels[|levels| - 2].needsBlockEnd)
            && Blocks(levels) == Blocks(levels[..|levels| - 1]) + (if top.needsBlockEnd then 1 else 0)
  {
  }

  lemma {:induction false} LevelsFloor(levels: seq<Indent>, indent: int)
    requires Levels(levels, indent)
    ensures indent >= -1 && (levels == [] <==> indent == -1)
    decreases |levels|
  {
    if levels != [] { LevelsFloor(levels[..|levels| - 1], levels[|levels| - 1].indent); }
  }

  // What the levels mean, spelled out.
  lemma {:induction false} LevelsMean(levels: seq<Indent>, indent: int)
    requires Levels(levels, indent)
    ensures forall i | 0 < i < |levels| :: levels[i - 1].indent < levels[i].indent
    ensures forall i | 0 <= i < |levels| - 1 :: levels[i].needsBlockEnd || levels[i + 1].needsBlockEnd
    ensures levels != [] ==> levels[0].indent == -1 && levels[0].needsBlockEnd && levels[|levels| - 1].indent < indent
    decreases |levels|
  {
    if levels != [] {
      var k := |levels| - 1;
      LevelsMean(levels[..k], levels[k].indent);
      if k == 0 { LevelsFloor([], levels[0].indent); }
    }
  }

  // ------------------------------------------------------------------ possible keys

  // The tokens of the keys that are still possible have not been handed out, and are in the order
  // of the stack.
  predicate Keys(keys: seq<SimpleKey>, low: nat, high: nat) {
    && (forall i | 0 <= i < |keys| && keys[i].possible :: low <= keys[i].tokenNumber < high)
    && (forall i, j | 0 <= i < j < |keys| && keys[i].possible && keys[j].possible :: keys[i].tokenNumber < keys[j].tokenNumber)
  }

  // No possible key is the next token to be handed out.
  predicate NoneAt(keys: seq<SimpleKey>, number: nat) {
    forall i | 0 <= i < |keys| && keys[i].possible :: keys[i].tokenNumber != number
  }
}
