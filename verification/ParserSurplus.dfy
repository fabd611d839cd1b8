// The flow sequences that are open, counted against the brackets still to come: no step of the parser
// lowers the count, and no run that ends without an error begins with more open than will be closed
// (crates/yamluna-scanner/src/parser.rs).
module ParserSurplus {
  import opened Results
  import opened ScalarEmitter
  import opened Events
  import opened ParserStep
  import opened ParserSafety
  import opened ParserRun
  import opened Written

  // OpensUnseen brackets less closing ones, up to the end of the stream.
  function Bal(toks: seq<Token>): int {
    if toks == [] || toks[0].StreamEnd? then 0
    else (if toks[0].FlowSequenceStart? then 1 else if toks[0].FlowSequenceEnd? then -1 else 0) + Bal(toks[1..])
  }

  predicate InSequence(s: State) {
    || s.FlowSequenceFirstEntry? || s.FlowSequenceEntry? || s.FlowSequenceEntryMappingKey?
    || s.FlowSequenceEntryMappingValue? || s.FlowSequenceEntryMappingEnd?
  }

  // The states that pass over one token unseen, the one the collection was opened by.
  predicate OpensUnseen(s: State) {
    s.BlockSequenceFirstEntry? || s.BlockMappingFirstKey? || s.FlowSequenceFirstEntry? || s.FlowMappingFirstKey?
  }

  function Depth(states: seq<State>): nat
    decreases |states|
  {
    if states == [] then 0
    else Depth(states[..|states| - 1]) + if InSequence(states[|states| - 1]) then 1 else 0
  }

  // What is open below the current state, and what is still to come.
  function Below(m: Machine): int {
    Depth(m.states) + Bal(m.toks)
  }

  // How many flow sequences are open that will not be closed.
  function Surplus(m: Machine): int {
    (if InSequence(m.state) then 1 else 0)
    + if OpensUnseen(m.state) && m.toks != [] then Depth(m.states) + Bal(m.toks[1..]) else Below(m)
  }

  // ------------------------------------------------------------------ one step

  lemma PushBelow(m: Machine, s: State)
    ensures Below(m.Push(s)) == Below(m) + if InSequence(s) then 1 else 0
  {
    assert (m.states + [s])[..|m.states|] == m.states;
  }

  // Passing over a token that is no bracket.
  lemma SkipBelow(m: Machine)
    requires m.toks != [] && !m.toks[0].StreamEnd? && !m.toks[0].FlowSequenceStart? && !m.toks[0].FlowSequenceEnd?
    ensures Below(m.Skip()) == Below(m)
  {
  }

  lemma PopSurplus(m: Machine)
    requires Stacked(m.states)
    ensures Surplus(m.Pop()) == Below(m)
    ensures m.toks != [] ==> Surplus(m.Pop().Skip()) == Depth(m.states) + Bal(m.toks[1..])
  {
    var s := m.states[|m.states| - 1];
    assert |m.states| > 1 ==> s == m.states[1..][|m.states| - 2];
    assert !OpensUnseen(s);
  }

  lemma PropertiesBelow(m: Machine)
    ensures ReadProperties(m).Ok? ==> Below(ReadProperties(m).value.1) == Below(m) && ReadProperties(m).value.1.states == m.states
  {
    hide ResolveTag;
    if m.toks != [] && (m.toks[0].Anchor? || m.toks[0].Tag?) {
      SkipBelow(m);
      var n := m.Skip();
      if n.toks != [] && (n.toks[0].Tag? || n.toks[0].Anchor?) {
        SkipBelow(n);
      }
    }
  }

  lemma ContentSurplus(m: Machine, p: Properties, block: bool, indentless: bool)
    requires Stacked(m.states)
    ensures var o := NodeContent(m, p, block, indentless); o.Emit? ==> Surplus(o.next) == Below(m)
  {
    hide Stacked, Depth;
    PopSurplus(m);
    if m.toks != [] && m.toks[0].Scalar? {
      SkipBelow(m);
    }
  }

  lemma NodeSurplus(m: Machine, block: bool, indentless: bool)
    requires Stacked(m.states)
    ensures var o := OnNode(m, block, indentless); o.Emit? ==> Surplus(o.next) == Below(m)
  {
    hide Stacked, Below, NodeContent, ReadProperties, Surplus;
    PropertiesBelow(m);
    PopSurplus(m);
    if m.toks != [] && m.toks[0].Alias? {
      AliasBelow(m);
    } else if ReadProperties(m).Ok? {
      ContentSurplus(ReadProperties(m).value.1, ReadProperties(m).value.0, block, indentless);
    }
  }

  lemma AliasBelow(m: Machine)
    requires m.toks != [] && m.toks[0].Alias?
    ensures Depth(m.states) + Bal(m.toks[1..]) == Below(m)
  {
  }

  lemma NestedSurplus(m: Machine, back: State, block: bool, indentless: bool)
    requires Stacked(m.states) && Resumable(back)
    ensures var o := Nested(m, back, block, indentless);
            o.Emit? ==> Surplus(o.next) == Below(m) + if InSequence(back) then 1 else 0
  {
    hide OnNode, Surplus, Below;
    PushStacked(m, back);
    PushBelow(m, back);
    NodeSurplus(m.Push(back), block, indentless);
  }

  lemma GotoSurplus(m: Machine, s: State)
    requires !OpensUnseen(s)
    ensures Surplus(m.Goto(s)) == Below(m) + if InSequence(s) then 1 else 0
  {
  }

  // The step of `o` from `m`.
  ghost predicate NotLower(m: Machine, o: Outcome) {
    o.Emit? ==> Surplus(o.next) >= Surplus(m)
  }

  // Behind the token a collection was opened by.
  function Entered(m: Machine): Machine {
    if OpensUnseen(m.state) && m.toks != [] then m.Skip() else m
  }

  lemma EnteredBelow(m: Machine)
    ensures !InSequence(m.state) && (OpensUnseen(m.state) ==> m.toks != []) ==> Surplus(m) == Below(Entered(m))
    ensures InSequence(m.state) && (OpensUnseen(m.state) ==> m.toks != []) ==> Surplus(m) == Below(Entered(m)) + 1
    ensures Entered(m).states == m.states
  {
  }

  lemma BlockMappingSurplus(m: Machine)
    requires Stacked(m.states) && (m.state.BlockMappingFirstKey? || m.state.BlockMappingKey?)
    ensures NotLower(m, OnBlockMappingKey(m, m.state.BlockMappingFirstKey?))
  {
    hide Nested, Stacked, Surplus, Below;
    EnteredBelow(m);
    var n := Entered(m);
    PopSurplus(n);
    GotoSurplus(n, BlockMappingValue);
    if n.toks != [] && (n.toks[0].Key? || n.toks[0].BlockEnd?) {
      SkipBelow(n);
      BelowIs(n.Skip());
      NestedSurplus(n.Skip(), BlockMappingValue, true, true);
      GotoSurplus(n.Skip(), BlockMappingValue);
    }
  }

  lemma BelowIs(m: Machine)
    ensures Below(m) == Depth(m.states) + Bal(m.toks)
  {
  }

  lemma BlockValueSurplus(m: Machine)
    requires Stacked(m.states) && m.state.BlockMappingValue?
    ensures NotLower(m, OnBlockMappingValue(m))
  {
    hide Nested, Stacked, Surplus, Below;
    EnteredBelow(m);
    GotoSurplus(m, BlockMappingKey);
    if m.toks != [] && m.toks[0].Value? {
      SkipBelow(m);
      NestedSurplus(m.Skip(), BlockMappingKey, true, true);
      GotoSurplus(m.Skip(), BlockMappingKey);
    }
  }

  lemma BlockSequenceSurplus(m: Machine)
    requires Stacked(m.states) && (m.state.BlockSequenceFirstEntry? || m.state.BlockSequenceEntry?)
    ensures NotLower(m, OnBlockSequenceEntry(m, m.state.BlockSequenceFirstEntry?))
  {
    hide Nested, Stacked, Surplus, Below;
    EnteredBelow(m);
    var n := Entered(m);
    PopSurplus(n);
    if n.toks != [] && (n.toks[0].BlockEntry? || n.toks[0].BlockEnd?) {
      SkipBelow(n);
      BelowIs(n.Skip());
      NestedSurplus(n.Skip(), BlockSequenceEntry, true, false);
      GotoSurplus(n.Skip(), BlockSequenceEntry);
    }
  }

  lemma IndentlessSurplus(m: Machine)
    requires Stacked(m.states) && m.state.IndentlessSequenceEntry?
    ensures NotLower(m, OnIndentlessSequenceEntry(m))
  {
    hide Nested, Stacked, Surplus, Below;
    EnteredBelow(m);
    PopSurplus(m);
    if m.toks != [] && m.toks[0].BlockEntry? {
      SkipBelow(m);
      NestedSurplus(m.Skip(), State.IndentlessSequenceEntry, true, false);
      GotoSurplus(m.Skip(), State.IndentlessSequenceEntry);
    }
  }

  lemma MemberSurplus(m: Machine)
    requires Stacked(m.states)
    ensures var o := FlowMappingEntry(m); o.Emit? ==> Surplus(o.next) >= Below(m)
  {
    hide Nested, Stacked, Surplus, Below;
    PopSurplus(m);
    GotoSurplus(m, FlowMappingValue);
    NestedSurplus(m, FlowMappingEmptyValue, false, false);
    if m.toks != [] && (m.toks[0].Key? || m.toks[0].FlowMappingEnd?) {
      SkipBelow(m);
      BelowIs(m.Skip());
      NestedSurplus(m.Skip(), FlowMappingValue, false, false);
      GotoSurplus(m.Skip(), FlowMappingValue);
    }
  }

  lemma FlowMappingSurplus(m: Machine)
    requires Stacked(m.states) && (m.state.FlowMappingFirstKey? || m.state.FlowMappingKey?)
    ensures NotLower(m, OnFlowMappingKey(m, m.state.FlowMappingFirstKey?))
  {
    hide FlowMappingEntry, Stacked, Surplus, Below;
    EnteredBelow(m);
    var n := Entered(m);
    PopSurplus(n);
    MemberSurplus(n);
    if n.toks != [] && (n.toks[0].FlowEntry? || n.toks[0].FlowMappingEnd?) {
      SkipBelow(n);
      BelowIs(n.Skip());
      MemberSurplus(n.Skip());
    }
  }

  lemma FlowValueSurplus(m: Machine)
    requires Stacked(m.states) && (m.state.FlowMappingValue? || m.state.FlowMappingEmptyValue?)
    ensures NotLower(m, OnFlowMappingValue(m, m.state.FlowMappingEmptyValue?))
  {
    hide Nested, Stacked, Surplus, Below;
    EnteredBelow(m);
    GotoSurplus(m, FlowMappingKey);
    if m.toks != [] && m.toks[0].Value? {
      SkipBelow(m);
      NestedSurplus(m.Skip(), FlowMappingKey, false, false);
      GotoSurplus(m.Skip(), FlowMappingKey);
    }
  }

  // A closing bracket that closes its sequence.
  lemma CloseSurplus(m: Machine)
    requires Stacked(m.states) && m.toks != [] && m.toks[0].FlowSequenceEnd?
    ensures Surplus(m.Pop().Skip()) == Below(m) + 1 && Below(m.Skip()) == Below(m) + 1
  {
    hide Stacked;
    PopSurplus(m);
  }

  lemma ItemSurplus(m: Machine)
    requires Stacked(m.states)
    ensures var o := FlowSequenceItem(m); o.Emit? ==> Surplus(o.next) >= Below(m) + 1
  {
    hide Nested, Stacked, Surplus, Below;
    NestedSurplus(m, FlowSequenceEntry, false, false);
    if m.toks != [] && m.toks[0].FlowSequenceEnd? {
      CloseSurplus(m);
    } else if m.toks != [] && m.toks[0].Key? {
      SkipBelow(m);
      GotoSurplus(m.Skip(), FlowSequenceEntryMappingKey);
    }
  }

  lemma FlowSequenceSurplus(m: Machine)
    requires Stacked(m.states) && (m.state.FlowSequenceFirstEntry? || m.state.FlowSequenceEntry?)
    ensures NotLower(m, OnFlowSequenceEntry(m, m.state.FlowSequenceFirstEntry?))
  {
    hide FlowSequenceItem, Stacked, Surplus, Below;
    EnteredBelow(m);
    var n := Entered(m);
    ItemSurplus(n);
    if n.toks != [] && n.toks[0].FlowSequenceEnd? {
      CloseSurplus(n);
    } else if n.toks != [] && n.toks[0].FlowEntry? {
      SkipBelow(n);
      ItemSurplus(n.Skip());
    }
  }

  // The key of a pair: a bracket passed over here closes nothing.
  lemma PairKeySurplus(m: Machine)
    requires Stacked(m.states) && m.state.FlowSequenceEntryMappingKey?
    ensures NotLower(m, FlowPairKey(m))
    ensures m.toks != [] && m.toks[0].FlowSequenceEnd? ==>
              FlowPairKey(m).Emit? && Surplus(FlowPairKey(m).next) == Surplus(m) + 1
  {
    hide Nested, Stacked, Surplus, Below;
    EnteredBelow(m);
    NestedSurplus(m, FlowSequenceEntryMappingValue, false, false);
    if m.toks != [] && m.toks[0].FlowSequenceEnd? {
      CloseSurplus(m);
      GotoSurplus(m.Skip(), FlowSequenceEntryMappingValue);
    } else if m.toks != [] && (m.toks[0].Value? || m.toks[0].FlowEntry?) {
      SkipBelow(m);
      GotoSurplus(m.Skip(), FlowSequenceEntryMappingValue);
    }
  }

  lemma PairValueSurplus(m: Machine)
    requires Stacked(m.states) && m.state.FlowSequenceEntryMappingValue?
    ensures NotLower(m, FlowPairValue(m))
  {
    hide Nested, Stacked, Surplus, Below;
    EnteredBelow(m);
    GotoSurplus(m, FlowSequenceEntryMappingEnd);
    if m.toks != [] && m.toks[0].Value? {
      SkipBelow(m);
      NestedSurplus(m.Skip(), FlowSequenceEntryMappingEnd, false, false);
      GotoSurplus(m.Skip(), FlowSequenceEntryMappingEnd);
    }
  }

  lemma PairEndSurplus(m: Machine)
    requires m.state.FlowSequenceEntryMappingEnd?
    ensures NotLower(m, FlowPairEnd(m))
  {
  }

  // ------------------------------------------------------------------ documents

  lemma {:induction false} EndsBal(m: Machine)
    ensures Bal(SkipDocumentEnds(m).toks) == Bal(m.toks)
    decreases |m.toks|
  {
    if m.At(Token.DocumentEnd) {
      EndsBal(m.Skip());
    }
  }

  lemma {:induction false} DirectivesBal(m: Machine, d: Directives)
    ensures ReadDirectives(m, d).Ok? ==> Bal(ReadDirectives(m, d).value.toks) == Bal(m.toks)
    decreases |m.toks|
  {
    if m.toks != [] {
      match m.toks[0] {
        case VersionDirective(major, minor) =>
          if !d.versionSeen {
            DirectivesBal(m.Skip().(env := m.env.(version := Some((major, minor)))), d.(versionSeen := true));
          }
        case TagDirective(handle, prefix) =>
          if handle !in d.tags {
            DirectivesBal(m.Skip(), d.(tags := d.tags[handle := prefix]));
          }
        case ReservedDirective(_, _) => DirectivesBal(m.Skip(), d);
        case _ =>
      }
    }
  }

  lemma ProcessBal(m: Machine)
    ensures ProcessDirectives(m).Ok? ==>
              var n := ProcessDirectives(m).value;
              Bal(n.toks) == Bal(m.toks) && n.states == m.states && n.toks != []
  {
    hide ReadDirectives;
    DirectivesBal(m.(env := m.env.(version := None)), Directives(false, map[]));
  }

  lemma OneDeep()
    ensures Depth([State.DocumentEnd]) == 0
  {
    assert [State.DocumentEnd][..0] == [];
  }

  lemma ExplicitSurplus(m: Machine)
    requires m.states == []
    ensures var o := OnExplicitDocumentStart(m); o.Emit? ==> Surplus(o.next) == Bal(m.toks) && !o.event.StreamEnd?
  {
    hide ProcessDirectives;
    ProcessBal(m);
    OneDeep();
    if ProcessDirectives(m).Ok? {
      var n := ProcessDirectives(m).value;
      assert n.states + [State.DocumentEnd] == [State.DocumentEnd];
      if n.toks != [] && n.toks[0].DocumentStart? {
        SkipBelow(n);
      }
    }
  }

  lemma StartSurplus(m: Machine, implicit: bool)
    requires m.states == [] && !InSequence(m.state) && !OpensUnseen(m.state)
    ensures var o := OnDocumentStart(m, implicit);
            o.Emit? ==> if o.event.StreamEnd? then Surplus(m) == 0 else Surplus(o.next) == Surplus(m)
  {
    hide ProcessDirectives, SkipDocumentEnds, OnExplicitDocumentStart;
    EndsBal(m);
    var n := SkipDocumentEnds(m);
    ExplicitSurplus(n);
    ProcessBal(n);
    OneDeep();
    assert [] + [State.DocumentEnd] == [State.DocumentEnd];
  }

  lemma TopSurplus(m: Machine)
    requires m.Valid() && (m.state.StreamStart? || m.state.DocumentEnd?)
    ensures NotLower(m, Step(m)) && (Step(m).Emit? ==> !Step(m).event.StreamEnd?)
  {
  }

  lemma DocumentContentSurplus(m: Machine)
    requires Stacked(m.states) && (m.state.DocumentContent? || m.state.BlockNode?)
    ensures NotLower(m, OnDocumentContent(m)) && NotLower(m, OnNode(m, true, false))
  {
    hide Stacked, OnNode, Surplus, Below;
    EnteredBelow(m);
    PopSurplus(m);
    NodeSurplus(m, true, false);
  }

  // ------------------------------------------------------------------ the whole automaton

  lemma InnerSurplus(m: Machine)
    requires m.Valid() && !TopLevel(m.state)
    ensures NotLower(m, Step(m))
  {
    hide NotLower, Stacked, OnBlockMappingKey, OnBlockMappingValue, OnBlockSequenceEntry, OnFlowSequenceEntry,
         OnFlowMappingKey, OnFlowMappingValue, OnIndentlessSequenceEntry, FlowPairKey, FlowPairValue, FlowPairEnd,
         OnDocumentContent, OnNode;
    match m.state {
      case DocumentContent => DocumentContentSurplus(m);
      case BlockNode => DocumentContentSurplus(m);
      case BlockMappingFirstKey => BlockMappingSurplus(m);
      case BlockMappingKey => BlockMappingSurplus(m);
      case BlockMappingValue => BlockValueSurplus(m);
      case BlockSequenceFirstEntry => BlockSequenceSurplus(m);
      case BlockSequenceEntry => BlockSequenceSurplus(m);
      case FlowSequenceFirstEntry => FlowSequenceSurplus(m);
      case FlowSequenceEntry => FlowSequenceSurplus(m);
      case FlowMappingFirstKey => FlowMappingSurplus(m);
      case FlowMappingKey => FlowMappingSurplus(m);
      case FlowMappingValue => FlowValueSurplus(m);
      case FlowMappingEmptyValue => FlowValueSurplus(m);
      case IndentlessSequenceEntry => IndentlessSurplus(m);
      case FlowSequenceEntryMappingKey => PairKeySurplus(m);
      case FlowSequenceEntryMappingValue => PairValueSurplus(m);
      case FlowSequenceEntryMappingEnd => PairEndSurplus(m);
    }
  }

  // No step leaves more open than before, and at the end of the stream nothing is.
  lemma StepSurplus(m: Machine)
    requires m.Valid() && !m.state.End? && Step(m).Emit?
    ensures if Step(m).event.StreamEnd? then Surplus(m) == 0 else Surplus(Step(m).next) >= Surplus(m)
  {
    if !TopLevel(m.state) {
      hide Step, Surplus;
      InnerSurplus(m);
      InnerGoesOn(m);
    } else if m.state.StreamStart? || m.state.DocumentEnd? {
      TopSurplus(m);
    } else {
      StartSurplus(m, m.state.ImplicitDocumentStart?);
    }
  }

  lemma InnerGoesOn(m: Machine)
    requires m.Valid() && !TopLevel(m.state) && Step(m).Emit?
    ensures !Step(m).event.StreamEnd?
  {
    hide Step, Resumables;
    StepSafe(m);
    GoalsShape(m);
  }

  // A run that begins with more open than will be closed cannot end without an error.
  lemma {:induction false} SurplusFails(m: Machine)
    requires m.Valid() && !m.state.End? && Surplus(m) > 0
    ensures RunFrom(m, false).error.Some?
    decreases Distance(m)
  {
    hide Step, Surplus, Machine.Valid;
    if Step(m).Emit? {
      StepSurplus(m);
      if !Step(m).event.StreamEnd? {
        ParseStep(m, false);
        SurplusFails(Step(m).next);
      }
    }
  }

  // ------------------------------------------------------------------ written streams

  // A token that is no bracket and does not end the stream.
  predicate Even(t: Token) {
    !t.StreamEnd? && !t.FlowSequenceStart? && !t.FlowSequenceEnd?
  }

  lemma EvenFirst(t: Token, rest: seq<Token>)
    requires Even(t)
    ensures Bal([t] + rest) == Bal(rest)
  {
    assert ([t] + rest)[1..] == rest;
  }

  lemma Group(a: seq<Token>, b: seq<Token>, c: seq<Token>)
    ensures a + b + c == a + (b + c)
  {
  }

  lemma PropsEven(p: Props, rest: seq<Token>)
    ensures Bal(PropWords(p) + rest) == Bal(rest)
  {
    var a := if p.anchor.Some? then [Token.Anchor(p.anchor.value)] else [];
    var t := if p.tag.Some? then [Token.Tag(p.tag.value.0, p.tag.value.1)] else [];
    OneEven(a, rest);
    OneEven(t, rest);
    Group(a, t, rest);
    Group(t, a, rest);
    OneEven(a, t + rest);
    OneEven(t, a + rest);
  }

  lemma OneEven(a: seq<Token>, rest: seq<Token>)
    requires a == [] || (|a| == 1 && Even(a[0]))
    ensures Bal(a + rest) == Bal(rest)
  {
    if a == [] {
      assert a + rest == rest;
    } else {
      assert a == [a[0]];
      EvenFirst(a[0], rest);
    }
  }

  // The words of a node open and close as many brackets.
  lemma WordsEven(n: Node, rest: seq<Token>)
    ensures Bal(Words(n) + rest) == Bal(rest)
    decreases n, 1
  {
    hide PropWords, ContentWords;
    if n.Missing? {
      assert Words(n) + rest == rest;
    } else if n.Reference? {
      EvenFirst(Token.Alias(n.name), rest);
    } else {
      Group(PropWords(n.props), ContentWords(n), rest);
      PropsEven(n.props, ContentWords(n) + rest);
      ContentEven(n, rest);
    }
  }

  // A start, what is inside and an end that balance.
  lemma Enclosed(open: Token, inside: seq<Token>, close: Token, rest: seq<Token>)
    requires (Even(open) && Even(close)) || (open.FlowSequenceStart? && close.FlowSequenceEnd?)
    requires Bal(inside + ([close] + rest)) == Bal([close] + rest)
    ensures Bal([open] + (inside + [close]) + rest) == Bal(rest)
  {
    assert [open] + (inside + [close]) + rest == [open] + (inside + ([close] + rest));
    assert ([open] + (inside + ([close] + rest)))[1..] == inside + ([close] + rest);
    assert ([close] + rest)[1..] == rest;
  }

  lemma ContentEven(n: Node, rest: seq<Token>)
    requires !n.Missing? && !n.Reference?
    ensures Bal(ContentWords(n) + rest) == Bal(rest)
    decreases n, 0
  {
    match n {
      case Text(p, style, value) => EvenFirst(Token.Scalar(style, value), rest);
      case BlockSeq(p, items) =>
        ItemsEven(items, [BlockEnd] + rest);
        Enclosed(BlockSequenceStart, ItemWords(items), BlockEnd, rest);
      case Indentless(p, items) => ItemsEven(items, rest);
      case BlockMap(p, entries) =>
        EntriesEven(entries, [BlockEnd] + rest);
        Enclosed(BlockMappingStart, EntryWords(entries), BlockEnd, rest);
      case FlowSeq(p, cells) =>
        CellsEven(cells, [FlowSequenceEnd] + rest);
        Enclosed(FlowSequenceStart, FirstCellWords(cells), FlowSequenceEnd, rest);
      case FlowMap(p, members) =>
        MembersEven(members, [FlowMappingEnd] + rest);
        Enclosed(FlowMappingStart, FirstMemberWords(members), FlowMappingEnd, rest);
      case Bare(_) => assert ContentWords(n) + rest == rest;
    }
  }

  lemma {:induction false} ItemsEven(i: Items, rest: seq<Token>)
    ensures Bal(ItemWords(i) + rest) == Bal(rest)
    decreases i, 0
  {
    hide Words;
    if i.NoItems? {
      assert ItemWords(i) + rest == rest;
    } else {
      assert ItemWords(i) + rest == [BlockEntry] + (Words(i.head) + (ItemWords(i.tail) + rest));
      EvenFirst(BlockEntry, Words(i.head) + (ItemWords(i.tail) + rest));
      WordsEven(i.head, ItemWords(i.tail) + rest);
      ItemsEven(i.tail, rest);
    }
  }

  lemma HalvesEven(half: Halves, key: Node, value: Node, rest: seq<Token>)
    requires forall r :: Bal(Words(key) + r) == Bal(r)
    requires forall r :: Bal(Words(value) + r) == Bal(r)
    ensures Bal(HalfWords(half, Words(key), Words(value)) + rest) == Bal(rest)
  {
    hide Words, Bal;
    var k, v := Words(key), Words(value);
    match half {
      case KeyOnly =>
        Group([Key], k, rest);
        EvenFirst(Key, k + rest);
      case ValueOnly =>
        Group([Value], v, rest);
        EvenFirst(Value, v + rest);
      case KeyAndValue =>
        assert HalfWords(half, k, v) + rest == [Key] + (k + ([Value] + (v + rest)));
        EvenFirst(Key, k + ([Value] + (v + rest)));
        EvenFirst(Value, v + rest);
    }
  }

  lemma {:induction false} EntriesEven(e: Entries, rest: seq<Token>)
    ensures Bal(EntryWords(e) + rest) == Bal(rest)
    decreases e, 0
  {
    hide Words, HalfWords;
    if e.NoEntries? {
      assert EntryWords(e) + rest == rest;
    } else {
      var half := HalfWords(e.half, Words(e.key), Words(e.value));
      Group(half, EntryWords(e.tail), rest);
      forall r ensures Bal(Words(e.key) + r) == Bal(r) && Bal(Words(e.value) + r) == Bal(r) {
        WordsEven(e.key, r);
        WordsEven(e.value, r);
      }
      HalvesEven(e.half, e.key, e.value, EntryWords(e.tail) + rest);
      EntriesEven(e.tail, rest);
    }
  }

  lemma {:induction false} CellsEven(c: Cells, rest: seq<Token>)
    ensures Bal(CellWords(c) + rest) == Bal(rest) && Bal(FirstCellWords(c) + rest) == Bal(rest)
    decreases c, 0
  {
    hide Words, HalfWords;
    match c {
      case NoCells => assert CellWords(c) + rest == rest;
      case Comma =>
        EvenFirst(FlowEntry, rest);
        assert FirstCellWords(c) + rest == rest;
      case Item(n, tail) =>
        CellsEven(tail, rest);
        WordsEven(n, CellWords(tail) + rest);
        Group(Words(n), CellWords(tail), rest);
        Group([FlowEntry], Words(n) + CellWords(tail), rest);
        EvenFirst(FlowEntry, Words(n) + CellWords(tail) + rest);
      case Pair(half, k, v, tail) =>
        var w := HalfWords(half, Words(k), Words(v));
        CellsEven(tail, rest);
        forall r ensures Bal(Words(k) + r) == Bal(r) && Bal(Words(v) + r) == Bal(r) {
          WordsEven(k, r);
          WordsEven(v, r);
        }
        HalvesEven(half, k, v, CellWords(tail) + rest);
        Group(w, CellWords(tail), rest);
        Group([FlowEntry], w + CellWords(tail), rest);
        EvenFirst(FlowEntry, w + CellWords(tail) + rest);
    }
  }

  lemma {:induction false} MembersEven(m: Members, rest: seq<Token>)
    ensures Bal(MemberWords(m) + rest) == Bal(rest) && Bal(FirstMemberWords(m) + rest) == Bal(rest)
    decreases m, 0
  {
    hide Words, HalfWords;
    match m {
      case NoMembers => assert MemberWords(m) + rest == rest;
      case LastComma =>
        EvenFirst(FlowEntry, rest);
        assert FirstMemberWords(m) + rest == rest;
      case Lone(n, tail) =>
        MembersEven(tail, rest);
        WordsEven(n, MemberWords(tail) + rest);
        Group(Words(n), MemberWords(tail), rest);
        Group([FlowEntry], Words(n) + MemberWords(tail), rest);
        EvenFirst(FlowEntry, Words(n) + MemberWords(tail) + rest);
      case Member(half, k, v, tail) =>
        var w := HalfWords(half, Words(k), Words(v));
        MembersEven(tail, rest);
        forall r ensures Bal(Words(k) + r) == Bal(r) && Bal(Words(v) + r) == Bal(r) {
          WordsEven(k, r);
          WordsEven(v, r);
        }
        HalvesEven(half, k, v, MemberWords(tail) + rest);
        Group(w, MemberWords(tail), rest);
        Group([FlowEntry], w + MemberWords(tail), rest);
        EvenFirst(FlowEntry, w + MemberWords(tail) + rest);
    }
  }
}
