// What every step of the parser keeps: it never pops an empty stack, its events are grammatical,
// its aliases resolve, and it strictly comes nearer to the end (crates/yamluna-scanner/src/parser.rs).
module ParserSafety {
  import opened Results
  import opened Events
  import opened ParserStep
  import opened Grammar
  import opened Anchors

  // What a state still owes the reader of events.
  function Due(s: State): seq<Goal> {
    match s
    case StreamStart => [WholeStream]
    case ImplicitDocumentStart => [Documents]
    case DocumentStart => [Documents]
    case DocumentContent => [Node]
    case DocumentEnd => [Documents, DocumentTail]
    case BlockNode => [Node]
    case BlockSequenceFirstEntry => [Items]
    case BlockSequenceEntry => [Items]
    case IndentlessSequenceEntry => [Items]
    case BlockMappingFirstKey => [Pairs]
    case BlockMappingKey => [Pairs]
    case BlockMappingValue => [Pairs, Node]
    case FlowSequenceFirstEntry => [Items]
    case FlowSequenceEntry => [Items]
    case FlowSequenceEntryMappingKey => [Items, Pairs]
    case FlowSequenceEntryMappingValue => [Items, Pairs, Node]
    case FlowSequenceEntryMappingEnd => [Items, Pairs]
    case FlowMappingFirstKey => [Pairs]
    case FlowMappingKey => [Pairs]
    case FlowMappingValue => [Pairs, Node]
    case FlowMappingEmptyValue => [Pairs, Node]
    case End => []
  }

  function Owed(states: seq<State>): seq<Goal>
    decreases |states|
  {
    if states == [] then [] else Owed(states[..|states| - 1]) + Due(states[|states| - 1])
  }

  function Goals(m: Machine): seq<Goal> {
    Owed(m.states) + Due(m.state)
  }

  function ScopeOf(m: Machine): Scope {
    Scope(m.env.anchors, m.env.nextAnchor)
  }

  // ------------------------------------------------------------------ how far there is to go

  // A bound on the steps a state can take before the next token is consumed.
  function Rank(s: State, toks: seq<Token>): nat {
    match s
    case ImplicitDocumentStart => 5
    case FlowSequenceEntryMappingKey => 4
    case FlowSequenceEntryMappingValue => 2
    case BlockMappingKey => if toks != [] && toks[0].Value? then 2 else 0
    case DocumentContent => 1
    case DocumentEnd => 1
    case BlockNode => 1
    case BlockMappingValue => 1
    case FlowMappingValue => 1
    case FlowMappingEmptyValue => 1
    case FlowSequenceEntryMappingEnd => 1
    case _ => 0
  }

  function Distance(m: Machine): nat {
    6 * |m.toks| + 3 * |m.states| + Rank(m.state, m.toks)
  }

  // ------------------------------------------------------------------ one step

  // A step from a machine that owes `goals` and is `distance` away from the end.
  ghost predicate Safe(goals: seq<Goal>, s: Scope, distance: int, o: Outcome) {
    o.Emit? ==>
      && o.next.Valid()
      && Advance(goals, o.event) == Some(Goals(o.next))
      && Bind(s, o.event, false) == Some(ScopeOf(o.next))
      && Distance(o.next) < distance
  }

  lemma PushOwes(m: Machine, s: State)
    ensures Owed(m.Push(s).states) == Owed(m.states) + Due(s)
  {
    assert m.Push(s).states[..|m.states|] == m.states;
  }

  lemma PushStacked(m: Machine, s: State)
    requires Stacked(m.states) && Resumable(s)
    ensures Stacked(m.Push(s).states)
  {
    assert m.Push(s).states[1..] == m.states[1..] + [s];
  }

  // Going back to the state on top of the stack pays what was due.
  lemma PopOwes(m: Machine)
    requires Stacked(m.states) && m.env.nextAnchor >= 1
    ensures m.Pop().Valid() && Goals(m.Pop()) == Owed(m.states)
    ensures Distance(m.Pop()) < 6 * |m.toks| + 3 * |m.states|
  {
    var n := m.Pop();
    if |m.states| > 1 {
      assert n.state == m.states[1..][|m.states| - 2];
      assert n.states[1..] == m.states[1..][..|m.states| - 2];
    }
  }

  // ------------------------------------------------------------------ nodes

  // The anchor in front of a node, if any, is the one just registered.
  predicate Announced(s: Scope, p: Properties, m: Machine) {
    if p.anchor == NoAnchor then ScopeOf(m) == s
    else
      && p.anchor.id == s.next && p.anchor.name.Some?
      && ScopeOf(m) == Scope(s.ids[p.anchor.name.value := s.next], s.next + 1)
  }

  lemma PropertiesKeep(m: Machine)
    requires m.env.nextAnchor >= 1 && ReadProperties(m).Ok?
    ensures var (p, n) := ReadProperties(m).value;
            && n.states == m.states && n.state == m.state
            && n.env.nextAnchor >= 1 && |n.toks| <= |m.toks| && Announced(ScopeOf(m), p, n)
  {
  }

  // The distance allowed to a step that begins a node.
  function NodeDistance(m: Machine): nat {
    6 * |m.toks| + 3 * |m.states| + 1
  }

  predicate Carries(e: Event, p: Properties) {
    IsNodeEvent(e) && !e.Alias? && AnchorOf(e) == p.anchor
  }

  lemma Carried(s: Scope, e: Event, p: Properties, m: Machine)
    requires Carries(e, p) && Announced(s, p, m)
    ensures Bind(s, e, false) == Some(ScopeOf(m))
  {
  }

  // A node that is complete at once: the automaton goes back to where it came from.
  lemma LeafSafe(m: Machine, e: Event, next: Machine, s: Scope)
    requires Stacked(m.states) && m.env.nextAnchor >= 1 && (e.Alias? || e.Scalar?)
    requires next == m.Pop() || (m.toks != [] && next == m.Pop().Skip())
    requires Bind(s, e, false) == Some(ScopeOf(m))
    ensures Safe(Owed(m.states) + [Node], s, NodeDistance(m), Emit(e, next))
  {
    hide Owed, Stacked, Bind;
    PopOwes(m);
    NodePlaces(Owed(m.states), e);
  }

  predicate Opens(e: Event, s: State) {
    || (e.SequenceStart? && (s.BlockSequenceFirstEntry? || s.IndentlessSequenceEntry? || s.FlowSequenceFirstEntry?))
    || (e.MappingStart? && (s.BlockMappingFirstKey? || s.FlowMappingFirstKey?))
  }

  // A node that opens a collection.
  lemma OpenSafe(m: Machine, e: Event, state: State, s: Scope)
    requires Stacked(m.states) && m.env.nextAnchor >= 1 && Opens(e, state)
    requires Bind(s, e, false) == Some(ScopeOf(m))
    ensures Safe(Owed(m.states) + [Node], s, NodeDistance(m), Emit(e, m.Goto(state)))
  {
    hide Owed, Stacked, Bind;
    NodePlaces(Owed(m.states), e);
  }

  lemma ContentSafe(m: Machine, p: Properties, block: bool, indentless: bool, s: Scope)
    requires Stacked(m.states) && m.env.nextAnchor >= 1 && Announced(s, p, m)
    ensures Safe(Owed(m.states) + [Node], s, NodeDistance(m), NodeContent(m, p, block, indentless))
  {
    hide Owed, Resumables, Advance, Bind, Distance, NodeDistance, Goals, Machine.Valid, Announced;
    var o := NodeContent(m, p, block, indentless);
    if o.Emit? {
      Carried(s, o.event, p, m);
      if o.event.Scalar? {
        LeafSafe(m, o.event, o.next, s);
      } else {
        OpenSafe(m, o.event, o.next.state, s);
      }
    }
  }

  lemma NodeSafe(m: Machine, block: bool, indentless: bool)
    requires Stacked(m.states) && m.env.nextAnchor >= 1
    ensures Safe(Owed(m.states) + [Node], ScopeOf(m), NodeDistance(m), OnNode(m, block, indentless))
  {
    hide Owed, Resumables, NodeContent, ReadProperties;
    if m.toks != [] && m.toks[0].Alias? {
      var name := m.toks[0].name;
      if name in m.env.anchors {
        LeafSafe(m, Event.Alias(AnchorRef(m.env.anchors[name], Some(name))), m.Pop().Skip(), ScopeOf(m));
      }
    } else if ReadProperties(m).Ok? {
      PropertiesKeep(m);
      var (p, n) := ReadProperties(m).value;
      ContentSafe(n, p, block, indentless, ScopeOf(m));
    }
  }

  // ------------------------------------------------------------------ moves inside a document

  // A state that expects a node may read it and then go on in `back`.
  predicate Fits(due: seq<Goal>, back: seq<Goal>) {
    || (due == [Items] && back == [Items])
    || (due == [Pairs] && back == [Pairs, Node])
    || (due == [Pairs, Node] && back == [Pairs])
    || (due == [Items, Pairs] && back == [Items, Pairs, Node])
    || (due == [Items, Pairs, Node] && back == [Items, Pairs])
  }

  lemma FitsNode(due: seq<Goal>, back: seq<Goal>, e: Event)
    requires Fits(due, back) && IsNodeEvent(e)
    ensures Advance(due, e) == Advance(back + [Node], e)
  {
    hide OpenNode;
    NodePlaces(back, e);
    if due == [Items] {
      assert due == [] + [Items];
    } else if due == [Pairs] {
      assert due == [] + [Pairs] && back == due + [Node];
    } else if due == [Pairs, Node] {
      NodePlaces([Pairs], e);
      assert due == [Pairs] + [Node];
    } else if due == [Items, Pairs] {
      NodePlaces([Items], e);
      assert due == [Items] + [Pairs] && back == due + [Node];
    } else {
      NodePlaces([Items, Pairs], e);
      assert due == [Items, Pairs] + [Node];
    }
  }

  // What the null scalar, and the brackets of a single pair, do to what is due.
  lemma Payments()
    ensures var n := NullScalar();
            && Advance([Items], n) == Some([Items])
            && Advance([Pairs], n) == Some([Pairs, Node])
            && Advance([Pairs, Node], n) == Some([Pairs])
            && Advance([Items, Pairs], n) == Some([Items, Pairs, Node])
            && Advance([Items, Pairs, Node], n) == Some([Items, Pairs])
            && Advance([Items], MappingStart(NoAnchor, None, Flow)) == Some([Items, Pairs])
            && Advance([Items, Pairs], MappingEnd) == Some([Items])
  {
    assert [Pairs] + [Node] == [Pairs, Node];
    assert [Items] + [Pairs] == [Items, Pairs];
    assert [Items, Pairs] + [Node] == [Items, Pairs, Node];
    assert [Pairs, Node][..1] == [Pairs];
    assert [Items, Pairs][..1] == [Items];
    assert [Items, Pairs, Node][..2] == [Items, Pairs];
  }

  // `k` is `m` with some of its tokens read.
  predicate Reads(m: Machine, k: Machine) {
    k == m.(toks := k.toks) && |k.toks| <= |m.toks|
  }

  lemma NestedSafe(m: Machine, k: Machine, back: State, block: bool, indentless: bool)
    requires m.Valid() && Stacked(m.states) && Reads(m, k) && Resumable(back) && Fits(Due(m.state), Due(back))
    requires |k.toks| < |m.toks| || Rank(m.state, m.toks) >= 4
    ensures SafeStep(m, Nested(k, back, block, indentless))
  {
    hide Owed, Due, Resumables, OnNode, Bind, Machine.Valid, Fits, Advance;
    PushOwes(k, back);
    PushStacked(k, back);
    var n := k.Push(back);
    var o := OnNode(n, block, indentless);
    if o.Emit? {
      KeepsAnchorCount(m);
      NodeSafe(n, block, indentless);
      OnNodeEmitsNode(n, block, indentless);
      FitsNode(Due(m.state), Due(back), o.event);
      NestedAdvance(m, back, o.event);
    }
  }

  lemma KeepsAnchorCount(m: Machine)
    requires m.Valid()
    ensures m.env.nextAnchor >= 1
  {
  }

  lemma NestedAdvance(m: Machine, back: State, e: Event)
    requires Fits(Due(m.state), Due(back)) && IsNodeEvent(e)
    ensures Advance(Goals(m), e) == Advance(Owed(m.states) + Due(back) + [Node], e)
  {
    hide Owed, Due, Advance;
    var below := Owed(m.states);
    FitsNode(Due(m.state), Due(back), e);
    AdvanceFrame(below, Due(m.state), e);
    AdvanceFrame(below, Due(back) + [Node], e);
    assert below + Due(back) + [Node] == below + (Due(back) + [Node]);
  }

  lemma OnNodeEmitsNode(m: Machine, block: bool, indentless: bool)
    requires m.states != []
    ensures OnNode(m, block, indentless).Emit? ==> IsNodeEvent(OnNode(m, block, indentless).event)
  {
    hide ReadProperties;
  }

  // The steps of one state.
  ghost predicate SafeStep(m: Machine, o: Outcome) {
    Safe(Goals(m), ScopeOf(m), Distance(m), o)
  }

  // An event without an anchor moves the automaton to a state that owes what is left.
  lemma MoveSafe(m: Machine, k: Machine, e: Event, s: State)
    requires m.Valid() && Stacked(m.states) && Reads(m, k) && !TopLevel(s)
    requires AnchorOf(e) == NoAnchor && !e.Alias? && !e.DocumentStart?
    requires Due(m.state) != [] && Advance(Due(m.state), e) == Some(Due(s))
    requires 6 * |k.toks| + Rank(s, k.toks) < 6 * |m.toks| + Rank(m.state, m.toks)
    ensures SafeStep(m, Emit(e, k.Goto(s)))
  {
    hide Owed, Due, Resumables, Advance, Rank;
    AdvanceFrame(Owed(m.states), Due(m.state), e);
  }

  // A collection ends, and its last token, when it has one, goes with it.
  lemma EndSafe(m: Machine, k: Machine, next: Machine, e: Event)
    requires m.Valid() && Stacked(m.states) && Reads(m, k)
    requires next == k.Pop() || (k.toks != [] && next == k.Pop().Skip())
    requires (Due(m.state) == [Items] && e.SequenceEnd?) || (Due(m.state) == [Pairs] && e.MappingEnd?)
    ensures SafeStep(m, Emit(e, next))
  {
    hide Owed, Due, Resumables, Bind;
    PopOwes(k);
    NodePlaces(Owed(m.states), NullScalar());
    assert Bind(ScopeOf(m), e, false) == Some(ScopeOf(next)) by { EndBinds(ScopeOf(m), e); }
  }

  lemma EndBinds(s: Scope, e: Event)
    requires e.SequenceEnd? || e.MappingEnd?
    ensures Bind(s, e, false) == Some(s)
  {
  }

  // ------------------------------------------------------------------ each state

  lemma BlockMappingKeySafe(m: Machine)
    requires m.Valid() && (m.state.BlockMappingKey? || m.state.BlockMappingFirstKey?)
    ensures SafeStep(m, OnBlockMappingKey(m, m.state.BlockMappingFirstKey?))
  {
    hide Owed, Resumables, Nested, Bind, Machine.Valid, Advance, Goals, Distance, ScopeOf;
    KeepsStack(m);
    Payments();
    var o := OnBlockMappingKey(m, m.state.BlockMappingFirstKey?);
    if o.Emit? {
      var n := if m.state.BlockMappingFirstKey? then m.Skip() else m;
      if n.toks[0].BlockEnd? {
        EndSafe(m, n, o.next, MappingEnd);
      } else if n.toks[0].Key? && !EndsBlockNode(n.Skip().toks[0]) {
        NestedSafe(m, n.Skip(), BlockMappingValue, true, true);
      } else {
        MoveSafe(m, if n.toks[0].Key? then n.Skip() else n, NullScalar(), BlockMappingValue);
      }
    }
  }

  lemma KeepsStack(m: Machine)
    requires m.Valid() && !TopLevel(m.state)
    ensures Stacked(m.states)
  {
  }

  lemma BlockMappingValueSafe(m: Machine)
    requires m.Valid() && m.state.BlockMappingValue?
    ensures SafeStep(m, OnBlockMappingValue(m))
  {
    hide Owed, Resumables, Nested, Bind, Machine.Valid, Advance, Goals, Distance, ScopeOf;
    KeepsStack(m);
    Payments();
    var o := OnBlockMappingValue(m);
    if o.Emit? {
      if m.toks[0].Value? && !EndsBlockNode(m.Skip().toks[0]) {
        NestedSafe(m, m.Skip(), BlockMappingKey, true, true);
      } else {
        MoveSafe(m, if m.toks[0].Value? then m.Skip() else m, NullScalar(), BlockMappingKey);
      }
    }
  }

  lemma BlockSequenceEntrySafe(m: Machine)
    requires m.Valid() && (m.state.BlockSequenceEntry? || m.state.BlockSequenceFirstEntry?)
    ensures SafeStep(m, OnBlockSequenceEntry(m, m.state.BlockSequenceFirstEntry?))
  {
    hide Owed, Resumables, Nested, Bind, Machine.Valid, Advance, Goals, Distance, ScopeOf;
    KeepsStack(m);
    Payments();
    var o := OnBlockSequenceEntry(m, m.state.BlockSequenceFirstEntry?);
    if o.Emit? {
      var n := if m.state.BlockSequenceFirstEntry? then m.Skip() else m;
      if n.toks[0].BlockEnd? {
        EndSafe(m, n, o.next, SequenceEnd);
      } else if n.Skip().toks[0].BlockEntry? || n.Skip().toks[0].BlockEnd? {
        MoveSafe(m, n.Skip(), NullScalar(), BlockSequenceEntry);
      } else {
        NestedSafe(m, n.Skip(), BlockSequenceEntry, true, false);
      }
    }
  }

  lemma IndentlessSequenceEntrySafe(m: Machine)
    requires m.Valid() && m.state.IndentlessSequenceEntry?
    ensures SafeStep(m, OnIndentlessSequenceEntry(m))
  {
    hide Owed, Resumables, Nested, Bind, Machine.Valid, Advance, Goals, Distance, ScopeOf;
    KeepsStack(m);
    Payments();
    var o := OnIndentlessSequenceEntry(m);
    if o.Emit? {
      if !m.toks[0].BlockEntry? {
        EndSafe(m, m, o.next, SequenceEnd);
      } else if m.Skip().toks[0].BlockEntry? || EndsBlockNode(m.Skip().toks[0]) {
        MoveSafe(m, m.Skip(), NullScalar(), IndentlessSequenceEntry);
      } else {
        NestedSafe(m, m.Skip(), IndentlessSequenceEntry, true, false);
      }
    }
  }

  lemma FlowMappingEntrySafe(m: Machine, n: Machine)
    requires m.Valid() && (m.state.FlowMappingKey? || m.state.FlowMappingFirstKey?)
    requires Reads(m, n) && |n.toks| < |m.toks|
    ensures Stacked(m.states) && SafeStep(m, FlowMappingEntry(n))
  {
    hide Owed, Resumables, Nested, Bind, Machine.Valid, Advance, Goals, Distance, ScopeOf;
    KeepsStack(m);
    Payments();
    var o := FlowMappingEntry(n);
    if o.Emit? {
      if n.toks[0].FlowMappingEnd? {
        EndSafe(m, n, o.next, MappingEnd);
      } else if n.toks[0].Value? {
        MoveSafe(m, n, NullScalar(), FlowMappingValue);
      } else if !n.toks[0].Key? {
        NestedSafe(m, n, FlowMappingEmptyValue, false, false);
      } else {
        var k := n.Skip();
        if k.toks[0].Value? || k.toks[0].FlowEntry? || k.toks[0].FlowMappingEnd? {
          MoveSafe(m, k, NullScalar(), FlowMappingValue);
        } else {
          NestedSafe(m, k, FlowMappingValue, false, false);
        }
      }
    }
  }

  lemma FlowMappingKeySafe(m: Machine)
    requires m.Valid() && (m.state.FlowMappingKey? || m.state.FlowMappingFirstKey?)
    ensures SafeStep(m, OnFlowMappingKey(m, m.state.FlowMappingFirstKey?))
  {
    hide Owed, Resumables, FlowMappingEntry, Bind, Machine.Valid, Advance, Goals, Distance, ScopeOf;
    KeepsStack(m);
    var o := OnFlowMappingKey(m, m.state.FlowMappingFirstKey?);
    if o.Emit? {
      var n := if m.state.FlowMappingFirstKey? then m.Skip() else m;
      if n.toks[0].FlowMappingEnd? {
        EndSafe(m, n, o.next, MappingEnd);
      } else {
        FlowMappingEntrySafe(m, if m.state.FlowMappingFirstKey? then n else n.Skip());
      }
    }
  }

  lemma FlowMappingValueSafe(m: Machine)
    requires m.Valid() && (m.state.FlowMappingValue? || m.state.FlowMappingEmptyValue?)
    ensures SafeStep(m, OnFlowMappingValue(m, m.state.FlowMappingEmptyValue?))
  {
    hide Owed, Resumables, Nested, Bind, Machine.Valid, Advance, Goals, Distance, ScopeOf;
    KeepsStack(m);
    Payments();
    var o := OnFlowMappingValue(m, m.state.FlowMappingEmptyValue?);
    if o.Emit? {
      if m.state.FlowMappingValue? && m.toks[0].Value? {
        var k := m.Skip();
        if k.toks[0].FlowEntry? || k.toks[0].FlowMappingEnd? {
          MoveSafe(m, k, NullScalar(), FlowMappingKey);
        } else {
          NestedSafe(m, k, FlowMappingKey, false, false);
        }
      } else {
        MoveSafe(m, m, NullScalar(), FlowMappingKey);
      }
    }
  }

  lemma FlowSequenceItemSafe(m: Machine, n: Machine)
    requires m.Valid() && (m.state.FlowSequenceEntry? || m.state.FlowSequenceFirstEntry?)
    requires Reads(m, n) && |n.toks| < |m.toks|
    ensures Stacked(m.states) && SafeStep(m, FlowSequenceItem(n))
  {
    hide Owed, Resumables, Nested, Bind, Machine.Valid, Advance, Goals, Distance, ScopeOf;
    KeepsStack(m);
    Payments();
    var o := FlowSequenceItem(n);
    if o.Emit? {
      if n.toks[0].FlowSequenceEnd? {
        EndSafe(m, n, o.next, SequenceEnd);
      } else if n.toks[0].Key? {
        MoveSafe(m, n.Skip(), MappingStart(NoAnchor, None, Flow), FlowSequenceEntryMappingKey);
      } else {
        NestedSafe(m, n, FlowSequenceEntry, false, false);
      }
    }
  }

  lemma FlowSequenceEntrySafe(m: Machine)
    requires m.Valid() && (m.state.FlowSequenceEntry? || m.state.FlowSequenceFirstEntry?)
    ensures SafeStep(m, OnFlowSequenceEntry(m, m.state.FlowSequenceFirstEntry?))
  {
    hide Owed, Resumables, FlowSequenceItem, Bind, Machine.Valid, Advance, Goals, Distance, ScopeOf;
    KeepsStack(m);
    var o := OnFlowSequenceEntry(m, m.state.FlowSequenceFirstEntry?);
    if o.Emit? {
      var n := if m.state.FlowSequenceFirstEntry? then m.Skip() else m;
      if n.toks[0].FlowSequenceEnd? {
        EndSafe(m, n, o.next, SequenceEnd);
      } else {
        FlowSequenceItemSafe(m, if m.state.FlowSequenceFirstEntry? then n else n.Skip());
      }
    }
  }

  lemma FlowPairKeySafe(m: Machine)
    requires m.Valid() && m.state.FlowSequenceEntryMappingKey?
    ensures SafeStep(m, FlowPairKey(m))
  {
    hide Owed, Resumables, Nested, Bind, Machine.Valid, Advance, Goals, Distance, ScopeOf;
    KeepsStack(m);
    Payments();
    var o := FlowPairKey(m);
    if o.Emit? {
      if m.toks[0].Value? || m.toks[0].FlowEntry? || m.toks[0].FlowSequenceEnd? {
        MoveSafe(m, m.Skip(), NullScalar(), FlowSequenceEntryMappingValue);
      } else {
        NestedSafe(m, m, FlowSequenceEntryMappingValue, false, false);
      }
    }
  }

  lemma FlowPairValueSafe(m: Machine)
    requires m.Valid() && m.state.FlowSequenceEntryMappingValue?
    ensures SafeStep(m, FlowPairValue(m))
  {
    hide Owed, Resumables, Nested, Bind, Machine.Valid, Advance, Goals, Distance, ScopeOf;
    KeepsStack(m);
    Payments();
    var o := FlowPairValue(m);
    if o.Emit? {
      if !m.toks[0].Value? {
        MoveSafe(m, m, NullScalar(), FlowSequenceEntryMappingEnd);
      } else {
        var k := m.Skip();
        if k.toks[0].FlowEntry? || k.toks[0].FlowSequenceEnd? {
          MoveSafe(m, k, NullScalar(), FlowSequenceEntryMappingEnd);
        } else {
          NestedSafe(m, k, FlowSequenceEntryMappingEnd, false, false);
        }
      }
    }
  }

  lemma FlowPairEndSafe(m: Machine)
    requires m.Valid() && m.state.FlowSequenceEntryMappingEnd?
    ensures SafeStep(m, FlowPairEnd(m))
  {
    hide Owed, Resumables, Bind, Machine.Valid, Advance, Goals, Distance, ScopeOf;
    KeepsStack(m);
    Payments();
    MoveSafe(m, m, MappingEnd, FlowSequenceEntry);
  }

  // ------------------------------------------------------------------ streams and documents

  lemma StreamStartSafe(m: Machine)
    requires m.Valid() && m.state.StreamStart?
    ensures SafeStep(m, OnStreamStart(m))
  {
    var o := OnStreamStart(m);
    if o.Emit? {
      assert [WholeStream][..0] + [Documents] == [Documents];
      assert Goals(m) == [WholeStream] && Goals(o.next) == [Documents];
    }
  }

  // The parser enters a document.
  lemma EnterSafe(m: Machine, k: Machine, explicit: bool, s: State)
    requires m.Valid() && (m.state.DocumentStart? || m.state.ImplicitDocumentStart?)
    requires k == m.(toks := k.toks, env := m.env.(tags := k.env.tags, version := k.env.version))
    requires s.DocumentContent? || s.BlockNode?
    requires 6 * |k.toks| + 4 < Distance(m)
    ensures SafeStep(m, Emit(Event.DocumentStart(explicit), k.Push(State.DocumentEnd).Goto(s)))
  {
    var n := k.Push(State.DocumentEnd).Goto(s);
    assert n.states == [State.DocumentEnd];
    PushOwes(k, State.DocumentEnd);
    assert Owed([]) == [];
    assert Goals(m) == [Documents];
    assert Goals(n) == [Documents, DocumentTail, Node];
    assert [Documents] + [DocumentTail, Node] == [Documents, DocumentTail, Node];
  }

  lemma ExplicitSafe(m: Machine, n: Machine)
    requires m.Valid() && (m.state.DocumentStart? || m.state.ImplicitDocumentStart?) && Reads(m, n)
    ensures SafeStep(m, OnExplicitDocumentStart(n))
  {
    hide Owed, ReadDirectives, Bind, Advance, Goals;
    if ProcessDirectives(n).Ok? && ProcessDirectives(n).value.toks[0].DocumentStart? {
      var p := ProcessDirectives(n).value;
      EnterSafe(m, p.Skip(), true, DocumentContent);
    }
  }

  lemma DocumentStartSafe(m: Machine)
    requires m.Valid() && (m.state.DocumentStart? || m.state.ImplicitDocumentStart?)
    ensures SafeStep(m, OnDocumentStart(m, m.state.ImplicitDocumentStart?))
  {
    hide SkipDocumentEnds, OnExplicitDocumentStart, ReadDirectives, Bind;
    var n := SkipDocumentEnds(m);
    var o := OnDocumentStart(m, m.state.ImplicitDocumentStart?);
    ExplicitSafe(m, n);
    if o.Emit? {
      if n.toks[0].StreamEnd? {
        assert Goals(m) == [Documents];
        assert [Documents][..0] == [];
        assert Goals(o.next) == [];
        StreamEndBinds(ScopeOf(m));
      } else if !IsDirective(n.toks[0]) && !n.toks[0].DocumentStart? && m.state.ImplicitDocumentStart? {
        EnterSafe(m, ProcessDirectives(n).value, false, BlockNode);
      }
    }
  }

  lemma StreamEndBinds(s: Scope)
    ensures Bind(s, Event.StreamEnd, false) == Some(s)
  {
  }

  lemma DocumentContentSafe(m: Machine)
    requires m.Valid() && m.state.DocumentContent?
    ensures SafeStep(m, OnDocumentContent(m))
  {
    hide Owed, Resumables, OnNode, Bind, Advance;
    KeepsStack(m);
    var o := OnDocumentContent(m);
    if o.Emit? {
      if EndsContent(m.toks[0]) {
        NullBinds(ScopeOf(m));
        LeafSafe(m, NullScalar(), m.Pop(), ScopeOf(m));
      } else {
        NodeSafe(m, true, false);
      }
    }
  }

  lemma NullBinds(s: Scope)
    ensures Bind(s, NullScalar(), false) == Some(s)
  {
  }

  lemma BlockNodeSafe(m: Machine)
    requires m.Valid() && m.state.BlockNode?
    ensures SafeStep(m, OnNode(m, true, false))
  {
    hide Owed, Resumables, OnNode, Bind, Advance;
    KeepsStack(m);
    NodeSafe(m, true, false);
  }

  lemma DocumentEndSafe(m: Machine)
    requires m.Valid() && m.state.DocumentEnd?
    ensures SafeStep(m, OnDocumentEnd(m))
  {
    var o := OnDocumentEnd(m);
    if o.Emit? {
      assert [Documents, DocumentTail][..1] == [Documents];
      assert Goals(m) == [Documents, DocumentTail] && Goals(o.next) == [Documents];
    }
  }

  // Whatever the tokens, every step of the parser keeps the stack in shape, emits an event the
  // grammar allows there, numbers and resolves anchors correctly, and comes nearer to the end.
  lemma StepSafe(m: Machine)
    requires m.Valid() && !m.state.End?
    ensures SafeStep(m, Step(m))
  {
    hide SafeStep, OnStreamStart, OnDocumentStart, OnDocumentContent, OnDocumentEnd, OnNode, OnBlockMappingKey,
      OnBlockMappingValue, OnBlockSequenceEntry, OnIndentlessSequenceEntry, OnFlowMappingKey, OnFlowMappingValue,
      OnFlowSequenceEntry, FlowPairKey, FlowPairValue, FlowPairEnd, Resumables;
    match m.state
    case StreamStart => StreamStartSafe(m);
    case ImplicitDocumentStart => DocumentStartSafe(m);
    case DocumentStart => DocumentStartSafe(m);
    case DocumentContent => DocumentContentSafe(m);
    case DocumentEnd => DocumentEndSafe(m);
    case BlockNode => BlockNodeSafe(m);
    case BlockMappingFirstKey => BlockMappingKeySafe(m);
    case BlockMappingKey => BlockMappingKeySafe(m);
    case BlockMappingValue => BlockMappingValueSafe(m);
    case BlockSequenceFirstEntry => BlockSequenceEntrySafe(m);
    case BlockSequenceEntry => BlockSequenceEntrySafe(m);
    case FlowSequenceFirstEntry => FlowSequenceEntrySafe(m);
    case FlowSequenceEntry => FlowSequenceEntrySafe(m);
    case FlowMappingFirstKey => FlowMappingKeySafe(m);
    case FlowMappingKey => FlowMappingKeySafe(m);
    case FlowMappingValue => FlowMappingValueSafe(m);
    case FlowMappingEmptyValue => FlowMappingValueSafe(m);
    case IndentlessSequenceEntry => IndentlessSequenceEntrySafe(m);
    case FlowSequenceEntryMappingKey => FlowPairKeySafe(m);
    case FlowSequenceEntryMappingValue => FlowPairValueSafe(m);
    case FlowSequenceEntryMappingEnd => FlowPairEndSafe(m);
  }
}
