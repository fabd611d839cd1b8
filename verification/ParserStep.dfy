// The parser as a pushdown automaton over the tokens that are not comments: one step per event
// (crates/yamluna-scanner/src/parser.rs).
module ParserStep {
  import opened Results
  import opened Events
  import opened ScalarEmitter

  datatype State =
    | StreamStart
    | ImplicitDocumentStart
    | DocumentStart
    | DocumentContent
    | DocumentEnd
    | BlockNode
    | BlockSequenceFirstEntry
    | BlockSequenceEntry
    | IndentlessSequenceEntry
    | BlockMappingFirstKey
    | BlockMappingKey
    | BlockMappingValue
    | FlowSequenceFirstEntry
    | FlowSequenceEntry
    | FlowSequenceEntryMappingKey
    | FlowSequenceEntryMappingValue
    | FlowSequenceEntryMappingEnd
    | FlowMappingFirstKey
    | FlowMappingKey
    | FlowMappingValue
    | FlowMappingEmptyValue
    | End

  // The states outside any document content; the stack is empty in exactly these.
  predicate TopLevel(s: State) {
    s.StreamStart? || s.ImplicitDocumentStart? || s.DocumentStart? || s.DocumentEnd? || s.End?
  }

  // The states a nested node can return to.
  predicate Resumable(s: State) {
    || s.BlockSequenceEntry? || s.IndentlessSequenceEntry? || s.BlockMappingKey? || s.BlockMappingValue?
    || s.FlowSequenceEntry? || s.FlowSequenceEntryMappingValue? || s.FlowSequenceEntryMappingEnd?
    || s.FlowMappingKey? || s.FlowMappingValue? || s.FlowMappingEmptyValue?
  }

  predicate Resumables(states: seq<State>) {
    forall i | 0 <= i < |states| :: Resumable(states[i])
  }

  // The shape of the state stack: the document at the bottom, collections above it.
  predicate Stacked(states: seq<State>) {
    states != [] && states[0] == State.DocumentEnd && Resumables(states[1..])
  }

  // What the parser knows besides its place in the grammar.
  datatype Env = Env(
    anchors: map<string, nat>,
    nextAnchor: nat,
    tags: map<string, string>,
    version: Option<(nat, nat)>,
    keepTags: bool,
    scanError: Option<string>)

  // The automaton: `toks` are the tokens still to come, the buffered one included.
  datatype Machine = Machine(state: State, states: seq<State>, toks: seq<Token>, env: Env) {
    predicate Valid() {
      && env.nextAnchor >= 1
      && if TopLevel(state) then states == [] else Stacked(states)
    }

    function Goto(s: State): Machine {
      this.(state := s)
    }

    function Push(s: State): Machine {
      this.(states := states + [s])
    }

    function Pop(): Machine
      requires states != []
    {
      this.(state := states[|states| - 1], states := states[..|states| - 1])
    }

    function Skip(): Machine
      requires toks != []
    {
      this.(toks := toks[1..])
    }

    // What reading a token past the last one reports.
    function Eof(): ParseError {
      match env.scanError
      case None => UnexpectedEof
      case Some(info) => ScannerError(info)
    }

    // Whether a token is there and is one of the kind asked for.
    predicate At(t: Token) {
      toks != [] && toks[0] == t
    }
  }

  datatype Outcome = Emit(event: Event, next: Machine) | Fail(error: ParseError)

  predicate IsDirective(t: Token) {
    t.VersionDirective? || t.TagDirective? || t.ReservedDirective?
  }

  // ------------------------------------------------------------------ stream and documents

  function OnStreamStart(m: Machine): Outcome {
    if m.toks == [] then Fail(m.Eof())
    else if m.toks[0].StreamStart? then
      Emit(Event.StreamStart, m.Skip().Goto(ImplicitDocumentStart))
    else Fail(ExpectedStreamStart)
  }

  function SkipDocumentEnds(m: Machine): (r: Machine)
    ensures |r.toks| <= |m.toks| && r == m.(toks := r.toks)
    ensures r.toks != [] ==> !r.toks[0].DocumentEnd?
    decreases |m.toks|
  {
    if m.At(Token.DocumentEnd) then SkipDocumentEnds(m.Skip()) else m
  }

  // The directives of one document: a `%YAML` line and the `%TAG` lines read so far.
  datatype Directives = Directives(versionSeen: bool, tags: map<string, string>)

  function ReadDirectives(m: Machine, d: Directives): (r: Result<Machine, ParseError>)
    ensures r.Ok? ==> r.value.toks != [] && !IsDirective(r.value.toks[0]) && |r.value.toks| <= |m.toks|
    ensures r.Ok? ==> r.value == m.(toks := r.value.toks, env := m.env.(tags := r.value.env.tags, version := r.value.env.version))
    decreases |m.toks|
  {
    if m.toks == [] then Err(m.Eof())
    else match m.toks[0]
      case VersionDirective(major, minor) =>
        if d.versionSeen then Err(DuplicateVersionDirective)
        else ReadDirectives(m.Skip().(env := m.env.(version := Some((major, minor)))), d.(versionSeen := true))
      case TagDirective(handle, prefix) =>
        if handle in d.tags then Err(DuplicateTagDirective)
        else ReadDirectives(m.Skip(), d.(tags := d.tags[handle := prefix]))
      case ReservedDirective(_, _) => ReadDirectives(m.Skip(), d)
      case _ => Ok(m.(env := m.env.(tags := m.env.tags + d.tags)))
  }

  lemma DirectivesEnd(m: Machine, d: Directives)
    requires m.toks != [] && !IsDirective(m.toks[0])
    ensures ReadDirectives(m, d) == Ok(m.(env := m.env.(tags := m.env.tags + d.tags)))
  {
  }

  function ProcessDirectives(m: Machine): (r: Result<Machine, ParseError>) {
    ReadDirectives(m.(env := m.env.(version := None)), Directives(false, map[]))
  }

  function OnExplicitDocumentStart(m: Machine): Outcome {
    match ProcessDirectives(m)
    case Err(e) => Fail(e)
    case Ok(n) =>
      if n.toks[0].DocumentStart? then
        Emit(Event.DocumentStart(true), n.Push(State.DocumentEnd).Goto(DocumentContent).Skip())
      else Fail(ExpectedDocumentStart)
  }

  function OnDocumentStart(m: Machine, implicit: bool): Outcome {
    var n := SkipDocumentEnds(m);
    if n.toks == [] then Fail(n.Eof())
    else if n.toks[0].StreamEnd? then Emit(Event.StreamEnd, n.Goto(End).Skip())
    else if IsDirective(n.toks[0]) || n.toks[0].DocumentStart? then OnExplicitDocumentStart(n)
    else if implicit then
      match ProcessDirectives(n)
      case Err(e) => Fail(e)
      case Ok(p) => Emit(Event.DocumentStart(false), p.Push(State.DocumentEnd).Goto(BlockNode))
    else OnExplicitDocumentStart(n)
  }

  predicate EndsContent(t: Token) {
    IsDirective(t) || t.DocumentStart? || t.DocumentEnd? || t.StreamEnd?
  }

  function OnDocumentContent(m: Machine): Outcome
    requires m.states != []
  {
    if m.toks == [] then Fail(m.Eof())
    else if EndsContent(m.toks[0]) then Emit(NullScalar(), m.Pop())
    else OnNode(m, true, false)
  }

  function OnDocumentEnd(m: Machine): Outcome {
    if m.toks == [] then Fail(m.Eof())
    else
      var n := if m.env.keepTags then m else m.(env := m.env.(tags := map[]));
      if m.toks[0].DocumentEnd? then Emit(Event.DocumentEnd, n.Skip().Goto(ImplicitDocumentStart))
      else if IsDirective(m.toks[0]) then Fail(MissingDocumentEndBeforeDirective)
      else Emit(Event.DocumentEnd, n.Goto(State.DocumentStart))
  }

  // ------------------------------------------------------------------ nodes

  // The anchor and the tag in front of a node, in either order.
  datatype Properties = Properties(anchor: AnchorRef, tag: Option<ResolvedTag>)

  function Register(m: Machine, name: string): Machine {
    m.(env := m.env.(anchors := m.env.anchors[name := m.env.nextAnchor], nextAnchor := m.env.nextAnchor + 1))
  }

  const CorePrefix := "tag:yaml.org,2002:"

  function ResolveTag(tags: map<string, string>, handle: string, suffix: string): Result<ResolvedTag, ParseError> {
    if handle == "!!" then
      Ok(ResolvedTag(if "!!" in tags then tags["!!"] else CorePrefix, suffix))
    else if handle == "" && suffix == "!" then
      Ok(ResolvedTag(if "" in tags then tags[""] else "", suffix))
    else if handle in tags then Ok(ResolvedTag(tags[handle], suffix))
    else if |handle| >= 2 && handle[0] == '!' && handle[|handle| - 1] == '!' then Err(UndeclaredTagHandle)
    else Ok(ResolvedTag(handle, suffix))
  }

  function AnchorThenTag(m: Machine, name: string): (r: Result<(Properties, Machine), ParseError>)
    requires m.toks != []
    ensures r.Ok? ==> r.value.1.states == m.states && |r.value.1.toks| <= |m.toks|
  {
    var n := Register(m.Skip(), name);
    var anchor := AnchorRef(m.env.nextAnchor, Some(name));
    if n.toks == [] then Err(n.Eof())
    else if n.toks[0].Tag? then
      match ResolveTag(n.env.tags, n.toks[0].handle, n.toks[0].suffix)
      case Err(e) => Err(e)
      case Ok(tag) => Ok((Properties(anchor, Some(tag)), n.Skip()))
    else Ok((Properties(anchor, None), n))
  }

  function TagThenAnchor(m: Machine, handle: string, suffix: string): (r: Result<(Properties, Machine), ParseError>)
    requires m.toks != []
    ensures r.Ok? ==> r.value.1.states == m.states && |r.value.1.toks| <= |m.toks|
  {
    match ResolveTag(m.env.tags, handle, suffix)
    case Err(e) => Err(e)
    case Ok(tag) =>
      var n := m.Skip();
      if n.toks == [] then Err(n.Eof())
      else if n.toks[0].Anchor? then
        Ok((Properties(AnchorRef(n.env.nextAnchor, Some(n.toks[0].name)), Some(tag)),
            Register(n.Skip(), n.toks[0].name)))
      else Ok((Properties(NoAnchor, Some(tag)), n))
  }

  function ReadProperties(m: Machine): (r: Result<(Properties, Machine), ParseError>)
    ensures r.Ok? ==> r.value.1.states == m.states && |r.value.1.toks| <= |m.toks|
  {
    if m.toks == [] then Err(m.Eof())
    else if m.toks[0].Anchor? then AnchorThenTag(m, m.toks[0].name)
    else if m.toks[0].Tag? then TagThenAnchor(m, m.toks[0].handle, m.toks[0].suffix)
    else Ok((Properties(NoAnchor, None), m))
  }

  function NodeContent(m: Machine, p: Properties, block: bool, indentless: bool): Outcome
    requires m.states != []
  {
    if m.toks == [] then Fail(m.Eof())
    else match m.toks[0]
      case BlockEntry =>
        if indentless then Emit(SequenceStart(p.anchor, p.tag, Block), m.Goto(IndentlessSequenceEntry))
        else EmptyNode(m, p)
      case Scalar(style, value) => Emit(Event.Scalar(value, style, p.anchor, p.tag), m.Pop().Skip())
      case FlowSequenceStart => Emit(SequenceStart(p.anchor, p.tag, Flow), m.Goto(FlowSequenceFirstEntry))
      case FlowMappingStart => Emit(MappingStart(p.anchor, p.tag, Flow), m.Goto(FlowMappingFirstKey))
      case BlockSequenceStart =>
        if block then Emit(SequenceStart(p.anchor, p.tag, Block), m.Goto(BlockSequenceFirstEntry))
        else EmptyNode(m, p)
      case BlockMappingStart =>
        if block then Emit(MappingStart(p.anchor, p.tag, Block), m.Goto(BlockMappingFirstKey))
        else EmptyNode(m, p)
      case _ => EmptyNode(m, p)
  }

  // A node with properties and nothing behind them is the empty scalar.
  function EmptyNode(m: Machine, p: Properties): Outcome
    requires m.states != []
  {
    if p.tag.Some? || p.anchor.id > 0 then Emit(Event.Scalar("", ScalarStyle.Plain, p.anchor, p.tag), m.Pop())
    else Fail(ExpectedNodeContent)
  }

  function OnNode(m: Machine, block: bool, indentless: bool): Outcome
    requires m.states != []
  {
    if m.toks == [] then Fail(m.Eof())
    else if m.toks[0].Alias? then
      var name := m.toks[0].name;
      if name in m.env.anchors then
        Emit(Event.Alias(AnchorRef(m.env.anchors[name], Some(name))), m.Pop().Skip())
      else Fail(UnknownAnchor)
    else
      match ReadProperties(m)
      case Err(e) => Fail(e)
      case Ok((p, n)) => NodeContent(n, p, block, indentless)
  }

  // A node in a nested position: `back` is where the automaton goes on behind it.
  function Nested(m: Machine, back: State, block: bool, indentless: bool): Outcome {
    OnNode(m.Push(back), block, indentless)
  }

  // ------------------------------------------------------------------ block collections

  predicate EndsBlockNode(t: Token) {
    t.Key? || t.Value? || t.BlockEnd?
  }

  function OnBlockMappingKey(m: Machine, first: bool): Outcome
    requires m.states != []
  {
    if m.toks == [] then Fail(m.Eof())
    else
      var n := if first then m.Skip() else m;
      if n.toks == [] then Fail(n.Eof())
      else if n.toks[0].Key? then
        var k := n.Skip();
        if k.toks == [] then Fail(k.Eof())
        else if EndsBlockNode(k.toks[0]) then Emit(NullScalar(), k.Goto(BlockMappingValue))
        else Nested(k, BlockMappingValue, true, true)
      else if n.toks[0].Value? then Emit(NullScalar(), n.Goto(BlockMappingValue))
      else if n.toks[0].BlockEnd? then Emit(MappingEnd, n.Pop().Skip())
      else Fail(ExpectedBlockKey)
  }

  function OnBlockMappingValue(m: Machine): Outcome {
    if m.toks == [] then Fail(m.Eof())
    else if m.toks[0].Value? then
      var k := m.Skip();
      if k.toks == [] then Fail(k.Eof())
      else if EndsBlockNode(k.toks[0]) then Emit(NullScalar(), k.Goto(BlockMappingKey))
      else Nested(k, BlockMappingKey, true, true)
    else Emit(NullScalar(), m.Goto(BlockMappingKey))
  }

  function OnBlockSequenceEntry(m: Machine, first: bool): Outcome
    requires m.states != []
  {
    if m.toks == [] then Fail(m.Eof())
    else
      var n := if first then m.Skip() else m;
      if n.toks == [] then Fail(n.Eof())
      else if n.toks[0].BlockEnd? then Emit(SequenceEnd, n.Pop().Skip())
      else if n.toks[0].BlockEntry? then
        var k := n.Skip();
        if k.toks == [] then Fail(k.Eof())
        else if k.toks[0].BlockEntry? || k.toks[0].BlockEnd? then Emit(NullScalar(), k.Goto(BlockSequenceEntry))
        else Nested(k, BlockSequenceEntry, true, false)
      else Fail(ExpectedBlockEntry)
  }

  function OnIndentlessSequenceEntry(m: Machine): Outcome
    requires m.states != []
  {
    if m.toks == [] then Fail(m.Eof())
    else if m.toks[0].BlockEntry? then
      var k := m.Skip();
      if k.toks == [] then Fail(k.Eof())
      else if k.toks[0].BlockEntry? || EndsBlockNode(k.toks[0]) then Emit(NullScalar(), k.Goto(IndentlessSequenceEntry))
      else Nested(k, IndentlessSequenceEntry, true, false)
    else Emit(SequenceEnd, m.Pop())
  }

  // ------------------------------------------------------------------ flow collections

  function OnFlowMappingKey(m: Machine, first: bool): Outcome
    requires m.states != []
  {
    if m.toks == [] then Fail(m.Eof())
    else
      var n := if first then m.Skip() else m;
      if n.toks == [] then Fail(n.Eof())
      else if n.toks[0].FlowMappingEnd? then Emit(MappingEnd, n.Pop().Skip())
      else if first then FlowMappingEntry(n)
      else if n.toks[0].FlowEntry? then FlowMappingEntry(n.Skip())
      else Fail(ExpectedFlowMappingEnd)
  }

  function FlowMappingEntry(m: Machine): Outcome
    requires m.states != []
  {
    if m.toks == [] then Fail(m.Eof())
    else if m.toks[0].Key? then
      var k := m.Skip();
      if k.toks == [] then Fail(k.Eof())
      else if k.toks[0].Value? || k.toks[0].FlowEntry? || k.toks[0].FlowMappingEnd? then
        Emit(NullScalar(), k.Goto(FlowMappingValue))
      else Nested(k, FlowMappingValue, false, false)
    else if m.toks[0].Value? then Emit(NullScalar(), m.Goto(FlowMappingValue))
    else if m.toks[0].FlowMappingEnd? then Emit(MappingEnd, m.Pop().Skip())
    else Nested(m, FlowMappingEmptyValue, false, false)
  }

  function OnFlowMappingValue(m: Machine, empty: bool): Outcome {
    if m.toks == [] then Fail(m.Eof())
    else if !empty && m.toks[0].Value? then
      var k := m.Skip();
      if k.toks == [] then Fail(k.Eof())
      else if k.toks[0].FlowEntry? || k.toks[0].FlowMappingEnd? then Emit(NullScalar(), k.Goto(FlowMappingKey))
      else Nested(k, FlowMappingKey, false, false)
    else Emit(NullScalar(), m.Goto(FlowMappingKey))
  }

  function OnFlowSequenceEntry(m: Machine, first: bool): Outcome
    requires m.states != []
  {
    if m.toks == [] then Fail(m.Eof())
    else
      var n := if first then m.Skip() else m;
      if n.toks == [] then Fail(n.Eof())
      else if n.toks[0].FlowSequenceEnd? then Emit(SequenceEnd, n.Pop().Skip())
      else if first then FlowSequenceItem(n)
      else if n.toks[0].FlowEntry? then FlowSequenceItem(n.Skip())
      else Fail(ExpectedFlowSequenceEnd)
  }

  function FlowSequenceItem(m: Machine): Outcome
    requires m.states != []
  {
    if m.toks == [] then Fail(m.Eof())
    else if m.toks[0].FlowSequenceEnd? then Emit(SequenceEnd, m.Pop().Skip())
    else if m.toks[0].Key? then
      Emit(MappingStart(NoAnchor, None, Flow), m.Skip().Goto(FlowSequenceEntryMappingKey))
    else Nested(m, FlowSequenceEntry, false, false)
  }

  // The key and the value of a single pair written inside `[` and `]` without braces.
  function FlowPairKey(m: Machine): Outcome {
    if m.toks == [] then Fail(m.Eof())
    else if m.toks[0].Value? || m.toks[0].FlowEntry? || m.toks[0].FlowSequenceEnd? then
      Emit(NullScalar(), m.Skip().Goto(FlowSequenceEntryMappingValue))
    else Nested(m, FlowSequenceEntryMappingValue, false, false)
  }

  function FlowPairValue(m: Machine): Outcome {
    if m.toks == [] then Fail(m.Eof())
    else if m.toks[0].Value? then
      var k := m.Skip();
      if k.toks == [] then Fail(k.Eof())
      else if k.toks[0].FlowEntry? || k.toks[0].FlowSequenceEnd? then
        Emit(NullScalar(), k.Goto(FlowSequenceEntryMappingEnd))
      else Nested(k, FlowSequenceEntryMappingEnd, false, false)
    else Emit(NullScalar(), m.Goto(FlowSequenceEntryMappingEnd))
  }

  function FlowPairEnd(m: Machine): Outcome {
    Emit(MappingEnd, m.Goto(FlowSequenceEntry))
  }

  // ------------------------------------------------------------------ the whole automaton

  function Step(m: Machine): Outcome
    requires m.Valid()
  {
    match m.state
    case StreamStart => OnStreamStart(m)
    case ImplicitDocumentStart => OnDocumentStart(m, true)
    case DocumentStart => OnDocumentStart(m, false)
    case DocumentContent => OnDocumentContent(m)
    case DocumentEnd => OnDocumentEnd(m)
    case BlockNode => OnNode(m, true, false)
    case BlockMappingFirstKey => OnBlockMappingKey(m, true)
    case BlockMappingKey => OnBlockMappingKey(m, false)
    case BlockMappingValue => OnBlockMappingValue(m)
    case BlockSequenceFirstEntry => OnBlockSequenceEntry(m, true)
    case BlockSequenceEntry => OnBlockSequenceEntry(m, false)
    case FlowSequenceFirstEntry => OnFlowSequenceEntry(m, true)
    case FlowSequenceEntry => OnFlowSequenceEntry(m, false)
    case FlowMappingFirstKey => OnFlowMappingKey(m, true)
    case FlowMappingKey => OnFlowMappingKey(m, false)
    case FlowMappingValue => OnFlowMappingValue(m, false)
    case FlowMappingEmptyValue => OnFlowMappingValue(m, true)
    case IndentlessSequenceEntry => OnIndentlessSequenceEntry(m)
    case FlowSequenceEntryMappingKey => FlowPairKey(m)
    case FlowSequenceEntryMappingValue => FlowPairValue(m)
    case FlowSequenceEntryMappingEnd => FlowPairEnd(m)
    case End => Emit(Event.StreamEnd, m)
  }
}
