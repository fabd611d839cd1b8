// Where comments are found once a stream has been loaded (crates/yamluna-core/src/loader.rs).
module CommentHomes {
  import opened Results
  import opened ScalarEmitter
  import opened Events
  import opened Grammar
  import opened Arena
  import opened Trivia
  import opened LoaderSteps

  // ------------------------------------------------------------------ what is filed stays filed

  // Nothing a node holds is moved: slots only grow at their ends.
  predicate NodeGrows(a: LoaderSteps.Node, b: LoaderSteps.Node) {
    && a.line == b.line && a.col == b.col
    && a.trivia.before <= b.trivia.before && a.trivia.inner <= b.trivia.inner && a.trivia.after <= b.trivia.after
  }

  // A comment at the end of its line stays.
  predicate EolStays(a: LoaderSteps.Node, b: LoaderSteps.Node) {
    a.trivia.eol.Some? ==> b.trivia.eol == a.trivia.eol
  }

  // All nodes keep what they hold, but for the end-of-line comments of those in `lost`.
  predicate DocumentGrows(a: LoaderSteps.Document, b: LoaderSteps.Document, lost: set<nat>) {
    && |a.nodes| <= |b.nodes| && (forall i | 0 <= i < |a.nodes| :: NodeGrows(a.nodes[i], b.nodes[i]))
    && (forall i | 0 <= i < |a.nodes| && i !in lost :: EolStays(a.nodes[i], b.nodes[i]))
    && a.leading <= b.leading && a.trailing <= b.trailing
  }

  // The document of that number: a finished one, or the one at hand.
  function DocumentAt(s: LoaderSteps.State, d: nat): LoaderSteps.Document {
    if d < |s.docs| then s.docs[d] else if d == |s.docs| then s.doc else NoDocument
  }

  // A node, by its document and its id.
  datatype Place = Place(document: nat, node: nat)

  function NodesOf(lost: set<Place>, d: nat): set<nat> {
    set x | x in lost && x.document == d :: x.node
  }

  ghost predicate Grows(s: LoaderSteps.State, n: LoaderSteps.State, lost: set<Place>) {
    forall d: nat :: DocumentGrows(DocumentAt(s, d), DocumentAt(n, d), NodesOf(lost, d))
  }

  lemma GrowsTwice(a: LoaderSteps.State, b: LoaderSteps.State, c: LoaderSteps.State, lost: set<Place>, more: set<Place>)
    requires Grows(a, b, lost) && Grows(b, c, more)
    ensures Grows(a, c, lost + more)
  {
    forall d: nat ensures DocumentGrows(DocumentAt(a, d), DocumentAt(c, d), NodesOf(lost + more, d)) {
      assert NodesOf(lost + more, d) == NodesOf(lost, d) + NodesOf(more, d);
      TwoDocuments(DocumentAt(a, d), DocumentAt(b, d), DocumentAt(c, d), NodesOf(lost, d), NodesOf(more, d));
    }
  }

  lemma TwoDocuments(a: LoaderSteps.Document, b: LoaderSteps.Document, c: LoaderSteps.Document, lost: set<nat>, more: set<nat>)
    requires DocumentGrows(a, b, lost) && DocumentGrows(b, c, more)
    ensures DocumentGrows(a, c, lost + more)
  {
    forall i | 0 <= i < |a.nodes| ensures NodeGrows(a.nodes[i], c.nodes[i]) {
      assert NodeGrows(a.nodes[i], b.nodes[i]) && NodeGrows(b.nodes[i], c.nodes[i]);
    }
    forall i | 0 <= i < |a.nodes| && i !in lost + more ensures EolStays(a.nodes[i], c.nodes[i]) {
      assert EolStays(a.nodes[i], b.nodes[i]) && EolStays(b.nodes[i], c.nodes[i]);
    }
  }

  lemma Chained(a: LoaderSteps.Document, b: LoaderSteps.Document, c: LoaderSteps.Document)
    requires DocumentGrows(a, b, {}) && DocumentGrows(b, c, {})
    ensures DocumentGrows(a, c, {})
  {
    TwoDocuments(a, b, c, {}, {});
    var none: set<nat> := {};
    assert none + none == none;
  }

  // Only the document at hand has changed.
  lemma DocGrows(s: LoaderSteps.State, n: LoaderSteps.State)
    requires n.docs == s.docs && DocumentGrows(s.doc, n.doc, {})
    ensures Grows(s, n, {})
  {
    forall d: nat ensures DocumentGrows(DocumentAt(s, d), DocumentAt(n, d), NodesOf({}, d)) {
      Itself(DocumentAt(s, d));
    }
  }

  lemma Itself(d: LoaderSteps.Document)
    ensures DocumentGrows(d, d, {})
  {
  }

  // ------------------------------------------------------------------ the run in front of a node

  lemma SetGrows(s: LoaderSteps.State, id: nat, t: Slots)
    requires id < |s.doc.nodes|
    requires var o := s.doc.nodes[id].trivia;
             o.before <= t.before && o.inner <= t.inner && o.after <= t.after && (o.eol.Some? ==> t.eol == o.eol)
    ensures DocumentGrows(s.doc, TriviaSet(s, id, t).doc, {})
  {
  }

  lemma TailGrows(s: LoaderSteps.State, node: nat, run: seq<Trivium>)
    requires node < |s.doc.nodes|
    ensures DocumentGrows(s.doc, RestFiled(s, node, run).doc, {})
  {
    hide FirstEol, DocumentGrows;
    var t := s.doc.nodes[node].trivia;
    var k := FirstEol(run);
    if t.eol.None? && s.doc.nodes[node].BlockScalar() && k < |run| {
      SetGrows(s, node, t.(eol := Some(run[k]), before := t.before + (run[..k] + run[k + 1..])));
    } else {
      SetGrows(s, node, t.(before := t.before + run));
    }
  }

  lemma RunGrows(s: LoaderSteps.State, node: nat, run: seq<Trivium>)
    requires node < |s.doc.nodes| && (s.stack != [] ==> s.Top().frame.node < |s.doc.nodes|)
    ensures DocumentGrows(s.doc, RunFiled(s, node, run).doc, {})
  {
    hide FirstEol, DocumentGrows, RestFiled;
    if s.stack != [] && !s.Top().hasChild {
      var owner, k := s.Top().frame.node, FirstEol(run);
      var t := s.doc.nodes[owner].trivia;
      var m := TriviaSet(s, owner, t.(inner := t.inner + run[..k]));
      SetGrows(s, owner, t.(inner := t.inner + run[..k]));
      TailGrows(m, node, run[k..]);
      Chained(s.doc, m.doc, RestFiled(m, node, run[k..]).doc);
    } else {
      TailGrows(s, node, run);
    }
  }

  lemma BeforeGrows(s: LoaderSteps.State, node: nat, blankAbove: bool)
    requires node < |s.doc.nodes| && (s.stack != [] ==> s.Top().frame.node < |s.doc.nodes|)
    ensures DocumentGrows(s.doc, BeforeTaken(s, node, blankAbove).doc, {}) && BeforeTaken(s, node, blankAbove).docs == s.docs
  {
    hide DocumentGrows, RunFiled, SameBut, ToStart, ToEnd, TrailingCut, HeadBlanks;
    BeforeSame(s, node, blankAbove);
    SameDocs(s, BeforeTaken(s, node, blankAbove));
    Itself(s.doc);
    if s.pending != [] {
      if s.doc.nodes[node].BlockCollection() && s.stack != [] {
        var (a, lifted) := InsideTaken(s, node, blankAbove);
        InsideGrows(s, node, blankAbove);
        InsideSame(s, node, blankAbove);
        SameStack(s, a);
        if !(a.pending == [] && lifted == []) {
          RunGrows(a.(pending := []), node, lifted + a.pending);
          Chained(s.doc, a.doc, RunFiled(a.(pending := []), node, lifted + a.pending).doc);
        }
      } else {
        RunGrows(s.(pending := []), node, s.pending);
      }
    }
  }

  lemma SameDocs(s: LoaderSteps.State, n: LoaderSteps.State)
    requires SameBut(s, n)
    ensures n.docs == s.docs
  {
  }

  lemma InsideGrows(s: LoaderSteps.State, node: nat, blankAbove: bool)
    requires node < |s.doc.nodes| && s.stack != []
    ensures DocumentGrows(s.doc, InsideTaken(s, node, blankAbove).0.doc, {})
  {
    hide DocumentGrows, ToStart, ToEnd, TrailingCut, HeadBlanks;
    var t := s.doc.nodes[node].trivia;
    var a := InsideTaken(s, node, blankAbove).0;
    var more := a.doc.nodes[node].trivia.inner[|t.inner|..];
    assert a.doc.nodes[node].trivia == t.(inner := t.inner + more);
    SetGrows(s.(pending := a.pending), node, t.(inner := t.inner + more));
  }

  lemma AppendedGrows(s: LoaderSteps.State, bone: Bone, probe: Probe)
    ensures DocumentGrows(s.doc, NodeAppended(s, bone, probe).doc, {}) && NodeAppended(s, bone, probe).docs == s.docs
  {
  }

  lemma AddedGrows(s: LoaderSteps.State, bone: Bone, probe: Probe)
    requires s.Valid()
    ensures DocumentGrows(s.doc, NodeAdded(s, bone, probe).doc, {}) && NodeAdded(s, bone, probe).docs == s.docs
  {
    hide DocumentGrows, BeforeTaken;
    var a := NodeAppended(s, bone, probe);
    AppendedGrows(s, bone, probe);
    BeforeGrows(a, |s.doc.nodes|, probe.blankAbove);
    Chained(s.doc, a.doc, BeforeTaken(a, |s.doc.nodes|, probe.blankAbove).doc);
  }

  // ------------------------------------------------------------------ every event

  lemma NodeStepGrows(s: LoaderSteps.State, e: Event, probe: Probe)
    requires s.Full() && IsNodeEvent(e)
    ensures Grows(s, Stepped(s, e, probe, false), {}) && Stepped(s, e, probe, true) == Stepped(s, e, probe, false)
  {
    hide DocumentGrows, NodeAdded;
    var b := BlanksNoted(s, probe.blanks);
    BlanksKeep(s, probe.blanks, BlankLines(0));
    AddedGrows(b, BoneOf(e), probe);
    var n := NodeAdded(b, BoneOf(e), probe);
    SameNodes(n, PlacedIn(n, |s.doc.nodes|));
    Chained(s.doc, n.doc, Stepped(s, e, probe, false).doc);
    DocGrows(s, Stepped(s, e, probe, false));
  }

  lemma SameNodes(s: LoaderSteps.State, n: LoaderSteps.State)
    requires n.doc == s.doc.(root := n.doc.root)
    ensures DocumentGrows(s.doc, n.doc, {})
  {
  }

  lemma EndStepGrows(s: LoaderSteps.State, probe: Probe)
    requires s.Full() && s.stack != []
    ensures Grows(s, CollectionClosed(s, probe), {})
  {
    hide Filled, AfterCut, EndLine, StackFiled, BlankRuns;
    var f := s.Top();
    assert FrameLinked(f, s.doc.nodes);
    var n := CollectionClosed(s, probe);
    assert n.docs == s.docs;
    DocGrows(s, n);
  }

  // The key whose comment another takes the place of, if there is one.
  function Overwrites(s: LoaderSteps.State, i: LoaderSteps.Input): set<Place> {
    if MeetsComment(s, i) then {Place(|s.docs|, s.Top().frame.pendingKey.value)} else {}
  }

  lemma CommentStepGrows(s: LoaderSteps.State, text: string, probe: Probe)
    requires s.Valid()
    ensures Grows(s, CommentRead(s, text, probe), Overwrites(s, LoaderSteps.Input(Event.Comment(text), probe)))
  {
    var slot := SlotOf(s, probe.ownLine, probe.line, probe.beforeColon);
    SlotIsThere(s, probe.ownLine, probe.line, probe.beforeColon);
    var lost := Overwrites(s, LoaderSteps.Input(Event.Comment(text), probe));
    KeySlot(s, text, probe);
    hide SlotOf, MeetsComment, BlankRuns, Overwrites;
    var n := CommentRead(s, text, probe);
    if slot.Trailing? {
      TrailingGrows(s, n, Trivium.Comment(text, probe.ownLine, probe.col), lost);
    } else {
      assert n.docs == s.docs;
      var free := if slot.OfKey? && EolOf(s.doc, slot.id).Some? then {slot.id} else {};
      assert DocumentGrows(s.doc, n.doc, free);
      forall d: nat ensures DocumentGrows(DocumentAt(s, d), DocumentAt(n, d), NodesOf(lost, d)) {
        if d == |s.docs| && free != {} {
          assert Place(d, slot.id) in lost && slot.id in NodesOf(lost, d);
        } else {
          Itself(DocumentAt(s, d));
        }
      }
    }
  }

  lemma KeySlot(s: LoaderSteps.State, text: string, probe: Probe)
    requires s.Valid()
    ensures var slot := SlotOf(s, probe.ownLine, probe.line, probe.beforeColon);
            slot.OfKey? && EolOf(s.doc, slot.id).Some? ==>
              Overwrites(s, LoaderSteps.Input(Event.Comment(text), probe)) == {Place(|s.docs|, slot.id)}
  {
  }

  lemma TrailingGrows(s: LoaderSteps.State, n: LoaderSteps.State, t: Trivium, lost: set<Place>)
    requires s.docs != [] && n.doc == s.doc
    requires var k := |s.docs| - 1; n.docs == s.docs[k := s.docs[k].(trailing := s.docs[k].trailing + [t])]
    ensures Grows(s, n, lost)
  {
    forall d: nat ensures DocumentGrows(DocumentAt(s, d), DocumentAt(n, d), NodesOf(lost, d)) {
    }
  }

  // What happens at the bounds of documents and streams.
  lemma BoundaryGrows(s: LoaderSteps.State, e: Event, probe: Probe, region: bool)
    requires s.Valid() && (e.DocumentStart? || e.StreamEnd? ==> s.doc == NoDocument)
    requires e.StreamStart? || e.DocumentStart? || e.DocumentEnd? || e.StreamEnd?
    ensures Grows(s, Stepped(s, e, probe, region), {})
  {
    var n := Stepped(s, e, probe, region);
    forall d: nat ensures DocumentGrows(DocumentAt(s, d), DocumentAt(n, d), NodesOf({}, d)) {
      match e {
        case StreamStart =>
        case DocumentStart(_) =>
        case DocumentEnd =>
        case StreamEnd => StreamEndGrows(s, probe, region, d);
      }
    }
  }

  lemma StreamEndGrows(s: LoaderSteps.State, probe: Probe, region: bool, d: nat)
    requires s.doc == NoDocument
    ensures DocumentGrows(DocumentAt(s, d), DocumentAt(StreamEnded(s, probe, region), d), {})
  {
    hide BlankRuns;
  }

  // No event of a stream moves what is filed, but for comments that take a key's place.
  lemma StepGrows(s: LoaderSteps.State, phase: Phase, commentLine: nat, i: LoaderSteps.Input, region: bool)
    requires Ready(s, phase, commentLine)
    requires !i.event.Comment? ==> Advance(Owes(s.Shape(), phase), i.event).Some?
    ensures Grows(s, Stepped(s, i.event, i.probe, region), Overwrites(s, i))
  {
    hide Owes, Advance, Sound, CommentRead, CollectionClosed, LeafRead, CollectionOpened, Grows, AwaitsValue;
    var e := i.event;
    if e.Comment? {
      CommentStepGrows(s, e.text, i.probe);
    } else {
      assert Overwrites(s, i) == {};
      FedPays(s.Shape(), phase, e, region);
      if IsNodeEvent(e) {
        NodeStepGrows(s, e, i.probe);
      } else if e.SequenceEnd? || e.MappingEnd? {
        NothingDeferred(s, phase, commentLine, e);
        EndStepGrows(s, i.probe);
      } else {
        BoundaryGrows(s, e, i.probe, region);
      }
    }
  }

  // The keys of which comments are written over in the rest of a stream.
  function AllOverwrites(s: LoaderSteps.State, input: seq<LoaderSteps.Input>, region: bool): set<Place>
    decreases |input|
  {
    if input == [] then {}
    else Overwrites(s, input[0]) + AllOverwrites(Stepped(s, input[0].event, input[0].probe, region), input[1..], region)
  }

  // The rest of a stream is as the grammar of events has it.
  ghost predicate Rest(s: LoaderSteps.State, phase: Phase, commentLine: nat, input: seq<LoaderSteps.Input>) {
    && Ready(s, phase, commentLine) && LinesRise(input, commentLine)
    && AdvanceAll(Owes(s.Shape(), phase), Structural(EventsOf(input))) == Some([])
  }

  // What one event leaves of a stream is again the rest of one.
  lemma RestNext(s: LoaderSteps.State, phase: Phase, commentLine: nat, input: seq<LoaderSteps.Input>, region: bool)
    requires input != [] && Rest(s, phase, commentLine, input)
    ensures var e, probe := input[0].event, input[0].probe;
            && (!e.Comment? ==> Advance(Owes(s.Shape(), phase), e).Some?)
            && Rest(Stepped(s, e, probe, region), PhaseAfter(phase, e), if e.Comment? then probe.line else commentLine, input[1..])
  {
    hide Ready, Sound, Owes, Advance, Fed, Structural, EventsOf, Brought, Stepped, LostTo, FedAll, Count;
    var e, probe := input[0].event, input[0].probe;
    FirstEvent(Owes(s.Shape(), phase), s.Shape(), input, region);
    EveryEventTakes(s, phase, commentLine, e, probe, region, BlankLines(0));
    CommentFed(s.Shape(), e, region);
    ReadySound(s, phase, commentLine);
    if !e.Comment? {
      FedPays(s.Shape(), phase, e, region);
    }
  }

  lemma {:induction false} RestGrows(s: LoaderSteps.State, phase: Phase, commentLine: nat, input: seq<LoaderSteps.Input>, region: bool)
    requires Rest(s, phase, commentLine, input)
    ensures Grows(s, StateAfter(s, input, region), AllOverwrites(s, input, region))
    decreases |input|
  {
    hide Rest, Stepped, Overwrites, Grows;
    if input == [] {
      DocGrows(s, s) by { Itself(s.doc); }
    } else {
      var n := Stepped(s, input[0].event, input[0].probe, region);
      RestNext(s, phase, commentLine, input, region);
      RestGrows(n, PhaseAfter(phase, input[0].event), if input[0].event.Comment? then input[0].probe.line else commentLine,
                input[1..], region);
      RestReady(s, phase, commentLine, input);
      StepGrows(s, phase, commentLine, input[0], region);
      GrowsTwice(s, n, StateAfter(n, input[1..], region), Overwrites(s, input[0]), AllOverwrites(n, input[1..], region));
    }
  }

  lemma RestReady(s: LoaderSteps.State, phase: Phase, commentLine: nat, input: seq<LoaderSteps.Input>)
    requires Rest(s, phase, commentLine, input)
    ensures Ready(s, phase, commentLine)
  {
  }

  // ------------------------------------------------------------------ where nodes stand

  // What the events alone tell: the trees, and for each node of the document at hand the line and the column it
  // starts at and the line it ends on.
  datatype Places = Places(shape: Shape, starts: seq<nat>, cols: seq<nat>, ends: seq<nat>)

  // The last child of an open collection.
  function LastKid(f: Frame): Option<nat> {
    if f.pendingKey.Some? then f.pendingKey
    else if f.entries != [] then Some(f.entries[|f.entries| - 1].value)
    else if f.items != [] then Some(f.items[|f.items| - 1])
    else None
  }

  predicate IsFlow(b: Bone) {
    match b.kind
    case Sequence(structure, _) => structure.Flow?
    case Mapping(structure, _) => structure.Flow?
    case _ => false
  }

  // The node that was finished last where the stream stands: a child of the innermost collection, or the root.
  function LastDone(p: Places): Option<nat> {
    if p.shape.stack == [] then p.shape.tree.root else LastKid(Arena.Top(p.shape))
  }

  // Brackets end where they close, a block collection where its last child does.
  function EndOf(p: Places, f: Frame, line: nat): nat {
    var last := LastKid(f);
    if last.None? || last.value >= |p.ends| || f.node >= |p.shape.tree.bones| || IsFlow(p.shape.tree.bones[f.node]) then line
    else p.ends[last.value]
  }

  function Placing(p: Places, i: LoaderSteps.Input, region: bool): Places {
    var e, probe := i.event, i.probe;
    var q := p.(shape := Fed(p.shape, e, region));
    if IsNodeEvent(e) then
      q.(starts := p.starts + [probe.line], cols := p.cols + [probe.col], ends := p.ends + [probe.endLine])
    else if e.DocumentStart? then q.(starts := [], cols := [], ends := [])
    else if (e.SequenceEnd? || e.MappingEnd?) && p.shape.stack != [] && Arena.Top(p.shape).node < |p.ends| then
      q.(ends := p.ends[Arena.Top(p.shape).node := EndOf(p, Arena.Top(p.shape), probe.line)])
    else q
  }

  function PlacesAfter(p: Places, input: seq<LoaderSteps.Input>, region: bool): Places
    decreases |input|
  {
    if input == [] then p else PlacesAfter(Placing(p, input[0], region), input[1..], region)
  }

  const Nowhere := Places(Empty, [], [], [])

  // The loader's frames say what the events do.
  predicate FrameTells(f: OpenFrame, d: LoaderSteps.Document, cols: seq<nat>) {
    && f.frame.node < |d.nodes| && f.frame.node < |cols|
    && (f.flow <==> IsFlow(d.nodes[f.frame.node].bone)) && f.col == cols[f.frame.node]
    && (f.hasChild <==> LastKid(f.frame).Some?)
  }

  predicate NodeTells(n: LoaderSteps.Node, line: nat, col: nat) {
    n.line == line && n.col == col
  }

  ghost predicate Tells(s: LoaderSteps.State, p: Places) {
    && s.Shape() == p.shape
    && |s.doc.nodes| <= |p.starts| == |p.cols| == |p.ends| && (forall i | 0 <= i < |s.doc.nodes| :: NodeTells(s.doc.nodes[i], p.starts[i], p.cols[i]))
    && s.ends == p.ends
    && (forall i | 0 <= i < |s.stack| :: FrameTells(s.stack[i], s.doc, p.cols))
    && (s.stack != [] && LastKid(s.Top().frame).Some? ==> s.lastNode == LastKid(s.Top().frame))
    && (s.stack == [] && s.doc.root.Some? ==> s.lastNode == s.doc.root)
  }

  lemma TellsBegin()
    ensures Tells(Begin, Nowhere)
  {
    assert Bones([]) == [] && FramesOf([]) == [] && TreesOf([]) == [];
  }

  // ------------------------------------------------------------------ the loader tells the same

  // Only trivia, the run that waits and such have changed.
  predicate SameForm(s: LoaderSteps.State, n: LoaderSteps.State) {
    && n.stack == s.stack && n.ends == s.ends && n.lastNode == s.lastNode && n.doc.root == s.doc.root
    && |n.doc.nodes| == |s.doc.nodes|
    && forall i | 0 <= i < |s.doc.nodes| ::
         && n.doc.nodes[i].bone == s.doc.nodes[i].bone && n.doc.nodes[i].line == s.doc.nodes[i].line
         && n.doc.nodes[i].col == s.doc.nodes[i].col
  }

  lemma FormTells(s: LoaderSteps.State, n: LoaderSteps.State, p: Places)
    requires Tells(s, p) && SameForm(s, n) && n.Shape() == s.Shape()
    ensures Tells(n, p)
  {
    forall i | 0 <= i < |n.doc.nodes| ensures NodeTells(n.doc.nodes[i], p.starts[i], p.cols[i]) {
      assert NodeTells(s.doc.nodes[i], p.starts[i], p.cols[i]);
    }
    forall i | 0 <= i < |n.stack| ensures FrameTells(n.stack[i], n.doc, p.cols) {
      assert FrameTells(s.stack[i], s.doc, p.cols);
    }
  }

  lemma CommentForm(s: LoaderSteps.State, text: string, probe: Probe)
    requires s.Valid()
    ensures SameForm(s, CommentRead(s, text, probe))
  {
    hide SlotOf, BlankRuns;
  }

  // The node of an event is there, and nothing else has changed but trivia.
  lemma AddedForm(s: LoaderSteps.State, bone: Bone, probe: Probe)
    requires s.Full()
    ensures var n, id := NodeAdded(s, bone, probe), |s.doc.nodes|;
            && |n.doc.nodes| == id + 1 && n.ends == s.ends + [probe.endLine] && n.stack == s.stack && n.lastNode == s.lastNode
            && n.doc.root == s.doc.root && n.doc.nodes[id].bone == bone && NodeTells(n.doc.nodes[id], probe.line, probe.col)
            && forall i | 0 <= i < id ::
                 && n.doc.nodes[i].bone == s.doc.nodes[i].bone && n.doc.nodes[i].line == s.doc.nodes[i].line
                 && n.doc.nodes[i].col == s.doc.nodes[i].col
  {
    hide BeforeTaken;
    var a := NodeAppended(s, bone, probe);
    BeforeSame(a, |s.doc.nodes|, probe.blankAbove);
    var n := BeforeTaken(a, |s.doc.nodes|, probe.blankAbove);
    forall i | 0 <= i < |a.doc.nodes|
      ensures n.doc.nodes[i].bone == a.doc.nodes[i].bone && n.doc.nodes[i].line == a.doc.nodes[i].line
           && n.doc.nodes[i].col == a.doc.nodes[i].col
    {
      assert n.doc.nodes[i] == a.doc.nodes[i].(trivia := n.doc.nodes[i].trivia);
    }
  }

  lemma KidFiled(f: Frame, isSeq: bool, id: nat)
    requires f.pendingKey.Some? ==> !isSeq
    requires isSeq ==> f.entries == []
    ensures LastKid(Arena.Filed(f, isSeq, id)) == Some(id)
  {
  }

  // What a frame has is of one kind.
  predicate OneKind(f: OpenFrame) {
    (f.isSeq ==> f.frame.entries == [] && f.frame.pendingKey.None?) && (!f.isSeq ==> f.frame.items == [])
  }

  ghost predicate Kinds(s: LoaderSteps.State) {
    forall i | 0 <= i < |s.stack| :: OneKind(s.stack[i])
  }

  // A finished node is filed.
  lemma PlacedTells(s: LoaderSteps.State, p: Places, id: nat)
    requires id < |s.doc.nodes| && Kinds(s) && s.Shape() == p.shape && PlacedIn(s, id).Shape() == Arena.Placed(s.Shape(), id)
    requires |s.doc.nodes| <= |p.starts| == |p.cols| == |p.ends| && s.ends == p.ends
    requires forall i | 0 <= i < |s.doc.nodes| :: NodeTells(s.doc.nodes[i], p.starts[i], p.cols[i])
    requires forall i | 0 <= i < |s.stack| :: FrameTells(s.stack[i], s.doc, p.cols)
    ensures Tells(PlacedIn(s, id), p.(shape := Arena.Placed(p.shape, id))) && Kinds(PlacedIn(s, id))
  {
    hide Arena.Placed, State.Shape, LastKid;
    var n := PlacedIn(s, id);
    if s.stack != [] {
      var k := |s.stack| - 1;
      var f := s.stack[k];
      assert OneKind(f) && FrameTells(f, s.doc, p.cols);
      KidFiled(f.frame, f.isSeq, id);
      forall i | 0 <= i < |n.stack| ensures FrameTells(n.stack[i], n.doc, p.cols) && OneKind(n.stack[i]) {
        assert FrameTells(s.stack[i], s.doc, p.cols) && OneKind(s.stack[i]);
      }
    }
    forall i | 0 <= i < |n.doc.nodes| ensures NodeTells(n.doc.nodes[i], p.starts[i], p.cols[i]) {
      assert NodeTells(s.doc.nodes[i], p.starts[i], p.cols[i]);
    }
  }

  // A node's place is known.
  lemma AddedTells(s: LoaderSteps.State, p: Places, e: Event, probe: Probe)
    requires s.Full() && Tells(s, p) && IsNodeEvent(e)
    ensures var n := NodeAdded(BlanksNoted(s, probe.blanks), BoneOf(e), probe);
            var starts, cols := p.starts + [probe.line], p.cols + [probe.col];
            && |n.doc.nodes| == |starts| == |cols| == |s.doc.nodes| + 1 && n.ends == p.ends + [probe.endLine]
            && n.stack == s.stack && n.lastNode == s.lastNode && n.doc.root == s.doc.root
            && n.doc.nodes[|s.doc.nodes|].bone == BoneOf(e)
            && (forall i | 0 <= i < |n.doc.nodes| :: NodeTells(n.doc.nodes[i], starts[i], cols[i]))
            && (forall i | 0 <= i < |n.stack| :: FrameTells(n.stack[i], n.doc, cols))
  {
    hide NodeAdded, BoneOf, BlankRuns, State.Shape, LastKid;
    var b := BlanksNoted(s, probe.blanks);
    BlanksKeep(s, probe.blanks, BlankLines(0));
    AddedForm(b, BoneOf(e), probe);
    var n := NodeAdded(b, BoneOf(e), probe);
    forall i | 0 <= i < |n.doc.nodes| ensures NodeTells(n.doc.nodes[i], (p.starts + [probe.line])[i], (p.cols + [probe.col])[i]) {
      if i < |s.doc.nodes| { assert NodeTells(s.doc.nodes[i], p.starts[i], p.cols[i]); }
    }
    forall i | 0 <= i < |n.stack| ensures FrameTells(n.stack[i], n.doc, p.cols + [probe.col]) {
      assert FrameTells(s.stack[i], s.doc, p.cols);
    }
  }

  // ------------------------------------------------------------------ event by event

  // What is known of the loader between two events.
  ghost predicate Knows(s: LoaderSteps.State, p: Places) {
    Tells(s, p) && Kinds(s)
  }

  lemma LeafKnows(s: LoaderSteps.State, p: Places, e: Event, probe: Probe, region: bool)
    requires s.Full() && Knows(s, p) && (e.Scalar? || e.Alias?)
    ensures Knows(LeafRead(s, e, probe), Placing(p, LoaderSteps.Input(e, probe), region))
  {
    hide NodeAdded, BoneOf, BlankRuns, State.Shape, LastKid, Arena.Placed, PlacedIn, Tells;
    var b := BlanksNoted(s, probe.blanks);
    BlanksKeep(s, probe.blanks, BlankLines(0));
    NodeAddedIs(b, BoneOf(e), probe, BlankLines(0));
    var n := NodeAdded(b, BoneOf(e), probe);
    PlacedIs(n, |s.doc.nodes|, BlankLines(0));
    ShapeOf(s, p);
    AddedTells(s, p, e, probe);
    var q := Places(Grown(p.shape, BoneOf(e)), p.starts + [probe.line], p.cols + [probe.col], p.ends + [probe.endLine]);
    TellsSizes(s, p);
    PlacedTells(n, q, |s.doc.nodes|);
  }

  lemma ShapeOf(s: LoaderSteps.State, p: Places)
    requires Tells(s, p)
    ensures s.Shape() == p.shape
  {
  }

  lemma TellsSizes(s: LoaderSteps.State, p: Places)
    requires Tells(s, p)
    ensures |p.starts| == |p.cols| == |p.ends| && s.ends == p.ends && |p.shape.tree.bones| == |s.doc.nodes|
  {
  }

  lemma OpenKnows(s: LoaderSteps.State, p: Places, e: Event, probe: Probe, region: bool)
    requires s.Full() && Knows(s, p) && (e.SequenceStart? || e.MappingStart?)
    ensures Knows(CollectionOpened(s, e, probe), Placing(p, LoaderSteps.Input(e, probe), region))
  {
    hide NodeAdded, BlankRuns, State.Shape, State.Held, State.Valid, Count;
    var n := CollectionOpened(s, e, probe);
    OpenedIs(s, e, probe, BlankLines(0));
    ShapeOf(s, p);
    AddedTells(s, p, e, probe);
    var q := Placing(p, LoaderSteps.Input(e, probe), region);
    NodeFed(s.Shape(), e, region);
    TellsSizes(s, p);
    FlowIs(e);
    var id := |s.doc.nodes|;
    var f := OpenFrame(Frame(id, [], [], None), e.SequenceStart?, e.structure.Flow?, probe.col, false);
    assert n.stack == s.stack + [f] && q.cols[id] == probe.col;
    forall i | 0 <= i < |n.stack| ensures FrameTells(n.stack[i], n.doc, q.cols) && OneKind(n.stack[i]) {
      if i < |s.stack| {
        assert OneKind(s.stack[i]);
      }
    }
  }

  lemma FlowIs(e: Event)
    requires e.SequenceStart? || e.MappingStart?
    ensures IsFlow(BoneOf(e)) <==> e.structure.Flow?
  {
  }

  lemma FilledFlow(b: Bone, f: Frame)
    ensures IsFlow(Filled(b, f)) <==> IsFlow(b)
  {
  }

  // A closing collection leaves the stack and is filed below.
  lemma EndKnows(s: LoaderSteps.State, p: Places, e: Event, probe: Probe, region: bool)
    requires s.Full() && Knows(s, p) && s.stack != [] && (e.SequenceEnd? || e.MappingEnd?) && s.Top().frame.pendingKey.None?
    requires s.Top().isSeq || s.doc.nodes[s.Top().frame.node].bone.kind.Mapping?
    ensures Knows(CollectionClosed(s, probe), Placing(p, LoaderSteps.Input(e, probe), region))
  {
    hide BlankRuns, State.Shape, State.Held, Count, AfterCut, Filled, StackFiled, DocumentsCount, Arena.Placed, FrameLinked, EndLine, EndOf,
         Finished, PlacedIn;
    var f := s.Top();
    var b := BlanksNoted(s, probe.blanks);
    BlanksKeep(s, probe.blanks, BlankLines(0));
    var cut := AfterCut(b.pending, f, |s.stack| == 1);
    var ends := s.ends[f.frame.node := EndLine(f, s.ends, probe.line)];
    FramePopped(b, ends);
    var popped := b.(stack := s.stack[..|s.stack| - 1], ends := ends, pending := b.pending[cut..]);
    PendingShape(b.(stack := s.stack[..|s.stack| - 1], ends := ends), b.pending[cut..]);
    FinishedIs(popped, f, b.pending[..cut], BlankLines(0));
    var n := Finished(popped, f, b.pending[..cut]);
    FinishedTells(s, p, popped, f, b.pending[..cut]);
    PlacedIs(n, f.frame.node, BlankLines(0));
    EndsAgree(s, p, probe.line);
    ShapeOf(s, p);
    TellsSizes(s, p);
    BoneThere(s, f.frame.node);
    ShapePopped(s, p, e, probe, region, n);
    var q := Placing(p, LoaderSteps.Input(e, probe), region);
    PlacedTells(n, Places(n.Shape(), p.starts, p.cols, ends), f.frame.node);
  }

  lemma PendingShape(s: LoaderSteps.State, p: seq<Trivium>)
    ensures s.(pending := p).Shape() == s.Shape()
  {
  }

  lemma BoneThere(s: LoaderSteps.State, id: nat)
    requires id < |s.doc.nodes|
    ensures id < |s.Shape().tree.bones| && s.Shape().tree.bones[id] == s.doc.nodes[id].bone
    ensures s.Shape().done == TreesOf(s.docs) && s.Shape().stack == FramesOf(s.stack)
  {
  }

  lemma EndsAgree(s: LoaderSteps.State, p: Places, line: nat)
    requires Tells(s, p) && Kinds(s) && s.stack != [] && s.Top().frame.pendingKey.None? && s.Full()
    ensures EndLine(s.Top(), s.ends, line) == EndOf(p, s.Top().frame, line)
    ensures p.shape.stack != [] && Arena.Top(p.shape) == s.Top().frame && s.Top().frame.node < |p.ends|
  {
    assert OneKind(s.Top()) && FrameTells(s.Top(), s.doc, p.cols);
    assert s.Shape().stack[|s.stack| - 1] == s.Top().frame;
  }

  lemma ShapePopped(s: LoaderSteps.State, p: Places, e: Event, probe: Probe, region: bool, n: LoaderSteps.State)
    requires s.Full() && s.stack != [] && (e.SequenceEnd? || e.MappingEnd?) && s.Shape() == p.shape
    requires p.shape.stack != [] && Arena.Top(p.shape) == s.Top().frame && s.Top().frame.node < |p.ends|
    requires EndLine(s.Top(), s.ends, probe.line) == EndOf(p, s.Top().frame, probe.line) && s.ends == p.ends
    requires var f := s.Top().frame;
             n.Shape() == Arena.Shape(p.shape.tree.(bones := p.shape.tree.bones[f.node := Filled(p.shape.tree.bones[f.node], f)]),
                                      p.shape.stack[..|s.stack| - 1], p.shape.done)
    requires s.Top().frame.node < |p.shape.tree.bones|
    ensures Placing(p, LoaderSteps.Input(e, probe), region)
         == Places(Arena.Placed(n.Shape(), s.Top().frame.node), p.starts, p.cols,
                   s.ends[s.Top().frame.node := EndLine(s.Top(), s.ends, probe.line)])
  {
    hide Filled, EndOf, EndLine, Arena.Placed;
    assert |p.shape.stack| == |s.stack|;
  }

  lemma FinishedTells(s: LoaderSteps.State, p: Places, popped: LoaderSteps.State, f: OpenFrame, after: seq<Trivium>)
    requires Knows(s, p) && s.stack != [] && f == s.Top() && f.frame.node < |s.doc.nodes|
    requires popped.doc == s.doc && popped.stack == s.stack[..|s.stack| - 1]
    ensures var n := Finished(popped, f, after);
            && Kinds(n) && |n.doc.nodes| == |s.doc.nodes| && n.stack == popped.stack && n.ends == popped.ends
            && (forall i | 0 <= i < |n.doc.nodes| :: NodeTells(n.doc.nodes[i], p.starts[i], p.cols[i]))
            && (forall i | 0 <= i < |n.stack| :: FrameTells(n.stack[i], n.doc, p.cols))
  {
    hide Filled, LastKid;
    var n := Finished(popped, f, after);
    FilledFlow(s.doc.nodes[f.frame.node].bone, f.frame);
    forall i | 0 <= i < |n.doc.nodes| ensures NodeTells(n.doc.nodes[i], p.starts[i], p.cols[i]) {
      assert NodeTells(s.doc.nodes[i], p.starts[i], p.cols[i]);
    }
    forall i | 0 <= i < |n.stack| ensures FrameTells(n.stack[i], n.doc, p.cols) && OneKind(n.stack[i]) {
      assert FrameTells(s.stack[i], s.doc, p.cols) && OneKind(s.stack[i]);
    }
  }

  lemma BoundaryKnows(s: LoaderSteps.State, p: Places, i: LoaderSteps.Input, region: bool)
    requires s.Valid() && Knows(s, p) && s.Shape() == p.shape
    requires i.event.StreamStart? || i.event.DocumentStart? || i.event.DocumentEnd? || i.event.StreamEnd?
    requires s.stack == [] && (i.event.DocumentStart? || i.event.StreamEnd? ==> s.doc == NoDocument)
    requires Stepped(s, i.event, i.probe, region).Shape() == Fed(p.shape, i.event, region)
    ensures Knows(Stepped(s, i.event, i.probe, region), Placing(p, i, region))
  {
    hide State.Shape, BlankRuns;
  }

  // Event by event the loader keeps to what the events tell.
  lemma StepKnows(s: LoaderSteps.State, phase: Phase, commentLine: nat, p: Places, i: LoaderSteps.Input, region: bool)
    requires Ready(s, phase, commentLine) && Knows(s, p)
    requires if i.event.Comment? then i.probe.line > commentLine else Advance(Owes(s.Shape(), phase), i.event).Some?
    ensures Knows(Stepped(s, i.event, i.probe, region), Placing(p, i, region))
  {
    hide Owes, Advance, Sound, CommentRead, CollectionClosed, LeafRead, CollectionOpened, Knows, State.Shape, Fed, Placing;
    var e, probe := i.event, i.probe;
    EveryEventTakes(s, phase, commentLine, e, probe, region, BlankLines(0));
    KnowsShape(s, p);
    if e.Comment? {
      CommentFed(s.Shape(), e, region);
      CommentKnows(s, p, i, region);
    } else {
      FedPays(s.Shape(), phase, e, region);
      if e.Scalar? || e.Alias? {
        LeafKnows(s, p, e, probe, region);
      } else if IsNodeEvent(e) {
        OpenKnows(s, p, e, probe, region);
      } else if e.SequenceEnd? || e.MappingEnd? {
        NothingDeferred(s, phase, commentLine, e);
        NoKeyLeft(s, phase, p, e);
        EndKnows(s, p, e, probe, region);
      } else {
        AtBoundary(s, phase, commentLine, e);
        BoundaryKnows(s, p, i, region);
      }
    }
  }

  lemma KnowsShape(s: LoaderSteps.State, p: Places)
    requires Knows(s, p)
    ensures s.Shape() == p.shape
  {
  }

  lemma CommentKnows(s: LoaderSteps.State, p: Places, i: LoaderSteps.Input, region: bool)
    requires s.Valid() && Knows(s, p) && i.event.Comment? && Stepped(s, i.event, i.probe, region).Shape() == s.Shape()
    ensures Knows(Stepped(s, i.event, i.probe, region), Placing(p, i, region))
  {
    hide CommentRead, State.Shape;
    var n := CommentRead(s, i.event.text, i.probe);
    CommentForm(s, i.event.text, i.probe);
    FormTells(s, n, p);
    CommentFed(p.shape, i.event, region);
    hide Fed, Tells;
  }

  lemma NoKeyLeft(s: LoaderSteps.State, phase: Phase, p: Places, e: Event)
    requires Knows(s, p) && Sound(s.Shape(), phase) && phase.Inside? && s.stack != [] && (e.SequenceEnd? || e.MappingEnd?)
    requires Advance(Owes(s.Shape(), phase), e).Some? && s.Top().isSeq == e.SequenceEnd?
    ensures s.Top().frame.pendingKey.None?
  {
    ValueGiven(s.Shape(), e);
    assert s.Shape().stack[|s.stack| - 1] == s.Top().frame;
    assert OneKind(s.Top());
  }

  lemma AtBoundary(s: LoaderSteps.State, phase: Phase, commentLine: nat, e: Event)
    requires Ready(s, phase, commentLine) && Advance(Owes(s.Shape(), phase), e).Some?
    requires e.StreamStart? || e.DocumentStart? || e.DocumentEnd? || e.StreamEnd?
    ensures s.stack == [] && (e.DocumentStart? || e.StreamEnd? ==> s.doc == NoDocument)
  {
    FedPays(s.Shape(), phase, e, false);
    assert s.Shape().stack == FramesOf(s.stack);
  }

  // ------------------------------------------------------------------ ids

  // The children of a frame come behind it, and in front of the next frame.
  predicate KidBetween(f: OpenFrame, next: nat) {
    LastKid(f.frame).Some? ==> f.frame.node < LastKid(f.frame).value < next
  }

  // The node of the frame above, or the one that comes next.
  function NodeAbove(s: LoaderSteps.State, i: nat): nat {
    if i + 1 < |s.stack| then s.stack[i + 1].frame.node else |s.doc.nodes|
  }

  ghost predicate Ordered(s: LoaderSteps.State) {
    forall i | 0 <= i < |s.stack| :: KidBetween(s.stack[i], NodeAbove(s, i))
  }

  lemma FiledOrdered(s: LoaderSteps.State, n: LoaderSteps.State, id: nat)
    requires Kinds(s) && n.stack == StackFiled(s.stack, id) && id < |n.doc.nodes| && (s.stack != [] ==> s.Top().frame.node < id)
    requires forall i | 0 <= i < |s.stack| - 1 :: KidBetween(s.stack[i], s.stack[i + 1].frame.node)
    ensures Ordered(n)
  {
    hide LastKid, Arena.Filed;
    if s.stack != [] {
      var k := |s.stack| - 1;
      var f := s.stack[k];
      assert OneKind(f);
      KidFiled(f.frame, f.isSeq, id);
      FiledNode(f.frame, f.isSeq, id);
      forall i | 0 <= i < |n.stack|
        ensures KidBetween(n.stack[i], NodeAbove(n, i))
      {
        assert i < k ==> n.stack[i] == s.stack[i];
        assert i + 1 < |n.stack| ==> n.stack[i + 1].frame.node == s.stack[i + 1].frame.node;
      }
    }
  }

  lemma LeafOrdered(s: LoaderSteps.State, e: Event, probe: Probe)
    requires s.Full() && Kinds(s) && Ordered(s) && (e.Scalar? || e.Alias?)
    ensures Ordered(LeafRead(s, e, probe))
  {
    hide NodeAdded, BoneOf, BlankRuns, LastKid;
    var b := BlanksNoted(s, probe.blanks);
    BlanksKeep(s, probe.blanks, BlankLines(0));
    AddedForm(b, BoneOf(e), probe);
    if s.stack != [] {
      assert FrameLinked(s.Top(), s.doc.nodes);
      hide FrameLinked;
      forall i | 0 <= i < |s.stack| - 1 ensures KidBetween(s.stack[i], s.stack[i + 1].frame.node) {
        assert KidBetween(s.stack[i], NodeAbove(s, i));
      }
      FiledOrdered(s, LeafRead(s, e, probe), |s.doc.nodes|);
    }
  }

  lemma OpenOrdered(s: LoaderSteps.State, e: Event, probe: Probe)
    requires s.Full() && Ordered(s) && (e.SequenceStart? || e.MappingStart?)
    ensures Ordered(CollectionOpened(s, e, probe))
  {
    hide NodeAdded, BoneOf, BlankRuns;
    var b := BlanksNoted(s, probe.blanks);
    BlanksKeep(s, probe.blanks, BlankLines(0));
    AddedForm(b, BoneOf(e), probe);
    var n := CollectionOpened(s, e, probe);
    forall i | 0 <= i < |n.stack|
      ensures KidBetween(n.stack[i], NodeAbove(n, i))
    {
      if i < |s.stack| {
        assert KidBetween(s.stack[i], NodeAbove(s, i));
      }
    }
  }

  lemma EndOrdered(s: LoaderSteps.State, probe: Probe)
    requires s.Full() && Kinds(s) && Ordered(s) && s.stack != []
    ensures Ordered(CollectionClosed(s, probe))
  {
    hide BlankRuns, AfterCut, Filled, EndLine, LastKid, Arena.Filed;
    var f := s.Top();
    assert FrameLinked(f, s.doc.nodes);
    var n := CollectionClosed(s, probe);
    var popped := s.(stack := s.stack[..|s.stack| - 1]);
    if popped.stack != [] {
      assert n.stack == StackFiled(popped.stack, f.frame.node);
      assert popped.Top().frame.node < f.frame.node;
      forall i | 0 <= i < |popped.stack| - 1 ensures KidBetween(popped.stack[i], popped.stack[i + 1].frame.node) {
        assert KidBetween(s.stack[i], NodeAbove(s, i));
      }
      FiledOrdered(popped, n, f.frame.node);
    }
  }

  lemma StepOrdered(s: LoaderSteps.State, phase: Phase, commentLine: nat, p: Places, i: LoaderSteps.Input, region: bool)
    requires Ready(s, phase, commentLine) && Knows(s, p) && Ordered(s)
    requires !i.event.Comment? ==> Advance(Owes(s.Shape(), phase), i.event).Some?
    ensures Ordered(Stepped(s, i.event, i.probe, region))
  {
    hide Owes, Advance, Sound, CollectionClosed, LeafRead, CollectionOpened, State.Shape, Fed, Ordered, Tells;
    var e, probe := i.event, i.probe;
    if e.Comment? {
      CommentForm(s, e.text, probe);
      FormOrdered(s, CommentRead(s, e.text, probe));
    } else {
      FedPays(s.Shape(), phase, e, region);
      if e.Scalar? || e.Alias? {
        LeafOrdered(s, e, probe);
      } else if IsNodeEvent(e) {
        OpenOrdered(s, e, probe);
      } else if e.SequenceEnd? || e.MappingEnd? {
        NothingDeferred(s, phase, commentLine, e);
        EndOrdered(s, probe);
      } else {
        AtBoundary(s, phase, commentLine, e);
        NoFrames(Stepped(s, e, probe, region));
      }
    }
  }

  lemma FormOrdered(s: LoaderSteps.State, n: LoaderSteps.State)
    requires Ordered(s) && SameForm(s, n)
    ensures Ordered(n)
  {
    forall i | 0 <= i < |n.stack|
      ensures KidBetween(n.stack[i], NodeAbove(n, i))
    {
      assert KidBetween(s.stack[i], NodeAbove(s, i));
    }
  }

  lemma NoFrames(s: LoaderSteps.State)
    ensures s.stack == [] ==> Ordered(s)
  {
  }

  // ------------------------------------------------------------------ a place in a stream

  function StateOf(input: seq<LoaderSteps.Input>, region: bool): LoaderSteps.State {
    StateAfter(Begin, input, region)
  }

  function PlacesOf(input: seq<LoaderSteps.Input>, region: bool): Places {
    PlacesAfter(Nowhere, input, region)
  }

  // What holds where a stream stands.
  ghost predicate Stands(s: LoaderSteps.State, phase: Phase, commentLine: nat, p: Places, rest: seq<LoaderSteps.Input>) {
    Rest(s, phase, commentLine, rest) && Knows(s, p) && Ordered(s)
  }

  lemma StandsNext(s: LoaderSteps.State, phase: Phase, commentLine: nat, p: Places, rest: seq<LoaderSteps.Input>, region: bool)
    requires rest != [] && Stands(s, phase, commentLine, p, rest)
    ensures var e, probe := rest[0].event, rest[0].probe;
            && Stands(Stepped(s, e, probe, region), PhaseAfter(phase, e), if e.Comment? then probe.line else commentLine,
                      Placing(p, rest[0], region), rest[1..])
            && (if e.Comment? then probe.line > commentLine else Advance(Owes(s.Shape(), phase), e).Some?)
            && Ready(s, phase, commentLine)
  {
    hide Ready, Owes, Advance, AdvanceAll, Structural, EventsOf, Stepped, Knows, Ordered, Placing, State.Shape;
    RestNext(s, phase, commentLine, rest, region);
    StepKnows(s, phase, commentLine, p, rest[0], region);
    StepOrdered(s, phase, commentLine, p, rest[0], region);
  }

  // Every place in a stream is one where it stands.
  lemma {:induction false} StandsAt(s: LoaderSteps.State, phase: Phase, commentLine: nat, p: Places, input: seq<LoaderSteps.Input>,
                                    k: nat, region: bool) returns (after: Phase, line: nat)
    requires k <= |input| && Stands(s, phase, commentLine, p, input)
    ensures Stands(StateAfter(s, input[..k], region), after, line, PlacesAfter(p, input[..k], region), input[k..])
    decreases k
  {
    hide Stands, Stepped, Placing;
    if k == 0 {
      assert input[k..] == input && input[..k] == [];
      after, line := phase, commentLine;
    } else {
      StandsNext(s, phase, commentLine, p, input, region);
      var e, probe := input[0].event, input[0].probe;
      after, line := StandsAt(Stepped(s, e, probe, region), PhaseAfter(phase, e), if e.Comment? then probe.line else commentLine,
                              Placing(p, input[0], region), input[1..], k - 1, region);
      assert input[..k][1..] == input[1..][..k - 1] && input[..k][0] == input[0] && input[1..][k - 1..] == input[k..];
    }
  }

  lemma StandsFirst(input: seq<LoaderSteps.Input>)
    requires Streams(input)
    ensures Stands(Begin, Start, 0, Nowhere, input)
  {
    BeginReady(BlankLines(0));
    OwesAll();
    TellsBegin();
  }
}
