// The slot in which each comment of a stream is found once the stream has been loaded
// (crates/yamluna-core/src/loader.rs).
module CommentFound {
  import opened Results
  import opened ScalarEmitter
  import opened Events
  import opened Grammar
  import opened Arena
  import opened Trivia
  import opened LoaderSteps
  import opened CommentHomes

  function TriviumOf(i: LoaderSteps.Input): Trivium
    requires i.event.Comment?
  {
    Trivium.Comment(i.event.text, i.probe.ownLine, i.probe.col)
  }

  // The documents a stream loads to.
  function DocumentsOf(input: seq<LoaderSteps.Input>, region: bool): seq<LoaderSteps.Document> {
    StateOf(input, region).docs
  }

  predicate HasNode(docs: seq<LoaderSteps.Document>, d: nat, id: nat) {
    d < |docs| && id < |docs[d].nodes|
  }

  predicate HasEol(docs: seq<LoaderSteps.Document>, d: nat, id: nat, t: Trivium) {
    HasNode(docs, d, id) && docs[d].nodes[id].trivia.eol == Some(t)
  }

  // ------------------------------------------------------------------ to the end of the stream

  lemma AtTheEnd(input: seq<LoaderSteps.Input>, region: bool)
    requires Streams(input)
    ensures StateOf(input, region).doc == NoDocument
  {
    hide Count, State.Held, State.Shape, StateAfter, LinesRise, FedAll, Structural;
    OwesAll();
    BeginReady(BlankLines(0));
    LoadKeeps(Begin, Start, 0, input, region, BlankLines(0));
  }

  lemma StateFrom(input: seq<LoaderSteps.Input>, k: nat, region: bool)
    requires k <= |input|
    ensures StateOf(input, region) == StateAfter(StateOf(input[..k], region), input[k..], region)
  {
    assert input == input[..k] + input[k..];
    AfterTwo(Begin, input[..k], input[k..], region);
  }

  // From some place in a stream to its end.
  lemma FromThere(input: seq<LoaderSteps.Input>, k: nat, region: bool) returns (phase: Phase, line: nat)
    requires Streams(input) && k <= |input|
    ensures Stands(StateOf(input[..k], region), phase, line, PlacesOf(input[..k], region), input[k..])
    ensures Grows(StateOf(input[..k], region), StateOf(input, region), AllOverwrites(StateOf(input[..k], region), input[k..], region))
    ensures StateOf(input, region).doc == NoDocument
  {
    hide Stands, StateAfter, Grows, AllOverwrites, Streams;
    StandsFirst(input);
    phase, line := StandsAt(Begin, Start, 0, Nowhere, input, k, region);
    StandsRest(StateOf(input[..k], region), phase, line, PlacesOf(input[..k], region), input[k..]);
    RestGrows(StateOf(input[..k], region), phase, line, input[k..], region);
    StateFrom(input, k, region);
    AtTheEnd(input, region);
  }

  lemma StandsRest(s: LoaderSteps.State, phase: Phase, line: nat, p: Places, rest: seq<LoaderSteps.Input>)
    requires Stands(s, phase, line, p, rest)
    ensures Rest(s, phase, line, rest) && Knows(s, p) && Ordered(s) && Ready(s, phase, line)
  {
  }

  // What a node of the document at hand holds is found in the document loaded.
  lemma NodeFound(s: LoaderSteps.State, n: LoaderSteps.State, lost: set<Place>, id: nat)
    requires Grows(s, n, lost) && n.doc == NoDocument && id < |s.doc.nodes|
    ensures var d := |s.docs|;
            && HasNode(n.docs, d, id) && NodeGrows(s.doc.nodes[id], n.docs[d].nodes[id])
            && (Place(d, id) !in lost ==> EolStays(s.doc.nodes[id], n.docs[d].nodes[id]))
  {
    var d := |s.docs|;
    assert DocumentGrows(DocumentAt(s, d), DocumentAt(n, d), NodesOf(lost, d));
    assert DocumentAt(s, d) == s.doc;
    assert Place(d, id) !in lost ==> id !in NodesOf(lost, d);
  }

  // ------------------------------------------------------------------ nodes that are no keys

  // A node that is no key, and is not going to be one.
  ghost predicate NoKey(s: LoaderSteps.State, d: nat, id: nat) {
    d < |s.docs| ||
    (d == |s.docs| && id < |s.doc.nodes|
     && (forall i | 0 <= i < |s.stack| :: s.stack[i].frame.pendingKey != Some(id))
     && (forall i | 0 < i < |s.stack| && s.stack[i].frame.node == id :: s.stack[i - 1].isSeq || s.stack[i - 1].frame.pendingKey.Some?))
  }

  lemma NoKeyNext(s: LoaderSteps.State, phase: Phase, commentLine: nat, p: Places, i: LoaderSteps.Input, region: bool, d: nat, id: nat)
    requires Ready(s, phase, commentLine) && Knows(s, p) && NoKey(s, d, id)
    requires !i.event.Comment? ==> Advance(Owes(s.Shape(), phase), i.event).Some?
    ensures NoKey(Stepped(s, i.event, i.probe, region), d, id) && Place(d, id) !in Overwrites(s, i)
  {
    hide Owes, Advance, Sound, CollectionClosed, LeafRead, CollectionOpened, State.Shape, Fed, Tells, SlotOf, AwaitsValue, Kinds;
    var e, probe := i.event, i.probe;
    if e.Comment? {
      CommentForm(s, e.text, probe);
      CommentDocs(s, e.text, probe);
    } else {
      FedPays(s.Shape(), phase, e, region);
      if e.Scalar? || e.Alias? {
        LeafNoKey(s, e, probe, d, id);
      } else if IsNodeEvent(e) {
        OpenNoKey(s, e, probe, d, id);
      } else if e.SequenceEnd? || e.MappingEnd? {
        NothingDeferred(s, phase, commentLine, e);
        EndNoKey(s, probe, d, id);
      } else {
        AtBoundary(s, phase, commentLine, e);
        BoundaryNoKey(s, e, probe, region, d, id);
      }
    }
  }

  lemma CommentDocs(s: LoaderSteps.State, text: string, probe: Probe)
    requires s.Valid()
    ensures |CommentRead(s, text, probe).docs| == |s.docs|
  {
    hide SlotOf, BlankRuns;
  }

  lemma LeafNoKey(s: LoaderSteps.State, e: Event, probe: Probe, d: nat, id: nat)
    requires s.Full() && NoKey(s, d, id) && (e.Scalar? || e.Alias?)
    ensures NoKey(LeafRead(s, e, probe), d, id)
  {
    hide NodeAdded, BoneOf, BlankRuns;
    var b := BlanksNoted(s, probe.blanks);
    BlanksKeep(s, probe.blanks, BlankLines(0));
    AddedForm(b, BoneOf(e), probe);
    AddedGrows(b, BoneOf(e), probe);
    hide DocumentGrows;
    FiledNoKey(s, LeafRead(s, e, probe), |s.doc.nodes|, d, id);
  }

  lemma FiledNoKey(s: LoaderSteps.State, n: LoaderSteps.State, new_: nat, d: nat, id: nat)
    requires NoKey(s, d, id) && n.docs == s.docs && n.stack == StackFiled(s.stack, new_) && |n.doc.nodes| >= |s.doc.nodes|
    requires d == |s.docs| ==> new_ != id
    ensures NoKey(n, d, id)
  {
    if d == |s.docs| {
      forall i | 0 <= i < |n.stack| ensures n.stack[i].frame.pendingKey != Some(id) {
        assert s.stack[i].frame.pendingKey != Some(id);
      }
      forall i | 0 < i < |n.stack| && n.stack[i].frame.node == id
        ensures n.stack[i - 1].isSeq || n.stack[i - 1].frame.pendingKey.Some?
      {
        assert s.stack[i].frame.node == id;
      }
    }
  }

  lemma OpenNoKey(s: LoaderSteps.State, e: Event, probe: Probe, d: nat, id: nat)
    requires s.Full() && NoKey(s, d, id) && (e.SequenceStart? || e.MappingStart?)
    ensures NoKey(CollectionOpened(s, e, probe), d, id)
  {
    hide NodeAdded, BoneOf, BlankRuns;
    var b := BlanksNoted(s, probe.blanks);
    BlanksKeep(s, probe.blanks, BlankLines(0));
    AddedForm(b, BoneOf(e), probe);
    AddedGrows(b, BoneOf(e), probe);
  }

  lemma EndNoKey(s: LoaderSteps.State, probe: Probe, d: nat, id: nat)
    requires s.Full() && NoKey(s, d, id) && s.stack != []
    ensures NoKey(CollectionClosed(s, probe), d, id)
  {
    hide BlankRuns, AfterCut, Filled, EndLine;
    assert FrameLinked(s.Top(), s.doc.nodes);
    var n := CollectionClosed(s, probe);
    var f := s.Top();
    assert n.docs == s.docs && |n.doc.nodes| == |s.doc.nodes|;
    if d == |s.docs| {
      var popped := s.stack[..|s.stack| - 1];
      assert n.stack == StackFiled(popped, f.frame.node);
      forall i | 0 <= i < |n.stack| ensures n.stack[i].frame.pendingKey != Some(id) {
        assert s.stack[i].frame.pendingKey != Some(id);
        if i == |n.stack| - 1 && f.frame.node == id {
          assert s.stack[i].isSeq || s.stack[i].frame.pendingKey.Some?;
        }
      }
      forall i | 0 < i < |n.stack| && n.stack[i].frame.node == id
        ensures n.stack[i - 1].isSeq || n.stack[i - 1].frame.pendingKey.Some?
      {
        assert s.stack[i].frame.node == id;
      }
    }
  }

  lemma BoundaryNoKey(s: LoaderSteps.State, e: Event, probe: Probe, region: bool, d: nat, id: nat)
    requires s.Valid() && NoKey(s, d, id) && (e.DocumentStart? || e.StreamEnd? ==> s.doc == NoDocument)
    requires e.StreamStart? || e.DocumentStart? || e.DocumentEnd? || e.StreamEnd?
    ensures NoKey(Stepped(s, e, probe, region), d, id)
  {
    hide BlankRuns;
  }

  // No comment takes the place of such a node's.
  lemma {:induction false} NeverOverwritten(s: LoaderSteps.State, phase: Phase, line: nat, p: Places, rest: seq<LoaderSteps.Input>,
                                            region: bool, d: nat, id: nat)
    requires Stands(s, phase, line, p, rest) && NoKey(s, d, id)
    ensures Place(d, id) !in AllOverwrites(s, rest, region)
    decreases |rest|
  {
    hide Stands, Stepped, NoKey, Overwrites, Placing;
    if rest != [] {
      var e, probe := rest[0].event, rest[0].probe;
      StandsNext(s, phase, line, p, rest, region);
      StandsRest(s, phase, line, p, rest);
      NoKeyNext(s, phase, line, p, rest[0], region, d, id);
      NeverOverwritten(Stepped(s, e, probe, region), PhaseAfter(phase, e), if e.Comment? then probe.line else line,
                       Placing(p, rest[0], region), rest[1..], region, d, id);
    }
  }

  // ------------------------------------------------------------------ comments that end a line

  // What the loader's state says of the innermost collection and the last node.
  lemma TopTells(s: LoaderSteps.State, p: Places)
    requires Knows(s, p) && s.Valid()
    ensures s.Shape() == p.shape && |p.shape.stack| == |s.stack| && |p.shape.done| == |s.docs| && s.ends == p.ends
    ensures |p.shape.tree.bones| == |s.doc.nodes| && p.shape.tree.root == s.doc.root
    ensures s.stack != [] ==>
              && Arena.Top(p.shape) == s.Top().frame && OneKind(s.Top()) && s.Top().frame.node < |s.doc.nodes|
              && (s.Top().hasChild <==> LastKid(s.Top().frame).Some?)
              && p.shape.tree.bones[s.Top().frame.node] == s.doc.nodes[s.Top().frame.node].bone
              && (s.Top().flow <==> IsFlow(p.shape.tree.bones[s.Top().frame.node]))
              && (s.Top().isSeq <==> p.shape.tree.bones[s.Top().frame.node].kind.Sequence?)
              && s.doc.nodes[s.Top().frame.node].line == p.starts[s.Top().frame.node]
    ensures LastDone(p).Some? ==> s.lastNode == LastDone(p)
  {
    hide Count, State.Held;
    if s.stack != [] {
      var f := s.Top();
      assert FrameTells(f, s.doc, p.cols) && OneKind(f) && FrameLinked(f, s.doc.nodes);
      assert NodeTells(s.doc.nodes[f.frame.node], p.starts[f.frame.node], p.cols[f.frame.node]);
      assert s.Shape().stack[|s.stack| - 1] == f.frame;
    }
  }

  // The comment at `k` goes to a node's end of line.
  lemma EolFiled(input: seq<LoaderSteps.Input>, k: nat, region: bool, id: nat)
    requires Streams(input) && k < |input| && input[k].event.Comment?
    requires StateOf(input[..k], region).Valid()
    requires var s := StateOf(input[..k], region);
             && id < |s.doc.nodes|
             && (SlotOf(s, input[k].probe.ownLine, input[k].probe.line, input[k].probe.beforeColon) == OfNode(id)
                 || SlotOf(s, input[k].probe.ownLine, input[k].probe.line, input[k].probe.beforeColon) == OfKey(id))
    ensures var s, n := StateOf(input[..k], region), StateOf(input[..k + 1], region);
            && n.stack == s.stack && n.docs == s.docs && |n.doc.nodes| == |s.doc.nodes|
            && n.doc.nodes[id].trivia.eol == Some(TriviumOf(input[k]))
            && n == Stepped(s, input[k].event, input[k].probe, region)
  {
    OneMore(input, k, region);
    hide SlotOf, BlankRuns, StateOf, State.Valid, Streams;
  }

  // What a node has at the end of its line in some place of a stream is loaded, unless a later comment between the node, a
  // key, and its `:` takes its place.
  lemma EolLoaded(input: seq<LoaderSteps.Input>, k: nat, region: bool, id: nat, t: Trivium)
    requires Streams(input) && k <= |input|
    requires var s := StateOf(input[..k], region); id < |s.doc.nodes| && s.doc.nodes[id].trivia.eol == Some(t)
    ensures var s := StateOf(input[..k], region);
            && (Place(|s.docs|, id) !in AllOverwrites(s, input[k..], region) ==> HasEol(DocumentsOf(input, region), |s.docs|, id, t))
            && (NoKey(s, |s.docs|, id) ==> HasEol(DocumentsOf(input, region), |s.docs|, id, t))
  {
    hide Streams, StateOf, AllOverwrites, Grows, Stands, NoKey;
    var s := StateOf(input[..k], region);
    var phase, line := FromThere(input, k, region);
    NodeFound(s, StateOf(input, region), AllOverwrites(s, input[k..], region), id);
    if NoKey(s, |s.docs|, id) {
      NeverOverwritten(s, phase, line, PlacesOf(input[..k], region), input[k..], region, |s.docs|, id);
    }
  }

  // A comment that ends a line, at `k`, and where the stream stands in front of it.
  predicate EndsLine(input: seq<LoaderSteps.Input>, k: nat) {
    Streams(input) && k < |input| && input[k].event.Comment? && !input[k].probe.ownLine
  }

  // On the last line of the node that was finished last, which is no key, the comment is that node's,
  // unless it has one.
  lemma EolOfLast(input: seq<LoaderSteps.Input>, k: nat, region: bool, id: nat)
    requires EndsLine(input, k)
    requires var p := PlacesOf(input[..k], region);
             && LastDone(p) == Some(id) && (p.shape.stack != [] ==> Arena.Top(p.shape).pendingKey != Some(id))
             && id < |p.ends| && p.ends[id] == input[k].probe.line
    requires EolOf(StateOf(input[..k], region).doc, id) == None
    ensures HasEol(DocumentsOf(input, region), |PlacesOf(input[..k], region).shape.done|, id, TriviumOf(input[k]))
  {
    var s, p := StateOf(input[..k], region), PlacesOf(input[..k], region);
    hide Streams, StateOf, PlacesOf, Grows, Stands, AllOverwrites, Knows, Ordered, Owes, Advance, Ready, State.Shape, DocumentsOf;
    var phase, line := FromThere(input, k, region);
    StandsRest(s, phase, line, p, input[k..]);
    ReadyValid(s, phase, line, p);
    TopTells(s, p);
    LastNoKey(s, p, id);
    EolFiled(input, k, region, id);
    SameKeys(s, StateOf(input[..k + 1], region), |s.docs|, id);
    EolLoaded(input, k + 1, region, id, TriviumOf(input[k]));
  }

  lemma ReadyValid(s: LoaderSteps.State, phase: Phase, line: nat, p: Places)
    requires Ready(s, phase, line) && Knows(s, p)
    ensures s.Valid() && (phase.Inside? ==> |s.ends| == |s.doc.nodes|)
    ensures !phase.Inside? ==> s.doc == NoDocument && s.stack == []
  {
    assert s.Shape().stack == FramesOf(s.stack);
  }

  // The last node is filed, behind all frames and keys that are open.
  lemma LastNoKey(s: LoaderSteps.State, p: Places, id: nat)
    requires s.Valid() && Knows(s, p) && Ordered(s) && LastDone(p) == Some(id)
    requires p.shape.stack != [] ==> Arena.Top(p.shape).pendingKey != Some(id)
    ensures id < |s.doc.nodes| && NoKey(s, |s.docs|, id)
  {
    hide State.Shape, FrameLinked;
    TopTells(s, p);
    if s.stack != [] {
      var k := |s.stack| - 1;
      assert KidBetween(s.stack[k], NodeAbove(s, k));
      forall i | 0 <= i < |s.stack|
        ensures s.stack[i].frame.pendingKey != Some(id) && s.stack[i].frame.node != id
      {
        assert KidBetween(s.stack[i], NodeAbove(s, i));
        assert i < k ==> s.stack[i + 1].frame.node <= s.stack[k].frame.node;
      }
    }
  }

  lemma SameKeys(s: LoaderSteps.State, n: LoaderSteps.State, d: nat, id: nat)
    requires n.stack == s.stack && n.docs == s.docs && |n.doc.nodes| == |s.doc.nodes|
    ensures NoKey(s, d, id) <==> NoKey(n, d, id)
  {
  }

  // The dash of a block sequence introduces its item.
  predicate OnDash(p: Places) {
    p.shape.stack != [] && var f := Arena.Top(p.shape);
    LastKid(f).None? && f.node < |p.shape.tree.bones| && p.shape.tree.bones[f.node].kind.Sequence?
    && !IsFlow(p.shape.tree.bones[f.node])
  }

  // The innermost collection is going to be a key.
  predicate IsKey(p: Places) {
    var k := |p.shape.stack|;
    k >= 2 && var f := p.shape.stack[k - 2];
    f.node < |p.shape.tree.bones| && !p.shape.tree.bones[f.node].kind.Sequence? && f.pendingKey.None?
  }

  // On the line a collection without children starts on, the comment is the collection's, unless it has one,
  // or a dash introduces its first item. It stays there, but for a collection that is a key and gets another comment
  // in front of its `:`.
  lemma EolOfOpened(input: seq<LoaderSteps.Input>, k: nat, region: bool)
    requires EndsLine(input, k)
    requires var p := PlacesOf(input[..k], region);
             && p.shape.stack != [] && LastKid(Arena.Top(p.shape)).None? && !OnDash(p)
             && Arena.Top(p.shape).node < |p.starts| && p.starts[Arena.Top(p.shape).node] == input[k].probe.line
    requires EolOf(StateOf(input[..k], region).doc, Arena.Top(PlacesOf(input[..k], region).shape).node) == None
    ensures var p := PlacesOf(input[..k], region);
            var d, id := |p.shape.done|, Arena.Top(p.shape).node;
            && (!IsKey(p) ==> HasEol(DocumentsOf(input, region), d, id, TriviumOf(input[k])))
            && (Place(d, id) !in AllOverwrites(StateOf(input[..k + 1], region), input[k + 1..], region) ==>
                  HasEol(DocumentsOf(input, region), d, id, TriviumOf(input[k])))
  {
    var s, p := StateOf(input[..k], region), PlacesOf(input[..k], region);
    hide Streams, StateOf, PlacesOf, Grows, Stands, AllOverwrites, Knows, Ordered, Owes, Advance, Ready, State.Shape, DocumentsOf;
    var phase, line := FromThere(input, k, region);
    StandsRest(s, phase, line, p, input[k..]);
    ReadyValid(s, phase, line, p);
    TopTells(s, p);
    var id := Arena.Top(p.shape).node;
    EolFiled(input, k, region, id);
    if !IsKey(p) {
      OpenNoKeyYet(s, p);
      SameKeys(s, StateOf(input[..k + 1], region), |s.docs|, id);
    }
    EolLoaded(input, k + 1, region, id, TriviumOf(input[k]));
  }

  lemma OpenNoKeyYet(s: LoaderSteps.State, p: Places)
    requires s.Valid() && Knows(s, p) && Ordered(s) && s.stack != [] && !IsKey(p)
    ensures s.Top().frame.node < |s.doc.nodes| && NoKey(s, |s.docs|, s.Top().frame.node)
  {
    TopTells(s, p);
    var k, id := |s.stack| - 1, s.Top().frame.node;
    if k > 0 {
      BelowTells(s, p);
    }
    hide State.Shape;
    forall i | 0 <= i < |s.stack| ensures s.stack[i].frame.pendingKey != Some(id) {
      assert KidBetween(s.stack[i], NodeAbove(s, i));
    }
    forall i | 0 < i < |s.stack| && s.stack[i].frame.node == id
      ensures s.stack[i - 1].isSeq || s.stack[i - 1].frame.pendingKey.Some?
    {
      assert i == k;
    }
  }

  lemma BelowTells(s: LoaderSteps.State, p: Places)
    requires s.Valid() && Knows(s, p) && |s.stack| >= 2 && !IsKey(p)
    ensures var f := s.stack[|s.stack| - 2]; f.isSeq || f.frame.pendingKey.Some?
  {
    var k := |s.stack| - 2;
    assert FrameLinked(s.stack[k], s.doc.nodes);
    assert s.Shape().stack[k] == s.stack[k].frame;
  }

  // Between a key and its `:`, on the key's last line, the comment is the key's.
  lemma EolOfKey(input: seq<LoaderSteps.Input>, k: nat, region: bool, key: nat)
    requires EndsLine(input, k) && input[k].probe.beforeColon
    requires var p := PlacesOf(input[..k], region);
             && p.shape.stack != [] && Arena.Top(p.shape).pendingKey == Some(key)
             && key < |p.ends| && p.ends[key] == input[k].probe.line
    ensures HasEol(DocumentsOf(input, region), |PlacesOf(input[..k], region).shape.done|, key, TriviumOf(input[k]))
  {
    var s, p := StateOf(input[..k], region), PlacesOf(input[..k], region);
    hide Streams, StateOf, PlacesOf, Grows, Stands, AllOverwrites, Knows, Ordered, Owes, Advance, Ready, State.Shape, DocumentsOf, PlacesAfter;
    var phase, line := FromThere(input, k, region);
    StandsRest(s, phase, line, p, input[k..]);
    ReadyValid(s, phase, line, p);
    TopTells(s, p);
    KeyThere(s, key);
    EolFiled(input, k, region, key);
    var n := StateOf(input[..k + 1], region);
    var after := KeyEndsThere(input, k, region, key, phase, line);
    KeyKept(n, after, input[k].probe.line, PlacesOf(input[..k + 1], region), input[k + 1..], region, |s.docs|, key,
            input[k].probe.line);
    EolLoaded(input, k + 1, region, key, TriviumOf(input[k]));
  }

  lemma KeyThere(s: LoaderSteps.State, key: nat)
    requires s.Valid() && s.stack != [] && s.Top().frame.pendingKey == Some(key)
    ensures key < |s.doc.nodes| && !s.Top().isSeq
  {
    assert FrameLinked(s.Top(), s.doc.nodes);
  }

  // Where the stream stands behind the comment, the key still ends on the comment's line.
  lemma KeyEndsThere(input: seq<LoaderSteps.Input>, k: nat, region: bool, key: nat, phase: Phase, line: nat) returns (after: Phase)
    requires k < |input| && input[k].event.Comment?
    requires Stands(StateOf(input[..k], region), phase, line, PlacesOf(input[..k], region), input[k..])
    requires var s := StateOf(input[..k], region);
             && s.Valid() && s.stack != [] && s.Top().frame.pendingKey == Some(key) && Ordered(s)
             && s.ends[key] == input[k].probe.line
    ensures var s := StateOf(input[..k], region);
            && Stands(StateOf(input[..k + 1], region), after, input[k].probe.line, PlacesOf(input[..k + 1], region), input[k + 1..])
            && KeyEndsAt(StateOf(input[..k + 1], region), |s.docs|, key, input[k].probe.line)
  {
    var s, p := StateOf(input[..k], region), PlacesOf(input[..k], region);
    StandsNext(s, phase, line, p, input[k..], region);
    after := PhaseAfter(phase, input[k].event);
    assert input[k..][1..] == input[k + 1..];
    OneMore(input, k, region);
    hide *;
    CommentKeyThere(s, input[k], region, key);
  }

  lemma CommentKeyThere(s: LoaderSteps.State, i: LoaderSteps.Input, region: bool, key: nat)
    requires i.event.Comment? && s.Valid() && s.stack != [] && s.Top().frame.pendingKey == Some(key) && Ordered(s)
    requires s.ends[key] == i.probe.line
    ensures KeyEndsAt(Stepped(s, i.event, i.probe, region), |s.docs|, key, i.probe.line)
  {
    CommentForm(s, i.event.text, i.probe);
    CommentDocs(s, i.event.text, i.probe);
    OrderedKey(s, key);
    hide BlankRuns, SlotOf, CommentRead, Ordered;
  }

  // One event more.
  lemma OneMore(input: seq<LoaderSteps.Input>, k: nat, region: bool)
    requires k < |input|
    ensures StateOf(input[..k + 1], region) == Stepped(StateOf(input[..k], region), input[k].event, input[k].probe, region)
    ensures PlacesOf(input[..k + 1], region) == Placing(PlacesOf(input[..k], region), input[k], region)
  {
    hide Stepped, Placing;
    assert input[..k + 1] == input[..k] + [input[k]];
    AfterTwo(Begin, input[..k], [input[k]], region);
    PlacesTwo(Nowhere, input[..k], [input[k]], region);
    hide StateAfter, PlacesAfter;
    StateOne(StateAfter(Begin, input[..k], region), input[k], region);
    PlacesOne(PlacesAfter(Nowhere, input[..k], region), input[k], region);
  }

  lemma StateOne(s: LoaderSteps.State, i: LoaderSteps.Input, region: bool)
    ensures StateAfter(s, [i], region) == Stepped(s, i.event, i.probe, region)
  {
    hide Stepped;
    assert [i][1..] == [];
  }

  lemma {:induction false} PlacesTwo(p: Places, a: seq<LoaderSteps.Input>, b: seq<LoaderSteps.Input>, region: bool)
    ensures PlacesAfter(p, a + b, region) == PlacesAfter(PlacesAfter(p, a, region), b, region)
    decreases |a|
  {
    hide Placing;
    if a == [] {
      assert a + b == b;
    } else {
      assert (a + b)[1..] == a[1..] + b;
      PlacesTwo(Placing(p, a[0], region), a[1..], b, region);
    }
  }

  lemma PlacesOne(p: Places, i: LoaderSteps.Input, region: bool)
    ensures PlacesAfter(p, [i], region) == Placing(p, i, region)
  {
    hide Placing;
    assert [i][1..] == [];
  }

  // A node that has ended on that line, or belongs to a document that has ended.
  ghost predicate KeyEndsAt(s: LoaderSteps.State, d: nat, key: nat, line: nat) {
    d < |s.docs| ||
    (d == |s.docs| && key < |s.doc.nodes| && key < |s.ends| && s.ends[key] == line && forall i | 0 <= i < |s.stack| :: s.stack[i].frame.node != key)
  }

  lemma OrderedKey(s: LoaderSteps.State, key: nat)
    requires s.Valid() && s.stack != [] && s.Top().frame.pendingKey == Some(key) && Ordered(s)
    ensures key < |s.doc.nodes| && forall i | 0 <= i < |s.stack| :: s.stack[i].frame.node != key
  {
    var k := |s.stack| - 1;
    assert KidBetween(s.stack[k], NodeAbove(s, k));
    assert FrameLinked(s.Top(), s.doc.nodes);
  }

  // Later comments are on later lines, and take the place of no comment of such a key.
  lemma {:induction false} KeyKept(s: LoaderSteps.State, phase: Phase, commentLine: nat, p: Places, rest: seq<LoaderSteps.Input>, region: bool,
                                   d: nat, key: nat, line: nat)
    requires Stands(s, phase, commentLine, p, rest) && KeyEndsAt(s, d, key, line) && line <= commentLine
    ensures Place(d, key) !in AllOverwrites(s, rest, region)
    decreases |rest|
  {
    hide Stands, Stepped, KeyEndsAt, Overwrites, Placing;
    if rest != [] {
      var e, probe := rest[0].event, rest[0].probe;
      StandsNext(s, phase, commentLine, p, rest, region);
      StandsRest(s, phase, commentLine, p, rest);
      KeyKeptNext(s, phase, commentLine, p, rest[0], region, d, key, line);
      KeyKept(Stepped(s, e, probe, region), PhaseAfter(phase, e), if e.Comment? then probe.line else commentLine,
              Placing(p, rest[0], region), rest[1..], region, d, key, line);
    }
  }

  lemma KeyKeptNext(s: LoaderSteps.State, phase: Phase, commentLine: nat, p: Places, i: LoaderSteps.Input, region: bool, d: nat,
                    key: nat, line: nat)
    requires Ready(s, phase, commentLine) && Knows(s, p) && KeyEndsAt(s, d, key, line) && line <= commentLine
    requires if i.event.Comment? then i.probe.line > commentLine else Advance(Owes(s.Shape(), phase), i.event).Some?
    ensures KeyEndsAt(Stepped(s, i.event, i.probe, region), d, key, line) && Place(d, key) !in Overwrites(s, i)
  {
    hide Owes, Advance, Sound, State.Shape, Fed, Tells, SlotOf, AwaitsValue, Kinds, KeyEndsAt, CommentRead, CollectionClosed, LeafRead,
         CollectionOpened, MeetsComment;
    var e, probe := i.event, i.probe;
    if e.Comment? {
      CommentKeyKept(s, e.text, probe, d, key, line);
    } else {
      assert Overwrites(s, i) == {} by { assert !MeetsComment(s, i) by { NoComment(s, i); } }
      FedPays(s.Shape(), phase, e, region);
      if IsNodeEvent(e) {
        NodeKeyKept(s, e, probe, region, d, key, line);
      } else if e.SequenceEnd? || e.MappingEnd? {
        NothingDeferred(s, phase, commentLine, e);
        EndKeyKept(s, probe, d, key, line);
      } else {
        AtBoundary(s, phase, commentLine, e);
        BoundaryKeyKept(s, e, probe, region, d, key, line);
      }
    }
  }

  lemma NoComment(s: LoaderSteps.State, i: LoaderSteps.Input)
    requires !i.event.Comment?
    ensures !MeetsComment(s, i)
  {
  }

  lemma CommentKeyKept(s: LoaderSteps.State, text: string, probe: Probe, d: nat, key: nat, line: nat)
    requires s.Valid() && KeyEndsAt(s, d, key, line) && probe.line > line
    ensures KeyEndsAt(CommentRead(s, text, probe), d, key, line)
    ensures Place(d, key) !in Overwrites(s, LoaderSteps.Input(Event.Comment(text), probe))
  {
    hide SlotOf, BlankRuns;
    CommentForm(s, text, probe);
    CommentDocs(s, text, probe);
  }

  lemma NodeKeyKept(s: LoaderSteps.State, e: Event, probe: Probe, region: bool, d: nat, key: nat, line: nat)
    requires s.Full() && IsNodeEvent(e) && KeyEndsAt(s, d, key, line)
    ensures KeyEndsAt(Stepped(s, e, probe, region), d, key, line)
  {
    hide NodeAdded, BoneOf, BlankRuns, DocumentGrows, Arena.Filed;
    var b := BlanksNoted(s, probe.blanks);
    BlanksKeep(s, probe.blanks, BlankLines(0));
    AddedForm(b, BoneOf(e), probe);
    AddedGrows(b, BoneOf(e), probe);
    if s.stack != [] && (e.Scalar? || e.Alias?) {
      var k := |s.stack| - 1;
      FiledNode(s.stack[k].frame, s.stack[k].isSeq, |s.doc.nodes|);
    }
  }

  lemma EndKeyKept(s: LoaderSteps.State, probe: Probe, d: nat, key: nat, line: nat)
    requires s.Full() && s.stack != [] && KeyEndsAt(s, d, key, line)
    ensures KeyEndsAt(CollectionClosed(s, probe), d, key, line)
  {
    hide BlankRuns, AfterCut, Filled, EndLine, Arena.Filed;
    var f := s.Top();
    assert FrameLinked(f, s.doc.nodes);
    var n := CollectionClosed(s, probe);
    assert n.docs == s.docs && |n.doc.nodes| == |s.doc.nodes| && n.stack == StackFiled(s.stack[..|s.stack| - 1], f.frame.node);
    if d == |s.docs| {
      assert f.frame.node != key;
      forall i | 0 <= i < |n.stack| ensures n.stack[i].frame.node != key {
        FiledNode(s.stack[i].frame, s.stack[i].isSeq, f.frame.node);
        assert n.stack[i].frame.node == s.stack[i].frame.node;
      }
    }
  }

  lemma BoundaryKeyKept(s: LoaderSteps.State, e: Event, probe: Probe, region: bool, d: nat, key: nat, line: nat)
    requires s.Valid() && KeyEndsAt(s, d, key, line) && (e.DocumentStart? || e.StreamEnd? ==> s.doc == NoDocument)
    requires e.StreamStart? || e.DocumentStart? || e.DocumentEnd? || e.StreamEnd?
    ensures KeyEndsAt(Stepped(s, e, probe, region), d, key, line)
  {
    hide BlankRuns;
  }

  // Behind the `:` of a key, on the key's last line, the comment is the value's.
  lemma EolOfValue(input: seq<LoaderSteps.Input>, k: nat, region: bool, key: nat)
    requires EndsLine(input, k) && !input[k].probe.beforeColon
    requires var p := PlacesOf(input[..k], region);
             && p.shape.stack != [] && Arena.Top(p.shape).pendingKey == Some(key)
             && key < |p.ends| && p.ends[key] == input[k].probe.line
    ensures var p := PlacesOf(input[..k], region);
            HasEol(DocumentsOf(input, region), |p.shape.done|, |p.shape.tree.bones|, TriviumOf(input[k]))
  {
    var s, p := StateOf(input[..k], region), PlacesOf(input[..k], region);
    hide Streams, StateOf, PlacesOf, Grows, Stands, AllOverwrites, Knows, Ordered, Owes, Advance, Ready, State.Shape, Placing;
    var phase, line := FromThere(input, k, region);
    StandsRest(s, phase, line, p, input[k..]);
    ReadyValid(s, phase, line, p);
    TopTells(s, p);
    KeyThere(s, key);
    OneMore(input, k, region);
    StandsNext(s, phase, line, p, input[k..], region);
    assert input[k..][1..] == input[k + 1..];
    DeferredThere(s, input[k], key);
    StateFrom(input, k + 1, region);
    AllTaken(input, region);
    ValueFound(StateOf(input[..k + 1], region), PhaseAfter(phase, input[k].event), input[k].probe.line, Placing(p, input[k], region),
               input[k + 1..], region, TriviumOf(input[k]));
  }

  lemma DeferredThere(s: LoaderSteps.State, i: LoaderSteps.Input, key: nat)
    requires s.Valid() && s.stack != [] && s.Top().frame.pendingKey == Some(key) && s.ends[key] == i.probe.line && s.Top().hasChild
    requires i.event.Comment? && !i.probe.ownLine && !i.probe.beforeColon
    ensures var n := Stepped(s, i.event, i.probe, true);
            && Stepped(s, i.event, i.probe, false) == n
            && n.deferredEol == Some(TriviumOf(i)) && |n.docs| == |s.docs| && |n.doc.nodes| == |s.doc.nodes|
  {
    hide BlankRuns;
  }

  lemma AllTaken(input: seq<LoaderSteps.Input>, region: bool)
    requires Streams(input)
    ensures StateOf(input, region).doc == NoDocument && StateOf(input, region).deferredEol == None
  {
    hide Count, State.Held, State.Shape, StateAfter, LinesRise, FedAll, Structural;
    OwesAll();
    BeginReady(BlankLines(0));
    LoadKeeps(Begin, Start, 0, input, region, BlankLines(0));
  }

  // The comment kept for a value is the next node's.
  lemma {:induction false} ValueFound(s: LoaderSteps.State, phase: Phase, line: nat, p: Places, rest: seq<LoaderSteps.Input>, region: bool, t: Trivium)
    requires Stands(s, phase, line, p, rest) && s.deferredEol == Some(t)
    requires StateAfter(s, rest, region).deferredEol == None && StateAfter(s, rest, region).doc == NoDocument
    ensures HasEol(StateAfter(s, rest, region).docs, |s.docs|, |s.doc.nodes|, t)
    decreases |rest|
  {
    hide Stands, Stepped, Placing, HasEol, Owes, Advance, Knows, Ordered, State.Shape, Sound;
    if rest != [] {
      var e, probe := rest[0].event, rest[0].probe;
      var n := Stepped(s, e, probe, region);
      StandsNext(s, phase, line, p, rest, region);
      StandsRest(s, phase, line, p, rest);
      if e.Comment? {
        DeferredStays(s, phase, line, e.text, probe, region, t);
        ValueFound(n, PhaseAfter(phase, e), probe.line, Placing(p, rest[0], region), rest[1..], region, t);
      } else {
        NodeComes(s, phase, line, e, region);
        ValueTakes(s, e, probe, region, t);
        EolKept(n, PhaseAfter(phase, e), line, Placing(p, rest[0], region), rest[1..], region, |s.doc.nodes|, t);
      }
    }
  }

  lemma DeferredStays(s: LoaderSteps.State, phase: Phase, line: nat, text: string, probe: Probe, region: bool, t: Trivium)
    requires Ready(s, phase, line) && probe.line > line && s.deferredEol == Some(t)
    ensures var n := Stepped(s, Event.Comment(text), probe, region);
            n.deferredEol == Some(t) && |n.docs| == |s.docs| && |n.doc.nodes| == |s.doc.nodes|
  {
    var slot := SlotOf(s, probe.ownLine, probe.line, probe.beforeColon);
    DeferredFits(s, line, probe, slot);
    hide SlotOf, BlankRuns, Sound;
  }

  // With a value missing the next event is a node's.
  lemma NodeComes(s: LoaderSteps.State, phase: Phase, line: nat, e: Event, region: bool)
    requires Ready(s, phase, line) && s.deferredEol.Some? && !e.Comment? && Advance(Owes(s.Shape(), phase), e).Some?
    ensures IsNodeEvent(e) && s.Full() && s.stack != [] && s.Top().frame.pendingKey.Some?
  {
    hide Owes, Advance, Sound;
    FedPays(s.Shape(), phase, e, region);
    if e.SequenceEnd? || e.MappingEnd? {
      NothingDeferred(s, phase, line, e);
    } else if !IsNodeEvent(e) {
      AtBoundary(s, phase, line, e);
    }
  }

  lemma ValueTakes(s: LoaderSteps.State, e: Event, probe: Probe, region: bool, t: Trivium)
    requires s.Full() && IsNodeEvent(e) && s.stack != [] && s.Top().frame.pendingKey.Some? && s.deferredEol == Some(t)
    ensures var n := Stepped(s, e, probe, region);
            && n.docs == s.docs && |s.doc.nodes| < |n.doc.nodes| && n.doc.nodes[|s.doc.nodes|].trivia.eol == Some(t)
            && NoKey(n, |s.docs|, |s.doc.nodes|)
  {
    hide NodeAdded, BoneOf, BlankRuns;
    var b := BlanksNoted(s, probe.blanks);
    BlanksKeep(s, probe.blanks, BlankLines(0));
    AddedForm(b, BoneOf(e), probe);
    AddedEol(b, BoneOf(e), probe, t);
    KeyThere(s, s.Top().frame.pendingKey.value);
    TopFrameIs(s, e, probe, region);
    ValueNoKey(s, Stepped(s, e, probe, region), e, probe);
  }

  lemma TopFrameIs(s: LoaderSteps.State, e: Event, probe: Probe, region: bool)
    requires s.Full() && IsNodeEvent(e) && s.stack != []
    requires NodeAdded(BlanksNoted(s, probe.blanks), BoneOf(e), probe).stack == s.stack
    ensures var n := Stepped(s, e, probe, region);
            if e.Scalar? || e.Alias? then n.stack == StackFiled(s.stack, |s.doc.nodes|)
            else exists f :: n.stack == s.stack + [f] && f.frame == Frame(|s.doc.nodes|, [], [], None)
  {
    hide NodeAdded, BoneOf, StackFiled;
    if e.SequenceStart? || e.MappingStart? {
      var f := OpenFrame(Frame(|s.doc.nodes|, [], [], None), e.SequenceStart?, e.structure.Flow?, probe.col, false);
      assert Stepped(s, e, probe, region).stack == s.stack + [f];
    }
  }

  lemma AddedEol(s: LoaderSteps.State, bone: Bone, probe: Probe, t: Trivium)
    requires s.Full() && s.deferredEol == Some(t)
    ensures var n := NodeAdded(s, bone, probe);
            n.docs == s.docs && |s.doc.nodes| < |n.doc.nodes| && n.doc.nodes[|s.doc.nodes|].trivia.eol == Some(t)
  {
    hide BeforeTaken, DocumentGrows;
    var a := NodeAppended(s, bone, probe);
    BeforeGrows(a, |s.doc.nodes|, probe.blankAbove);
    EolThere(a, BeforeTaken(a, |s.doc.nodes|, probe.blankAbove), |s.doc.nodes|);
  }

  lemma EolThere(a: LoaderSteps.State, n: LoaderSteps.State, id: nat)
    requires DocumentGrows(a.doc, n.doc, {}) && id < |a.doc.nodes|
    ensures id < |n.doc.nodes| && EolStays(a.doc.nodes[id], n.doc.nodes[id])
  {
  }

  lemma ValueNoKey(s: LoaderSteps.State, n: LoaderSteps.State, e: Event, probe: Probe)
    requires s.Valid() && s.stack != [] && s.Top().frame.pendingKey.Some? && !s.Top().isSeq && n.docs == s.docs
    requires |n.doc.nodes| == |s.doc.nodes| + 1
    requires if e.Scalar? || e.Alias? then n.stack == StackFiled(s.stack, |s.doc.nodes|)
             else exists f :: n.stack == s.stack + [f] && f.frame == Frame(|s.doc.nodes|, [], [], None)
    ensures NoKey(n, |s.docs|, |s.doc.nodes|)
  {
    var id := |s.doc.nodes|;
    forall i | 0 <= i < |s.stack| ensures s.stack[i].frame.pendingKey != Some(id) && s.stack[i].frame.node != id {
      assert FrameLinked(s.stack[i], s.doc.nodes);
    }
  }

  // From where a node that is no key has a comment, to the end.
  lemma EolKept(s: LoaderSteps.State, phase: Phase, line: nat, p: Places, rest: seq<LoaderSteps.Input>, region: bool, id: nat, t: Trivium)
    requires Stands(s, phase, line, p, rest) && NoKey(s, |s.docs|, id) && StateAfter(s, rest, region).doc == NoDocument
    requires id < |s.doc.nodes| && s.doc.nodes[id].trivia.eol == Some(t)
    ensures HasEol(StateAfter(s, rest, region).docs, |s.docs|, id, t)
  {
    hide Stands, StateAfter, Grows, AllOverwrites, NoKey;
    StandsRest(s, phase, line, p, rest);
    RestGrows(s, phase, line, rest, region);
    NeverOverwritten(s, phase, line, p, rest, region, |s.docs|, id);
    NodeFound(s, StateAfter(s, rest, region), AllOverwrites(s, rest, region), id);
  }
}
