// The loader: events become documents, and every comment and blank run finds a slot
// (crates/yamluna-core/src/loader.rs).
module Loader {
  import opened Results
  import opened Events
  import opened Grammar
  import opened Arena
  import opened Trivia
  import opened LoaderSteps

  class Loader {
    var docs: seq<Document>
    var doc: Document
    var stack: seq<OpenFrame>
    var pending: seq<Trivium>
    var ends: seq<nat>
    var lastNode: Option<nat>
    var deferredEol: Option<Trivium>
    var docStartLine: Option<nat>
    var docEndLine: Option<nat>
    var sawNode: bool

    // The state the specification speaks of.
    ghost function View(): State
      reads this
    {
      State(docs, doc, stack, pending, ends, lastNode, deferredEol, docStartLine, docEndLine, sawNode)
    }

    constructor ()
      ensures View() == Begin
    {
      docs, doc, stack, pending, ends := [], NoDocument, [], [], [];
      lastNode, deferredEol, docStartLine, docEndLine, sawNode := None, None, None, None, false;
    }

    method Blanks(runs: seq<nat>)
      modifies this`pending
      ensures View() == BlanksNoted(old(View()), runs)
    {
      pending := pending + BlankRuns(runs);
    }

    // ---------------------------------------------------------------- the run in front of a node

    method SetTrivia(id: nat, t: Slots)
      requires id < |doc.nodes|
      modifies this`doc
      ensures View() == TriviaSet(old(View()), id, t)
    {
      doc := doc.(nodes := doc.nodes[id := doc.nodes[id].(trivia := t)]);
    }

    // A block collection that opens takes the part of the run indented into it; what stays
    // between it and the sibling before it is handed back.
    method TakeInside(node: nat, blankAbove: bool) returns (lifted: seq<Trivium>)
      requires node < |doc.nodes| && stack != []
      modifies this`doc, this`pending
      ensures (View(), lifted) == InsideTaken(old(View()), node, blankAbove)
    {
      hide ToStart, ToEnd, TrailingCut, FirstComment;
      var n := doc.nodes[node];
      var start, end := ToStart(pending, n.col), ToEnd(pending, n.col);
      var inside := pending[start..end];
      pending := pending[..start] + pending[end..];
      lifted := [];
      if stack[|stack| - 1].hasChild {
        var at := FirstComment(inside);
        if at == |inside| {
          at := 0;
        }
        lifted := inside[..at];
        inside := inside[at..];
      }
      if blankAbove {
        var cut := TrailingCut(pending);
        inside := inside + pending[cut..];
        pending := pending[..cut];
      } else {
        assert inside + pending[|pending|..] == inside && pending[..|pending|] == pending;
      }
      SetTrivia(node, n.trivia.(inner := n.trivia.inner + inside));
    }

    // The slots a run in front of a node goes to.
    method FileRun(node: nat, run: seq<Trivium>)
      requires node < |doc.nodes|
      requires stack != [] ==> stack[|stack| - 1].frame.node < |doc.nodes|
      modifies this`doc
      ensures View() == RunFiled(old(View()), node, run)
    {
      hide FirstEol, RestFiled;
      var rest := run;
      if stack != [] && !stack[|stack| - 1].hasChild {
        var owner := stack[|stack| - 1].frame.node;
        var k := FirstEol(rest);
        SetTrivia(owner, doc.nodes[owner].trivia.(inner := doc.nodes[owner].trivia.inner + rest[..k]));
        rest := rest[k..];
      }
      FileRest(node, rest);
    }

    // A block scalar's header is written ahead of the comment that ends its line.
    method FileRest(node: nat, run: seq<Trivium>)
      requires node < |doc.nodes|
      modifies this`doc
      ensures View() == RestFiled(old(View()), node, run)
    {
      hide FirstEol;
      var rest := run;
      var n := doc.nodes[node];
      var k := FirstEol(run);
      if n.trivia.eol.None? && n.BlockScalar() && k < |run| {
        SetTrivia(node, n.trivia.(eol := Some(run[k])));
        rest := run[..k] + run[k + 1..];
      }
      var t := doc.nodes[node].trivia;
      SetTrivia(node, t.(before := t.before + rest));
    }

    method TakeBefore(node: nat, blankAbove: bool)
      requires node < |doc.nodes|
      requires stack != [] ==> stack[|stack| - 1].frame.node < |doc.nodes|
      modifies this`doc, this`pending
      ensures View() == BeforeTaken(old(View()), node, blankAbove)
    {
      hide InsideTaken, RunFiled;
      if pending == [] {
        return;
      }
      ghost var s := View();
      var lifted: seq<Trivium> := [];
      if doc.nodes[node].BlockCollection() && stack != [] {
        InsideSame(s, node, blankAbove);
        SameStack(s, InsideTaken(s, node, blankAbove).0);
        lifted := TakeInside(node, blankAbove);
        if pending == [] && lifted == [] {
          return;
        }
      }
      assert [] + pending == pending;
      var run := lifted + pending;
      pending := [];
      FileRun(node, run);
    }

    // ---------------------------------------------------------------- nodes

    // A node with the end-of-line comment that was kept for it, and the run in front of it.
    method NewNode(bone: Bone, probe: Probe) returns (id: nat)
      requires View().Full()
      modifies this`doc, this`pending, this`ends, this`deferredEol
      ensures View() == NodeAdded(old(View()), bone, probe) && id == old(|doc.nodes|)
    {
      hide BeforeTaken;
      id := |doc.nodes|;
      doc := doc.(nodes := doc.nodes + [Node.Node(bone, probe.line, probe.col, NoTrivia.(eol := deferredEol))]);
      deferredEol := None;
      ends := ends + [probe.endLine];
      assert View() == NodeAppended(old(View()), bone, probe);
      TakeBefore(id, probe.blankAbove);
    }

    // Files a finished node in the collection around it.
    method Place(id: nat)
      modifies this`doc, this`stack, this`lastNode, this`sawNode
      ensures View() == PlacedIn(old(View()), id)
    {
      lastNode := Some(id);
      sawNode := true;
      if stack == [] {
        doc := doc.(root := Some(id));
      } else {
        var k := |stack| - 1;
        var f := stack[k];
        if f.isSeq {
          f := f.(frame := f.frame.(items := f.frame.items + [id]));
        } else if f.frame.pendingKey.Some? {
          f := f.(frame := f.frame.(entries := f.frame.entries + [Entry(f.frame.pendingKey.value, id)], pendingKey := None));
        } else {
          f := f.(frame := f.frame.(pendingKey := Some(id)));
        }
        stack := stack[k := f.(hasChild := true)];
      }
    }

    // ---------------------------------------------------------------- events

    method Leaf(e: Event, probe: Probe)
      requires View().Full() && (e.Scalar? || e.Alias?)
      modifies this
      ensures View() == LeafRead(old(View()), e, probe)
    {
      hide NodeAdded, PlacedIn, State.Valid;
      BlanksKeep(View(), probe.blanks, BlankLines(0));
      Blanks(probe.blanks);
      var id := NewNode(BoneOf(e), probe);
      Place(id);
    }

    method CollectionStart(e: Event, probe: Probe)
      requires View().Full() && (e.SequenceStart? || e.MappingStart?)
      modifies this
      ensures View() == CollectionOpened(old(View()), e, probe)
    {
      hide NodeAdded, State.Valid;
      BlanksKeep(View(), probe.blanks, BlankLines(0));
      Blanks(probe.blanks);
      var id := NewNode(BoneOf(e), probe);
      stack := stack + [OpenFrame(Frame(id, [], [], None), e.SequenceStart?, e.structure.Flow?, probe.col, false)];
    }

    method CollectionEnd(isSeq: bool, probe: Probe)
      requires View().Full() && stack != []
      requires var top := stack[|stack| - 1];
               top.frame.node < |doc.nodes| &&
               (if isSeq then doc.nodes[top.frame.node].bone.kind.Sequence? else doc.nodes[top.frame.node].bone.kind.Mapping?)
      modifies this
      ensures View() == CollectionClosed(old(View()), probe)
    {
      hide PlacedIn, FromCut, BlankRuns, FrameLinked, Finished;
      Blanks(probe.blanks);
      var f := stack[|stack| - 1];
      stack := stack[..|stack| - 1];
      var cut := if f.flow then |pending| else if stack == [] then 0 else FromCut(pending, f.col);
      var after := pending[..cut];
      pending := pending[cut..];
      var last :=
        if f.frame.entries != [] then Some(f.frame.entries[|f.frame.entries| - 1].value)
        else if f.frame.items != [] then Some(f.frame.items[|f.frame.items| - 1])
        else None;
      var end := if f.flow || last.None? || last.value >= |ends| then probe.line else ends[last.value];
      ends := ends[f.frame.node := end];
      FinishNode(f, isSeq, after);
      Place(f.frame.node);
    }

    // The children and the trivia behind them go into the collection's node.
    method FinishNode(f: OpenFrame, isSeq: bool, after: seq<Trivium>)
      requires f.frame.node < |doc.nodes|
      requires if isSeq then doc.nodes[f.frame.node].bone.kind.Sequence? else doc.nodes[f.frame.node].bone.kind.Mapping?
      modifies this`doc
      ensures View() == Finished(old(View()), f, after)
    {
      var n := doc.nodes[f.frame.node];
      var kind := if isSeq then Kind.Sequence(n.bone.kind.structure, f.frame.items)
                  else Kind.Mapping(n.bone.kind.structure, f.frame.entries);
      doc := doc.(nodes := doc.nodes[f.frame.node := n.(bone := n.bone.(kind := kind), trivia := n.trivia.(after := after))]);
    }

    // ---------------------------------------------------------------- comments

    method SetEol(id: nat, t: Trivium)
      requires id < |doc.nodes|
      modifies this`doc
      ensures doc == EolSet(old(doc), id, t)
    {
      doc := doc.(nodes := doc.nodes[id := doc.nodes[id].(trivia := doc.nodes[id].trivia.(eol := Some(t)))]);
    }

    method FileComment(t: Trivium, line: nat, beforeColon: bool)
      requires View().Valid() && t.Comment?
      modifies this`doc, this`docs, this`pending, this`deferredEol
      ensures View() == CommentFiled(old(View()), t, old(SlotOf(View(), t.ownLine, line, beforeColon)))
    {
      hide EolSet, SlotBehind;
      if t.ownLine {
        pending := pending + [t];
        return;
      }
      if stack != [] && stack[|stack| - 1].isSeq && !stack[|stack| - 1].flow && !stack[|stack| - 1].hasChild {
        pending := pending + [t];
        return;
      }
      if stack != [] {
        assert FrameLinked(stack[|stack| - 1], doc.nodes);
        hide FrameLinked;
        var n := stack[|stack| - 1].frame.node;
        if !stack[|stack| - 1].hasChild && doc.nodes[n].line == line && doc.nodes[n].trivia.eol.None? {
          SetEol(n, t);
          return;
        }
        if stack[|stack| - 1].frame.pendingKey.Some? && ends[stack[|stack| - 1].frame.pendingKey.value] == line {
          if !beforeColon {
            deferredEol := Some(t);
          } else {
            SetEol(stack[|stack| - 1].frame.pendingKey.value, t);
          }
          return;
        }
      }
      FileBehind(t, line);
    }

    // The ordinary case: behind the last node, a `...`, or a `---`.
    method FileBehind(t: Trivium, line: nat)
      requires View().Valid()
      modifies this`doc, this`docs, this`pending
      ensures View() == CommentFiled(old(View()), t, old(SlotBehind(View(), line)))
    {
      if lastNode.Some? && ends[lastNode.value] == line && doc.nodes[lastNode.value].trivia.eol.None? {
        SetEol(lastNode.value, t);
        return;
      }
      if docEndLine == Some(line) {
        if docs != [] {
          docs := docs[|docs| - 1 := docs[|docs| - 1].(trailing := docs[|docs| - 1].trailing + [t])];
          return;
        }
      } else if docStartLine == Some(line) && !sawNode {
        doc := doc.(leading := doc.leading + [t]);
        return;
      }
      pending := pending + [t];
    }

    method Comment(text: string, probe: Probe)
      requires View().Valid()
      modifies this`doc, this`docs, this`pending, this`deferredEol
      ensures View() == CommentRead(old(View()), text, probe)
    {
      BlanksKeep(View(), probe.blanks, BlankLines(0));
      SlotOfBlanks(View(), probe);
      hide SlotOf, CommentFiled, BlankRuns, State.Valid;
      Blanks(probe.blanks);
      FileComment(Trivium.Comment(text, probe.ownLine, probe.col), probe.line, probe.beforeColon);
    }

    // ---------------------------------------------------------------- documents

    method DocumentStart(explicit: bool, probe: Probe)
      modifies this
      ensures View() == DocumentBegun(old(View()), explicit, probe)
    {
      Blanks(probe.blanks);
      doc := Document(None, [], pending, []);
      pending := [];
      ends := [];
      lastNode := None;
      sawNode := false;
      docEndLine := None;
      docStartLine := if explicit then Some(probe.line) else None;
    }

    method DocumentEnd(probe: Probe)
      modifies this
      ensures View() == DocumentEnded(old(View()), probe)
    {
      Blanks(probe.blanks);
      if probe.marker {
        docEndLine := Some(probe.line);
      }
      docStartLine := None;
      lastNode := None;
      docs := docs + [doc];
      doc := NoDocument;
    }

    method StreamEnd(probe: Probe, region: bool)
      modifies this
      ensures View() == StreamEnded(old(View()), probe, region)
    {
      Blanks(probe.blanks);
      var rest := pending;
      pending := [];
      if docs == [] || region {
        docs := docs + [NoDocument];
      }
      var last := docs[|docs| - 1];
      if region {
        last := last.(leading := last.leading + rest);
      } else {
        last := last.(trailing := last.trailing + rest);
      }
      docs := docs[|docs| - 1 := last];
    }

    // ---------------------------------------------------------------- the stream

    // The event fits the state: only collections that are open end, each as what it is.
    ghost predicate Fits(e: Event)
      reads this
    {
      && CanStep(View(), e)
      && (e.SequenceEnd? || e.MappingEnd? ==>
            var node := stack[|stack| - 1].frame.node;
            node < |doc.nodes| && if e.SequenceEnd? then doc.nodes[node].bone.kind.Sequence? else doc.nodes[node].bone.kind.Mapping?)
    }

    method OnEvent(e: Event, probe: Probe, region: bool)
      requires Fits(e)
      modifies this
      ensures View() == Stepped(old(View()), e, probe, region)
    {
      hide CommentRead, DocumentBegun, DocumentEnded, CollectionClosed, StreamEnded, LeafRead, CollectionOpened, State.Valid;
      match e {
        case StreamStart =>
        case Comment(text) => Comment(text, probe);
        case DocumentStart(explicit) => DocumentStart(explicit, probe);
        case DocumentEnd => DocumentEnd(probe);
        case SequenceEnd => CollectionEnd(true, probe);
        case MappingEnd => CollectionEnd(false, probe);
        case StreamEnd => StreamEnd(probe, region);
        case Scalar(_, _, _, _) => Leaf(e, probe);
        case Alias(_) => Leaf(e, probe);
        case SequenceStart(_, _, _) => CollectionStart(e, probe);
        case MappingStart(_, _, _) => CollectionStart(e, probe);
      }
    }
  }

  // Blank lines noted first do not change where a comment goes.
  lemma SlotOfBlanks(s: State, probe: Probe)
    requires s.Valid()
    ensures BlanksNoted(s, probe.blanks).Valid()
    ensures SlotOf(BlanksNoted(s, probe.blanks), probe.ownLine, probe.line, probe.beforeColon)
         == SlotOf(s, probe.ownLine, probe.line, probe.beforeColon)
  {
  }

  // A grammatical event fits.
  lemma AllowedFits(loader: Loader, phase: Phase, commentLine: nat, e: Event)
    requires Ready(loader.View(), phase, commentLine)
    requires e.Comment? || Advance(Owes(loader.View().Shape(), phase), e).Some?
    ensures loader.Fits(e)
  {
    hide Owes, Advance, State.Shape, FrameLinked, Sound;
    if !e.Comment? {
      ReadySound(loader.View(), phase, commentLine);
      FedPays(loader.View().Shape(), phase, e, false);
      if e.SequenceEnd? || e.MappingEnd? {
        NothingDeferred(loader.View(), phase, commentLine, e);
        TopKind(loader.View());
      }
    }
  }

  lemma TopKind(s: State)
    requires s.Valid() && s.stack != []
    ensures var f := s.Top();
            f.frame.node < |s.doc.nodes| && (f.isSeq <==> s.doc.nodes[f.frame.node].bone.kind.Sequence?)
  {
    assert FrameLinked(s.Top(), s.doc.nodes);
  }

  // Loads a stream. Its documents have the shape its events say, and hold every comment and every
  // run of blank lines that came with them, none twice, but for the comments written over.
  method Load(input: seq<Input>, region: bool) returns (docs: seq<Document>)
    requires Streams(input)
    ensures docs == StateAfter(Begin, input, region).docs
    ensures TreesOf(docs) == FedAll(Empty, Structural(EventsOf(input)), region).done
    ensures forall x :: DocumentsCount(docs, x) + Count(Losses(Begin, input, region), x) == BroughtCount(input, x)
  {
    StreamKeeps(input, region);
    hide *;
    var loader := new Loader();
    StreamAwaits(input);
    ghost var phase: Phase := Start;
    ghost var commentLine: nat := 0;
    var i := 0;
    assert input[0..] == input;
    while i < |input|
      invariant 0 <= i <= |input| && fresh(loader)
      invariant StateAfter(loader.View(), input[i..], region) == StateAfter(Begin, input, region)
      invariant Awaits(loader.View(), phase, commentLine, input[i..])
    {
      ghost var line := LineAfter(input[i], commentLine);
      assert input[i..][0] == input[i] && input[i..][1..] == input[i + 1..];
      Feed(loader, input[i], input[i..], region, phase, commentLine);
      phase, commentLine := PhaseAfter(phase, input[i].event), line;
      i := i + 1;
    }
    assert input[i..] == [];
    NoInput(loader.View(), region);
    docs := loader.docs;
    DocsOf(loader);
  }

  // One event of what is left of a stream.
  method Feed(loader: Loader, first: Input, ghost rest: seq<Input>, region: bool, ghost phase: Phase, ghost commentLine: nat)
    requires rest != [] && first == rest[0] && Awaits(loader.View(), phase, commentLine, rest)
    modifies loader
    ensures StateAfter(old(loader.View()), rest, region) == StateAfter(loader.View(), rest[1..], region)
    ensures Awaits(loader.View(), PhaseAfter(phase, first.event), LineAfter(first, commentLine), rest[1..])
  {
    hide *;
    NextInput(loader.View(), phase, commentLine, rest, region);
    AwaitedFits(loader, phase, commentLine, rest);
    loader.OnEvent(first.event, first.probe, region);
  }

  // The line of the last comment.
  function LineAfter(i: Input, line: nat): nat {
    if i.event.Comment? then i.probe.line else line
  }

  // The rest of a stream.
  ghost predicate Awaits(s: State, phase: Phase, commentLine: nat, rest: seq<Input>) {
    && Ready(s, phase, commentLine) && LinesRise(rest, commentLine)
    && AdvanceAll(Owes(s.Shape(), phase), Structural(EventsOf(rest))) == Some([])
  }

  lemma StreamAwaits(input: seq<Input>)
    requires Streams(input)
    ensures Awaits(Begin, Start, 0, input)
  {
    hide Structural, EventsOf, AdvanceAll, LinesRise, Ready;
    BeginReady(BlankLines(0));
    OwesAll();
  }

  lemma AwaitedFits(loader: Loader, phase: Phase, commentLine: nat, rest: seq<Input>)
    requires rest != [] && Awaits(loader.View(), phase, commentLine, rest)
    ensures loader.Fits(rest[0].event)
  {
    hide Ready, Sound, Owes, Advance, Fed, Structural, EventsOf, AdvanceAll, LinesRise, Loader.Fits, FedAll, State.Shape;
    FirstEvent(Owes(loader.View().Shape(), phase), loader.View().Shape(), rest, false);
    AllowedFits(loader, phase, commentLine, rest[0].event);
  }

  lemma DocsOf(loader: Loader)
    ensures loader.docs == loader.View().docs
  {
  }

  lemma NoInput(s: State, region: bool)
    ensures StateAfter(s, [], region) == s
  {
  }

  // The first of what is left of a stream, and what is left behind it.
  lemma NextInput(s: State, phase: Phase, commentLine: nat, input: seq<Input>, region: bool)
    requires input != [] && Awaits(s, phase, commentLine, input)
    ensures var e, probe := input[0].event, input[0].probe;
            var n := Stepped(s, e, probe, region);
            && StateAfter(s, input, region) == StateAfter(n, input[1..], region)
            && Awaits(n, PhaseAfter(phase, e), LineAfter(input[0], commentLine), input[1..])
  {
    hide Ready, Sound, Owes, Advance, Fed, Structural, EventsOf, Stepped, LostTo, FedAll, AdvanceAll, Brought;
    var e, probe := input[0].event, input[0].probe;
    FirstEvent(Owes(s.Shape(), phase), s.Shape(), input, region);
    EveryEventTakes(s, phase, commentLine, e, probe, region, BlankLines(0));
    CommentFed(s.Shape(), e, region);
    ReadySound(s, phase, commentLine);
    if !e.Comment? {
      FedPays(s.Shape(), phase, e, region);
    }
  }
}
