// What the loader does with each event, as a function of its state, and what no event loses
// (crates/yamluna-core/src/loader.rs).
module LoaderSteps {
  import opened Results
  import opened ScalarEmitter
  import opened Events
  import opened Grammar
  import opened Arena
  import opened Trivia

  datatype Node = Node(bone: Bone, line: nat, col: nat, trivia: Slots) {
    predicate BlockCollection() {
      match bone.kind
      case Sequence(structure, _) => structure.Block?
      case Mapping(structure, _) => structure.Block?
      case _ => false
    }

    predicate BlockScalar() {
      bone.kind.Scalar? && (bone.kind.style.Literal? || bone.kind.style.Folded?)
    }
  }

  datatype Document = Document(root: Option<nat>, nodes: seq<Node>, leading: seq<Trivium>, trailing: seq<Trivium>)

  const NoDocument := Document(None, [], [], [])

  // An open collection; `col` is the column its content starts at.
  datatype OpenFrame = OpenFrame(frame: Frame, isSeq: bool, flow: bool, col: nat, hasChild: bool)

  // What the loader reads off the source around an event: the runs of blank lines in front of it,
  // where it starts and on which line it ends, and what stands near it.
  datatype Probe = Probe(
    blanks: seq<nat>,
    line: nat,
    col: nat,
    endLine: nat,
    ownLine: bool,      // only white space in front of a comment on its line
    beforeColon: bool,  // a comment stands between a key and its `:`
    blankAbove: bool,   // the line above a node is blank
    marker: bool)       // a document's end is written out

  // ------------------------------------------------------------------ how often a trivium is held

  function Count(p: seq<Trivium>, x: Trivium): nat {
    multiset(p)[x]
  }

  lemma CountJoin(a: seq<Trivium>, b: seq<Trivium>, x: Trivium)
    ensures Count(a + b, x) == Count(a, x) + Count(b, x)
  {
  }

  // A run and the two parts it is cut into.
  lemma CountCut(p: seq<Trivium>, i: nat, x: Trivium)
    requires i <= |p|
    ensures Count(p, x) == Count(p[..i], x) + Count(p[i..], x)
  {
    assert p == p[..i] + p[i..];
  }

  lemma CountNone(x: Trivium)
    ensures Count([], x) == 0
  {
  }

  lemma CountOne(t: Trivium, x: Trivium)
    ensures Count([t], x) == EolCount(Some(t), x)
  {
  }

  function EolCount(eol: Option<Trivium>, x: Trivium): nat {
    if eol == Some(x) then 1 else 0
  }

  lemma NoEol(x: Trivium)
    ensures EolCount(None, x) == 0
  {
  }

  function SlotsCount(s: Slots, x: Trivium): nat {
    Count(s.before, x) + EolCount(s.eol, x) + Count(s.inner, x) + Count(s.after, x)
  }

  function NodesCount(ns: seq<Node>, x: Trivium): nat
    decreases |ns|
  {
    if ns == [] then 0 else NodesCount(ns[..|ns| - 1], x) + SlotsCount(ns[|ns| - 1].trivia, x)
  }

  function DocumentCount(d: Document, x: Trivium): nat {
    Count(d.leading, x) + NodesCount(d.nodes, x) + Count(d.trailing, x)
  }

  function DocumentsCount(ds: seq<Document>, x: Trivium): nat
    decreases |ds|
  {
    if ds == [] then 0 else DocumentsCount(ds[..|ds| - 1], x) + DocumentCount(ds[|ds| - 1], x)
  }

  lemma AddsInner(s: Slots, more: seq<Trivium>, x: Trivium)
    ensures SlotsCount(s.(inner := s.inner + more), x) == SlotsCount(s, x) + Count(more, x)
  {
    CountJoin(s.inner, more, x);
  }

  lemma NodesCountAdd(ns: seq<Node>, n: Node, x: Trivium)
    ensures NodesCount(ns + [n], x) == NodesCount(ns, x) + SlotsCount(n.trivia, x)
  {
    assert (ns + [n])[..|ns|] == ns;
  }

  lemma {:induction false} NodesCountSet(ns: seq<Node>, i: nat, n: Node, x: Trivium)
    requires i < |ns|
    ensures NodesCount(ns[i := n], x) + SlotsCount(ns[i].trivia, x) == NodesCount(ns, x) + SlotsCount(n.trivia, x)
    decreases |ns|
  {
    hide SlotsCount;
    var k := |ns| - 1;
    if i == k {
      assert ns[i := n][..k] == ns[..k];
    } else {
      assert ns[i := n][..k] == ns[..k][i := n];
      NodesCountSet(ns[..k], i, n, x);
    }
  }

  lemma DocumentsCountAdd(ds: seq<Document>, d: Document, x: Trivium)
    ensures DocumentsCount(ds + [d], x) == DocumentsCount(ds, x) + DocumentCount(d, x)
  {
    assert (ds + [d])[..|ds|] == ds;
  }

  lemma DocumentsCountLast(ds: seq<Document>, d: Document, x: Trivium)
    requires ds != []
    ensures DocumentsCount(ds[|ds| - 1 := d], x) + DocumentCount(ds[|ds| - 1], x) == DocumentsCount(ds, x) + DocumentCount(d, x)
  {
    hide DocumentCount;
    assert ds[|ds| - 1 := d][..|ds| - 1] == ds[..|ds| - 1];
  }

  // ------------------------------------------------------------------ shape

  function Bones(ns: seq<Node>): (r: seq<Bone>)
    ensures |r| == |ns| && forall i | 0 <= i < |ns| :: r[i] == ns[i].bone
  {
    seq(|ns|, i requires 0 <= i < |ns| => ns[i].bone)
  }

  function TreeOf(d: Document): Arena.Tree {
    Arena.Tree(d.root, Bones(d.nodes))
  }

  function TreesOf(ds: seq<Document>): (r: seq<Arena.Tree>)
    ensures |r| == |ds| && forall i | 0 <= i < |ds| :: r[i] == TreeOf(ds[i])
  {
    seq(|ds|, i requires 0 <= i < |ds| => TreeOf(ds[i]))
  }

  function FramesOf(fs: seq<OpenFrame>): (r: seq<Frame>)
    ensures |r| == |fs| && forall i | 0 <= i < |fs| :: r[i] == fs[i].frame
  {
    seq(|fs|, i requires 0 <= i < |fs| => fs[i].frame)
  }

  lemma Cut3(p: seq<Trivium>, s: nat, e: nat, x: Trivium)
    requires s <= e <= |p|
    ensures Count(p, x) == Count(p[..s], x) + Count(p[s..e], x) + Count(p[e..], x)
  {
    CountCut(p, s, x);
    CountCut(p[s..], e - s, x);
    assert p[s..][..e - s] == p[s..e];
    assert p[s..][e - s..] == p[e..];
  }

  // The blank runs in front of an event, as trivia.
  function BlankRuns(runs: seq<nat>): seq<Trivium> {
    seq(|runs|, i requires 0 <= i < |runs| => BlankLines(runs[i]))
  }

  function FirstComment(p: seq<Trivium>): (i: nat)
    ensures i <= |p|
  {
    if p == [] || p[0].Comment? then 0 else 1 + FirstComment(p[1..])
  }

  function FirstEol(p: seq<Trivium>): (i: nat)
    ensures i <= |p|
  {
    if p == [] || p[0].EndOfLine() then 0 else 1 + FirstEol(p[1..])
  }

  // A frame's node and children are in the arena.
  predicate FrameLinked(f: OpenFrame, nodes: seq<Node>) {
    && f.frame.node < |nodes| && nodes[f.frame.node].trivia.after == []
    && (f.isSeq <==> nodes[f.frame.node].bone.kind.Sequence?)
    && (forall i | 0 <= i < |f.frame.items| :: f.frame.items[i] < |nodes|)
    && (forall i | 0 <= i < |f.frame.entries| :: f.frame.entries[i].value < |nodes|)
    && (f.frame.pendingKey.Some? ==> !f.isSeq && f.frame.pendingKey.value < |nodes|)
  }

  // The document with `t` at the end of a node's line.
  function EolSet(d: Document, id: nat, t: Trivium): Document
    requires id < |d.nodes|
  {
    d.(nodes := d.nodes[id := d.nodes[id].(trivia := d.nodes[id].trivia.(eol := Some(t)))])
  }

  // The places a comment can go: the waiting run, a node's end of line, the key's although it may
  // have one, the value still to come, or the document before or at hand.
  datatype Slot = Waiting | OfNode(id: nat) | OfKey(id: nat) | Deferred | Trailing | Leading

  lemma ChildLinked(f: OpenFrame, nodes: seq<Node>, id: nat)
    requires FrameLinked(f, nodes) && id < |nodes|
    ensures FrameLinked(f.(frame := Arena.Filed(f.frame, f.isSeq, id), hasChild := true), nodes)
  {
  }

  // The frames once a finished node is filed in the innermost.
  function StackFiled(fs: seq<OpenFrame>, id: nat): seq<OpenFrame> {
    if fs == [] then []
    else
      var k := |fs| - 1;
      fs[k := fs[k].(frame := Arena.Filed(fs[k].frame, fs[k].isSeq, id), hasChild := true)]
  }

  // ------------------------------------------------------------------ the state

  datatype State = State(
    docs: seq<Document>, doc: Document, stack: seq<OpenFrame>, pending: seq<Trivium>, ends: seq<nat>,
    lastNode: Option<nat>, deferredEol: Option<Trivium>, docStartLine: Option<nat>, docEndLine: Option<nat>, sawNode: bool)
  {
    function Shape(): Shape {
      Arena.Shape(TreeOf(doc), FramesOf(stack), TreesOf(docs))
    }

    // How often a trivium is held.
    function Held(x: Trivium): nat {
      DocumentsCount(docs, x) + DocumentCount(doc, x) + Count(pending, x) + EolCount(deferredEol, x)
    }

    // Every open collection is in the arena, and so is every child filed in one.
    predicate Linked() {
      && (forall i | 0 <= i < |stack| :: FrameLinked(stack[i], doc.nodes))
      && (forall i, j | 0 <= i < j < |stack| :: stack[i].frame.node < stack[j].frame.node)
    }

    // Where each node ends is known as long as anything may ask.
    predicate Valid() {
      && Linked()
      && (stack != [] || lastNode.Some? ==> |ends| == |doc.nodes|)
      && (lastNode.Some? ==> lastNode.value < |doc.nodes|)
    }

    predicate Full() {
      Valid() && |ends| == |doc.nodes|
    }

    function Top(): OpenFrame
      requires stack != []
    {
      stack[|stack| - 1]
    }
  }

  const Begin := State([], NoDocument, [], [], [], None, None, None, None, false)

  // ------------------------------------------------------------------ trivia of nodes

  // A node of the arena gets other trivia and nothing else changes.
  function TriviaSet(s: State, id: nat, t: Slots): State
    requires id < |s.doc.nodes|
  {
    s.(doc := s.doc.(nodes := s.doc.nodes[id := s.doc.nodes[id].(trivia := t)]))
  }

  lemma TriviaSetKeeps(s: State, id: nat, t: Slots, x: Trivium)
    requires id < |s.doc.nodes|
    ensures var n := TriviaSet(s, id, t);
            && n.Held(x) + SlotsCount(s.doc.nodes[id].trivia, x) == s.Held(x) + SlotsCount(t, x)
            && n.Shape() == s.Shape()
  {
    hide Count, NodesCount, SlotsCount, DocumentsCount;
    NodesCountSet(s.doc.nodes, id, s.doc.nodes[id].(trivia := t), x);
    assert Bones(TriviaSet(s, id, t).doc.nodes) == Bones(s.doc.nodes);
  }

  function BlanksNoted(s: State, runs: seq<nat>): State {
    s.(pending := s.pending + BlankRuns(runs))
  }

  lemma BlanksKeep(s: State, runs: seq<nat>, x: Trivium)
    ensures BlanksNoted(s, runs).Held(x) == s.Held(x) + Count(BlankRuns(runs), x)
    ensures BlanksNoted(s, runs).Shape() == s.Shape() && (s.Valid() ==> BlanksNoted(s, runs).Valid())
  {
    hide Count, DocumentCount, DocumentsCount;
    CountJoin(s.pending, BlankRuns(runs), x);
  }

  // ------------------------------------------------------------------ the run in front of a node

  // How many of the run stand in front of its first comment, if it has one.
  function HeadBlanks(p: seq<Trivium>): (i: nat)
    ensures i <= |p|
  {
    if FirstComment(p) < |p| then FirstComment(p) else 0
  }

  // A block collection that opens takes the part of the run indented into it; what stays
  // between it and the sibling before it is handed back.
  function InsideTaken(s: State, node: nat, blankAbove: bool): (State, seq<Trivium>)
    requires node < |s.doc.nodes| && s.stack != []
  {
    var n := s.doc.nodes[node];
    var inside := s.pending[ToStart(s.pending, n.col)..ToEnd(s.pending, n.col)];
    var rest := s.pending[..ToStart(s.pending, n.col)] + s.pending[ToEnd(s.pending, n.col)..];
    var at := if s.Top().hasChild then HeadBlanks(inside) else 0;
    var cut := if blankAbove then TrailingCut(rest) else |rest|;
    (TriviaSet(s.(pending := rest[..cut]), node, n.trivia.(inner := n.trivia.inner + (inside[at..] + rest[cut..]))),
     inside[..at])
  }

  // The slots a run in front of a node goes to: a collection without children owns what was written
  // before its first child, up to an end-of-line comment; a block scalar's header is written ahead
  // of the comment that ends its line; and the rest stands before the node.
  function RunFiled(s: State, node: nat, run: seq<Trivium>): State
    requires node < |s.doc.nodes| && (s.stack != [] ==> s.Top().frame.node < |s.doc.nodes|)
  {
    if s.stack != [] && !s.Top().hasChild then
      var owner := s.Top().frame.node;
      var t := s.doc.nodes[owner].trivia;
      RestFiled(TriviaSet(s, owner, t.(inner := t.inner + run[..FirstEol(run)])), node, run[FirstEol(run)..])
    else RestFiled(s, node, run)
  }

  function RestFiled(s: State, node: nat, run: seq<Trivium>): State
    requires node < |s.doc.nodes|
  {
    var n := s.doc.nodes[node];
    var k := FirstEol(run);
    if n.trivia.eol.None? && n.BlockScalar() && k < |run| then
      TriviaSet(s, node, n.trivia.(eol := Some(run[k]), before := n.trivia.before + (run[..k] + run[k + 1..])))
    else TriviaSet(s, node, n.trivia.(before := n.trivia.before + run))
  }

  function BeforeTaken(s: State, node: nat, blankAbove: bool): State
    requires node < |s.doc.nodes| && (s.stack != [] ==> s.Top().frame.node < |s.doc.nodes|)
  {
    if s.pending == [] then s
    else if s.doc.nodes[node].BlockCollection() && s.stack != [] then
      var (a, lifted) := InsideTaken(s, node, blankAbove);
      if a.pending == [] && lifted == [] then a else RunFiled(a.(pending := []), node, lifted + a.pending)
    else RunFiled(s.(pending := []), node, s.pending)
  }

  lemma InsideKeeps(s: State, node: nat, blankAbove: bool, x: Trivium)
    requires node < |s.doc.nodes| && s.stack != []
    ensures var (a, lifted) := InsideTaken(s, node, blankAbove);
            a.Held(x) + Count(lifted, x) == s.Held(x) && a.Shape() == s.Shape()
  {
    hide Count, DocumentCount, DocumentsCount, ToStart, ToEnd, TrailingCut, SlotsCount, NodesCount, HeadBlanks;
    var n := s.doc.nodes[node];
    var i, j := ToStart(s.pending, n.col), ToEnd(s.pending, n.col);
    var inside, rest := s.pending[i..j], s.pending[..i] + s.pending[j..];
    var at := if s.Top().hasChild then HeadBlanks(inside) else 0;
    var cut := if blankAbove then TrailingCut(rest) else |rest|;
    var more := inside[at..] + rest[cut..];
    Cut3(s.pending, i, j, x);
    CountJoin(s.pending[..i], s.pending[j..], x);
    CountCut(inside, at, x);
    CountCut(rest, cut, x);
    CountJoin(inside[at..], rest[cut..], x);
    AddsInner(n.trivia, more, x);
    TriviaSetKeeps(s.(pending := rest[..cut]), node, n.trivia.(inner := n.trivia.inner + more), x);
  }

  lemma RestKeeps(s: State, node: nat, run: seq<Trivium>, x: Trivium)
    requires node < |s.doc.nodes|
    ensures var n := RestFiled(s, node, run); n.Held(x) == s.Held(x) + Count(run, x) && n.Shape() == s.Shape()
  {
    hide Count, DocumentCount, DocumentsCount, NodesCount;
    var t := s.doc.nodes[node].trivia;
    var k := FirstEol(run);
    CountJoin(t.before, run, x);
    if t.eol.None? && s.doc.nodes[node].BlockScalar() && k < |run| {
      Cut3(run, k, k + 1, x);
      assert run[k..k + 1] == [run[k]];
      CountOne(run[k], x);
      CountJoin(run[..k], run[k + 1..], x);
      CountJoin(t.before, run[..k] + run[k + 1..], x);
      TriviaSetKeeps(s, node, t.(eol := Some(run[k]), before := t.before + (run[..k] + run[k + 1..])), x);
    } else {
      TriviaSetKeeps(s, node, t.(before := t.before + run), x);
    }
  }

  lemma RunKeeps(s: State, node: nat, run: seq<Trivium>, x: Trivium)
    requires node < |s.doc.nodes| && (s.stack != [] ==> s.Top().frame.node < |s.doc.nodes|)
    ensures var n := RunFiled(s, node, run); n.Held(x) == s.Held(x) + Count(run, x) && n.Shape() == s.Shape()
  {
    hide Count, DocumentCount, DocumentsCount, NodesCount, RestFiled, SlotsCount;
    if s.stack != [] && !s.Top().hasChild {
      var owner, k := s.Top().frame.node, FirstEol(run);
      var t := s.doc.nodes[owner].trivia;
      CountCut(run, k, x);
      AddsInner(t, run[..k], x);
      TriviaSetKeeps(s, owner, t.(inner := t.inner + run[..k]), x);
      RestKeeps(TriviaSet(s, owner, t.(inner := t.inner + run[..k])), node, run[k..], x);
    } else {
      RestKeeps(s, node, run, x);
    }
  }

  // Nothing else about the arena has changed.
  predicate SameBut(s: State, n: State) {
    && n == s.(doc := n.doc, pending := n.pending) && n.doc == s.doc.(nodes := n.doc.nodes) && |n.doc.nodes| == |s.doc.nodes|
    && forall i | 0 <= i < |n.doc.nodes| ::
         n.doc.nodes[i] == s.doc.nodes[i].(trivia := n.doc.nodes[i].trivia)
         && n.doc.nodes[i].trivia.after == s.doc.nodes[i].trivia.after
  }

  lemma TriviaSame(s: State, id: nat, t: Slots)
    requires id < |s.doc.nodes| && t.after == s.doc.nodes[id].trivia.after
    ensures SameBut(s, TriviaSet(s, id, t))
  {
  }

  lemma SameTwice(a: State, b: State, c: State)
    requires SameBut(a, b) && SameBut(b, c)
    ensures SameBut(a, c)
  {
  }

  lemma RestSame(s: State, node: nat, run: seq<Trivium>)
    requires node < |s.doc.nodes|
    ensures SameBut(s, RestFiled(s, node, run)) && RestFiled(s, node, run).pending == s.pending
  {
    hide SameBut, FirstEol;
    var t := s.doc.nodes[node].trivia;
    var k := FirstEol(run);
    if t.eol.None? && s.doc.nodes[node].BlockScalar() && k < |run| {
      TriviaSame(s, node, t.(eol := Some(run[k]), before := t.before + (run[..k] + run[k + 1..])));
    } else {
      TriviaSame(s, node, t.(before := t.before + run));
    }
  }

  lemma RunSame(s: State, node: nat, run: seq<Trivium>)
    requires node < |s.doc.nodes| && (s.stack != [] ==> s.Top().frame.node < |s.doc.nodes|)
    ensures SameBut(s, RunFiled(s, node, run)) && RunFiled(s, node, run).pending == s.pending
  {
    hide SameBut, FirstEol, RestFiled;
    if s.stack != [] && !s.Top().hasChild {
      var owner, k := s.Top().frame.node, FirstEol(run);
      var t := s.doc.nodes[owner].trivia;
      var m := TriviaSet(s, owner, t.(inner := t.inner + run[..k]));
      TriviaSame(s, owner, t.(inner := t.inner + run[..k]));
      RestSame(m, node, run[k..]);
      SameTwice(s, m, RestFiled(m, node, run[k..]));
    } else {
      RestSame(s, node, run);
    }
  }

  lemma PendingSame(s: State, p: seq<Trivium>)
    ensures SameBut(s, s.(pending := p))
  {
  }

  lemma InsideSame(s: State, node: nat, blankAbove: bool)
    requires node < |s.doc.nodes| && s.stack != []
    ensures SameBut(s, InsideTaken(s, node, blankAbove).0)
  {
    hide SameBut, ToStart, ToEnd, TrailingCut, HeadBlanks;
    var n := s.doc.nodes[node];
    var a := InsideTaken(s, node, blankAbove).0;
    var t := a.doc.nodes[node].trivia;
    PendingSame(s, a.pending);
    TriviaSame(s.(pending := a.pending), node, t);
    SameTwice(s, s.(pending := a.pending), a);
  }

  lemma SameStack(s: State, n: State)
    requires SameBut(s, n)
    ensures n.stack == s.stack && |n.doc.nodes| == |s.doc.nodes|
  {
  }

  lemma BeforeSame(s: State, node: nat, blankAbove: bool)
    requires node < |s.doc.nodes| && (s.stack != [] ==> s.Top().frame.node < |s.doc.nodes|)
    ensures SameBut(s, BeforeTaken(s, node, blankAbove)) && BeforeTaken(s, node, blankAbove).pending == []
  {
    hide SameBut, InsideTaken, RunFiled;
    PendingSame(s, s.pending);
    if s.pending != [] {
      if s.doc.nodes[node].BlockCollection() && s.stack != [] {
        var (a, lifted) := InsideTaken(s, node, blankAbove);
        InsideSame(s, node, blankAbove);
        SameStack(s, a);
        if !(a.pending == [] && lifted == []) {
          PendingSame(a, []);
          SameTwice(s, a, a.(pending := []));
          RunSame(a.(pending := []), node, lifted + a.pending);
          SameTwice(s, a.(pending := []), RunFiled(a.(pending := []), node, lifted + a.pending));
        }
      } else {
        PendingSame(s, []);
        RunSame(s.(pending := []), node, s.pending);
        SameTwice(s, s.(pending := []), RunFiled(s.(pending := []), node, s.pending));
      }
    }
  }

  lemma SameValid(s: State, n: State)
    requires SameBut(s, n) && s.Valid()
    ensures n.Valid()
  {
  }

  // Taking the run in front of a node loses none of it.
  lemma BeforeKeeps(s: State, node: nat, blankAbove: bool, x: Trivium)
    requires node < |s.doc.nodes| && (s.stack != [] ==> s.Top().frame.node < |s.doc.nodes|)
    ensures var n := BeforeTaken(s, node, blankAbove); n.Held(x) == s.Held(x) && n.Shape() == s.Shape()
  {
    hide Count, DocumentCount, DocumentsCount, NodesCount, SlotsCount, InsideTaken, RunFiled, SameBut;
    CountNone(x);
    if s.pending != [] {
      if s.doc.nodes[node].BlockCollection() && s.stack != [] {
        var (a, lifted) := InsideTaken(s, node, blankAbove);
        InsideKeeps(s, node, blankAbove, x);
        CountJoin(lifted, a.pending, x);
        InsideSame(s, node, blankAbove);
        SameStack(s, a);
        if !(a.pending == [] && lifted == []) {
          RunKeeps(a.(pending := []), node, lifted + a.pending, x);
        }
      } else {
        RunKeeps(s.(pending := []), node, s.pending, x);
      }
    }
  }

  // ------------------------------------------------------------------ nodes

  // The node takes the end-of-line comment that was kept for it, and the run in front of it.
  function NodeAdded(s: State, bone: Bone, probe: Probe): State
    requires s.Valid()
  {
    BeforeTaken(NodeAppended(s, bone, probe), |s.doc.nodes|, probe.blankAbove)
  }

  function NodeAppended(s: State, bone: Bone, probe: Probe): State {
    var n := Node.Node(bone, probe.line, probe.col, NoTrivia.(eol := s.deferredEol));
    s.(doc := s.doc.(nodes := s.doc.nodes + [n]), ends := s.ends + [probe.endLine], deferredEol := None)
  }

  lemma AppendedIs(s: State, bone: Bone, probe: Probe, x: Trivium)
    requires s.Full()
    ensures var n := NodeAppended(s, bone, probe);
            && n.Full() && n.Shape() == Grown(s.Shape(), bone) && n.Held(x) == s.Held(x)
  {
    hide Count, DocumentsCount;
    var n := Node.Node(bone, probe.line, probe.col, NoTrivia.(eol := s.deferredEol));
    NodesCountAdd(s.doc.nodes, n, x);
    CountNone(x);
    assert Bones(s.doc.nodes + [n]) == Bones(s.doc.nodes) + [bone];
  }

  // What adding a node leaves.
  predicate Gained(s: State, n: State, bone: Bone, probe: Probe) {
    var id := |s.doc.nodes|;
    && n.Full() && |n.doc.nodes| == id + 1 && n.doc.nodes[id].bone == bone && n.doc.nodes[id].trivia.after == []
    && n.ends == s.ends + [probe.endLine] && n.pending == [] && n.deferredEol == None
    && n == s.(doc := n.doc, ends := n.ends, pending := n.pending, deferredEol := None)
    && n.doc == s.doc.(nodes := n.doc.nodes)
  }

  lemma NodeAddedIs(s: State, bone: Bone, probe: Probe, x: Trivium)
    requires s.Full()
    ensures var n := NodeAdded(s, bone, probe);
            Gained(s, n, bone, probe) && n.Shape() == Grown(s.Shape(), bone) && n.Held(x) == s.Held(x)
  {
    hide Count, DocumentCount, DocumentsCount, NodesCount, BeforeTaken, Grown;
    var a := NodeAppended(s, bone, probe);
    AppendedIs(s, bone, probe, x);
    BeforeKeeps(a, |s.doc.nodes|, probe.blankAbove, x);
    BeforeSame(a, |s.doc.nodes|, probe.blankAbove);
    SameValid(a, BeforeTaken(a, |s.doc.nodes|, probe.blankAbove));
  }

  // Files a finished node in the collection around it.
  function PlacedIn(s: State, id: nat): State {
    var a := s.(lastNode := Some(id), sawNode := true);
    if s.stack == [] then a.(doc := s.doc.(root := Some(id))) else a.(stack := StackFiled(s.stack, id))
  }

  lemma PlacedIs(s: State, id: nat, x: Trivium)
    requires s.Full() && id < |s.doc.nodes|
    ensures var n := PlacedIn(s, id);
            n.Full() && n.Shape() == Placed(s.Shape(), id) && n.Held(x) == s.Held(x)
  {
    hide Count, NodesCount, DocumentsCount, Arena.Filed, FrameLinked;
    if s.stack != [] {
      var k := |s.stack| - 1;
      var f := s.stack[k];
      assert FrameLinked(f, s.doc.nodes);
      ChildLinked(f, s.doc.nodes, id);
      FrameKind(f, s);
      FiledNode(f.frame, f.isSeq, id);
      assert FramesOf(StackFiled(s.stack, id)) == FramesOf(s.stack)[k := Arena.Filed(f.frame, f.isSeq, id)];
    }
  }

  lemma FiledNode(f: Frame, isSeq: bool, id: nat)
    ensures Arena.Filed(f, isSeq, id).node == f.node
  {
  }

  lemma FrameKind(f: OpenFrame, s: State)
    requires FrameLinked(f, s.doc.nodes)
    ensures f.isSeq == IsSequence(s.Shape(), f.frame.node)
  {
  }

  // ------------------------------------------------------------------ events

  function LeafRead(s: State, e: Event, probe: Probe): State
    requires s.Valid() && IsNodeEvent(e)
  {
    PlacedIn(NodeAdded(BlanksNoted(s, probe.blanks), BoneOf(e), probe), |s.doc.nodes|)
  }

  function CollectionOpened(s: State, e: Event, probe: Probe): State
    requires s.Valid() && (e.SequenceStart? || e.MappingStart?)
  {
    var n := NodeAdded(BlanksNoted(s, probe.blanks), BoneOf(e), probe);
    n.(stack := n.stack + [OpenFrame(Frame(|s.doc.nodes|, [], [], None), e.SequenceStart?, e.structure.Flow?, probe.col, false)])
  }

  // What an event does to the trees, and that it loses nothing.
  predicate Does(s: State, n: State, shape: Shape, more: seq<Trivium>, x: Trivium) {
    n.Full() && n.Shape() == shape && n.Held(x) == s.Held(x) + Count(more, x)
  }

  lemma LeafIs(s: State, e: Event, probe: Probe, x: Trivium)
    requires s.Full() && (e.Scalar? || e.Alias?)
    ensures var n := LeafRead(s, e, probe);
            && Does(s, n, Fed(s.Shape(), e, false), BlankRuns(probe.blanks), x) && n.deferredEol == None
            && n == s.(doc := n.doc, stack := n.stack, pending := n.pending, ends := n.ends, deferredEol := None,
                       lastNode := n.lastNode, sawNode := true)
  {
    hide Count, DocumentCount, DocumentsCount, NodesCount, NodeAdded, Placed, Grown, FrameLinked;
    var b := BlanksNoted(s, probe.blanks);
    BlanksKeep(s, probe.blanks, x);
    NodeAddedIs(b, BoneOf(e), probe, x);
    PlacedIs(NodeAdded(b, BoneOf(e), probe), |s.doc.nodes|, x);
  }

  lemma OpenedIs(s: State, e: Event, probe: Probe, x: Trivium)
    requires s.Full() && (e.SequenceStart? || e.MappingStart?)
    ensures var n := CollectionOpened(s, e, probe);
            && Does(s, n, Fed(s.Shape(), e, false), BlankRuns(probe.blanks), x) && n.deferredEol == None
            && n == s.(doc := n.doc, stack := n.stack, pending := n.pending, ends := n.ends, deferredEol := None)
  {
    hide Count, DocumentCount, DocumentsCount, NodesCount, NodeAdded, Grown;
    var b := BlanksNoted(s, probe.blanks);
    var n := NodeAdded(b, BoneOf(e), probe);
    BlanksKeep(s, probe.blanks, x);
    NodeAddedIs(b, BoneOf(e), probe, x);
    OpensBone(e);
    FramePushed(n, |s.doc.nodes|, e.SequenceStart?, e.structure.Flow?, probe.col);
  }

  lemma FramePushed(s: State, id: nat, isSeq: bool, flow: bool, col: nat)
    requires s.Full() && id < |s.doc.nodes| && s.doc.nodes[id].trivia.after == []
    requires (isSeq <==> s.doc.nodes[id].bone.kind.Sequence?) && forall i | 0 <= i < |s.stack| :: s.stack[i].frame.node < id
    ensures var n := s.(stack := s.stack + [OpenFrame(Frame(id, [], [], None), isSeq, flow, col, false)]);
            n.Full() && n.Shape() == s.Shape().(stack := s.Shape().stack + [Frame(id, [], [], None)])
  {
    var stack := s.stack + [OpenFrame(Frame(id, [], [], None), isSeq, flow, col, false)];
    assert FramesOf(stack) == FramesOf(s.stack) + [Frame(id, [], [], None)];
  }

  // The line a closing collection ends on.
  function EndLine(f: OpenFrame, ends: seq<nat>, line: nat): nat {
    var last :=
      if f.frame.entries != [] then Some(f.frame.entries[|f.frame.entries| - 1].value)
      else if f.frame.items != [] then Some(f.frame.items[|f.frame.items| - 1])
      else None;
    if f.flow || last.None? || last.value >= |ends| then line else ends[last.value]
  }

  // How much of the run a closing collection keeps: all of it inside brackets, nothing at the root,
  // and otherwise what is indented to its content.
  function AfterCut(p: seq<Trivium>, f: OpenFrame, root: bool): (i: nat)
    ensures i <= |p|
  {
    if f.flow then |p| else if root then 0 else FromCut(p, f.col)
  }

  function CollectionClosed(s: State, probe: Probe): State
    requires s.Full() && s.stack != []
  {
    var p := s.pending + BlankRuns(probe.blanks);
    var f := s.Top();
    var stack := s.stack[..|s.stack| - 1];
    var cut := AfterCut(p, f, stack == []);
    assert FrameLinked(f, s.doc.nodes);
    PlacedIn(Finished(s.(stack := stack, pending := p[cut..], ends := s.ends[f.frame.node := EndLine(f, s.ends, probe.line)]),
                      f, p[..cut]), f.frame.node)
  }

  // The children and the trivia behind them go into the node of a closed collection.
  function Finished(s: State, f: OpenFrame, after: seq<Trivium>): State
    requires f.frame.node < |s.doc.nodes|
  {
    var n := s.doc.nodes[f.frame.node];
    var m := n.(bone := Filled(n.bone, f.frame), trivia := n.trivia.(after := after));
    s.(doc := s.doc.(nodes := s.doc.nodes[f.frame.node := m]))
  }

  lemma FinishedIs(s: State, f: OpenFrame, after: seq<Trivium>, x: Trivium)
    requires s.Full() && FrameLinked(f, s.doc.nodes)
    requires f.isSeq || s.doc.nodes[f.frame.node].bone.kind.Mapping?
    requires forall i | 0 <= i < |s.stack| :: s.stack[i].frame.node < f.frame.node
    ensures var n := Finished(s, f, after);
            && n.Full() && n.Held(x) == s.Held(x) + Count(after, x)
            && n.Shape() == s.Shape().(tree := s.Shape().tree.(bones :=
                 s.Shape().tree.bones[f.frame.node := Filled(s.doc.nodes[f.frame.node].bone, f.frame)]))
  {
    hide Count, DocumentsCount;
    var n := s.doc.nodes[f.frame.node];
    CountNone(x);
    var m := n.(bone := Filled(n.bone, f.frame), trivia := n.trivia.(after := after));
    NodesCountSet(s.doc.nodes, f.frame.node, m, x);
    assert Bones(Finished(s, f, after).doc.nodes) == Bones(s.doc.nodes)[f.frame.node := m.bone];
  }

  lemma FramePopped(s: State, ends: seq<nat>)
    requires s.Full() && s.stack != [] && |ends| == |s.ends|
    ensures var n := s.(stack := s.stack[..|s.stack| - 1], ends := ends);
            && n.Full() && FrameLinked(s.Top(), s.doc.nodes)
            && (forall i | 0 <= i < |n.stack| :: n.stack[i].frame.node < s.Top().frame.node)
            && n.Shape() == s.Shape().(stack := s.Shape().stack[..|s.stack| - 1])
  {
    assert FramesOf(s.stack[..|s.stack| - 1]) == FramesOf(s.stack)[..|s.stack| - 1];
  }

  lemma ClosedIs(s: State, probe: Probe, x: Trivium)
    requires s.Full() && s.stack != [] && (s.Top().isSeq || s.doc.nodes[s.Top().frame.node].bone.kind.Mapping?)
    requires s.Top().frame.node < |s.doc.nodes|
    ensures var n := CollectionClosed(s, probe);
            && Does(s, n, Closed(s.Shape()), BlankRuns(probe.blanks), x) && n.deferredEol == s.deferredEol
            && n == s.(doc := n.doc, stack := n.stack, pending := n.pending, ends := n.ends, lastNode := n.lastNode, sawNode := true)
  {
    hide Count, DocumentCount, DocumentsCount, NodesCount, Placed, FromCut, SlotsCount, EndLine, BlankRuns, Filled, StackFiled,
         FrameLinked, AfterCut, Finished, PlacedIn;
    var b := BlanksNoted(s, probe.blanks);
    BlanksKeep(s, probe.blanks, x);
    var f := s.Top();
    var ends := s.ends[f.frame.node := EndLine(f, s.ends, probe.line)];
    FramePopped(b, ends);
    var cut := AfterCut(b.pending, f, |s.stack| == 1);
    CountCut(b.pending, cut, x);
    var popped := b.(stack := s.stack[..|s.stack| - 1], ends := ends, pending := b.pending[cut..]);
    FinishedIs(popped, f, b.pending[..cut], x);
    PlacedIs(Finished(popped, f, b.pending[..cut]), f.frame.node, x);
    FinishedSame(popped, f, b.pending[..cut]);
    PlacedSame(Finished(popped, f, b.pending[..cut]), f.frame.node);
  }

  lemma FinishedSame(s: State, f: OpenFrame, after: seq<Trivium>)
    requires f.frame.node < |s.doc.nodes|
    ensures Finished(s, f, after) == s.(doc := Finished(s, f, after).doc) && |Finished(s, f, after).doc.nodes| == |s.doc.nodes|
  {
  }

  lemma PlacedSame(s: State, id: nat)
    ensures var n := PlacedIn(s, id); n == s.(doc := n.doc, stack := n.stack, lastNode := Some(id), sawNode := true)
  {
  }

  // ------------------------------------------------------------------ comments

  // A node that starts on the line of a comment and has no end-of-line comment yet.
  predicate Owns(n: Node, line: nat) {
    n.line == line && n.trivia.eol.None?
  }

  // A block sequence without items: its `-` introduces the item.
  predicate OpensOnDash(f: OpenFrame) {
    f.isSeq && !f.flow && !f.hasChild
  }

  // Where an end-of-line or an own-line comment on line `line` belongs.
  function SlotOf(s: State, ownLine: bool, line: nat, beforeColon: bool): Slot
    requires s.Valid()
  {
    if ownLine || (s.stack != [] && OpensOnDash(s.Top())) then Waiting
    else if s.stack != [] && !s.Top().hasChild && Owns(s.doc.nodes[s.Top().frame.node], line) then OfNode(s.Top().frame.node)
    else if s.stack != [] && s.Top().frame.pendingKey.Some? && s.ends[s.Top().frame.pendingKey.value] == line then
      if !beforeColon then Deferred else OfKey(s.Top().frame.pendingKey.value)
    else SlotBehind(s, line)
  }

  function SlotBehind(s: State, line: nat): Slot
    requires s.Valid()
  {
    if s.lastNode.Some? && s.ends[s.lastNode.value] == line && s.doc.nodes[s.lastNode.value].trivia.eol.None? then
      OfNode(s.lastNode.value)
    else if s.docEndLine == Some(line) then if s.docs != [] then Trailing else Waiting
    else if s.docStartLine == Some(line) && !s.sawNode then Leading
    else Waiting
  }

  // The comment of a node, if it is in the arena.
  function EolOf(d: Document, id: nat): Option<Trivium> {
    if id < |d.nodes| then d.nodes[id].trivia.eol else None
  }

  function CommentFiled(s: State, t: Trivium, slot: Slot): State {
    match slot
    case Waiting => s.(pending := s.pending + [t])
    case OfNode(id) => if id < |s.doc.nodes| then s.(doc := EolSet(s.doc, id, t)) else s
    case OfKey(id) => if id < |s.doc.nodes| then s.(doc := EolSet(s.doc, id, t)) else s
    case Deferred => s.(deferredEol := Some(t))
    case Trailing =>
      if s.docs == [] then s
      else
        var k := |s.docs| - 1;
        s.(docs := s.docs[k := s.docs[k].(trailing := s.docs[k].trailing + [t])])
    case Leading => s.(doc := s.doc.(leading := s.doc.leading + [t]))
  }

  // What is written over: the comment kept for a value, or the one a key has.
  function Overwritten(s: State, slot: Slot): Option<Trivium> {
    match slot
    case Deferred => s.deferredEol
    case OfKey(id) => EolOf(s.doc, id)
    case _ => None
  }

  lemma EolKeeps(s: State, id: nat, t: Trivium, x: Trivium)
    requires s.Valid() && id < |s.doc.nodes|
    ensures var n := s.(doc := EolSet(s.doc, id, t));
            && n.Valid() && n.Shape() == s.Shape()
            && n.Held(x) + EolCount(EolOf(s.doc, id), x) == s.Held(x) + EolCount(Some(t), x)
  {
    hide Count, DocumentCount, DocumentsCount;
    TriviaSetKeeps(s, id, s.doc.nodes[id].trivia.(eol := Some(t)), x);
    TriviaSame(s, id, s.doc.nodes[id].trivia.(eol := Some(t)));
    SameValid(s, TriviaSet(s, id, s.doc.nodes[id].trivia.(eol := Some(t))));
  }

  // What the slots a comment can go to have in common.
  predicate SlotThere(s: State, slot: Slot) {
    && (slot.OfNode? ==> slot.id < |s.doc.nodes| && s.doc.nodes[slot.id].trivia.eol.None?)
    && (slot.OfKey? ==> slot.id < |s.doc.nodes|) && (slot.Trailing? ==> s.docs != [])
  }

  lemma SlotIsThere(s: State, ownLine: bool, line: nat, beforeColon: bool)
    requires s.Valid()
    ensures SlotThere(s, SlotOf(s, ownLine, line, beforeColon))
  {
    if s.stack != [] {
      assert FrameLinked(s.Top(), s.doc.nodes);
    }
  }

  lemma FiledKeeps(s: State, t: Trivium, slot: Slot, x: Trivium)
    requires s.Valid() && SlotThere(s, slot)
    ensures var n := CommentFiled(s, t, slot);
            && n.Valid() && n.Shape() == s.Shape()
            && n.Held(x) + EolCount(Overwritten(s, slot), x) == s.Held(x) + EolCount(Some(t), x)
  {
    hide Count, DocumentsCount, NodesCount, FrameLinked, EolSet;
    CountOne(t, x);
    NoEol(x);
    match slot {
      case Waiting => CountJoin(s.pending, [t], x);
      case OfNode(id) => EolKeeps(s, id, t, x);
      case OfKey(id) => EolKeeps(s, id, t, x);
      case Deferred =>
      case Trailing =>
        var k := |s.docs| - 1;
        var d := s.docs[k].(trailing := s.docs[k].trailing + [t]);
        CountJoin(s.docs[k].trailing, [t], x);
        DocumentsCountLast(s.docs, d, x);
        assert TreesOf(s.docs[k := d]) == TreesOf(s.docs);
      case Leading => CountJoin(s.doc.leading, [t], x);
    }
  }

  function CommentRead(s: State, text: string, probe: Probe): State
    requires s.Valid()
  {
    CommentFiled(BlanksNoted(s, probe.blanks), Trivium.Comment(text, probe.ownLine, probe.col),
                 SlotOf(s, probe.ownLine, probe.line, probe.beforeColon))
  }

  // ------------------------------------------------------------------ documents

  function DocumentBegun(s: State, explicit: bool, probe: Probe): State {
    s.(doc := Document(None, [], s.pending + BlankRuns(probe.blanks), []), pending := [], ends := [], lastNode := None,
       sawNode := false, docEndLine := None, docStartLine := if explicit then Some(probe.line) else None)
  }

  function DocumentEnded(s: State, probe: Probe): State {
    var b := BlanksNoted(s, probe.blanks);
    b.(docEndLine := if probe.marker then Some(probe.line) else s.docEndLine, docStartLine := None, lastNode := None,
       docs := s.docs + [s.doc], doc := NoDocument)
  }

  // What is still waiting at the end of the stream belongs to the last document.
  function StreamEnded(s: State, probe: Probe, region: bool): State {
    var b := BlanksNoted(s, probe.blanks);
    var docs := Closing(s.docs, region);
    b.(pending := [], docs := docs[|docs| - 1 := RestKept(docs[|docs| - 1], b.pending, region)])
  }

  // A stream without documents, or with lines only a document of their own can keep, gets one more.
  function Closing(docs: seq<Document>, region: bool): (r: seq<Document>)
    ensures r != []
  {
    if docs == [] || region then docs + [NoDocument] else docs
  }

  function RestKept(d: Document, p: seq<Trivium>, region: bool): Document {
    if region then d.(leading := d.leading + p) else d.(trailing := d.trailing + p)
  }

  lemma BegunIs(s: State, explicit: bool, probe: Probe, x: Trivium)
    requires s.Valid() && s.stack == [] && s.doc == NoDocument
    ensures var n := DocumentBegun(s, explicit, probe); Does(s, n, s.Shape(), BlankRuns(probe.blanks), x)
  {
    hide Count, NodesCount, DocumentsCount;
    CountJoin(s.pending, BlankRuns(probe.blanks), x);
    CountNone(x);
  }

  lemma EndedIs(s: State, probe: Probe, x: Trivium)
    requires s.Valid() && s.stack == []
    ensures var n := DocumentEnded(s, probe);
            && n.Valid() && n.Shape() == Fed(s.Shape(), Event.DocumentEnd, false)
            && n.Held(x) == s.Held(x) + Count(BlankRuns(probe.blanks), x)
  {
    hide Count, DocumentsCount;
    CountJoin(s.pending, BlankRuns(probe.blanks), x);
    DocumentsCountAdd(s.docs, s.doc, x);
    CountNone(x);
    assert TreesOf(s.docs + [s.doc]) == TreesOf(s.docs) + [TreeOf(s.doc)];
  }

  lemma NothingInNone(x: Trivium)
    ensures DocumentCount(NoDocument, x) == 0
  {
  }

  lemma ClosingIs(docs: seq<Document>, region: bool, x: Trivium)
    ensures DocumentsCount(Closing(docs, region), x) == DocumentsCount(docs, x)
    ensures TreesOf(Closing(docs, region)) == if docs == [] || region then TreesOf(docs) + [NoTree] else TreesOf(docs)
  {
    hide DocumentsCount, DocumentCount;
    DocumentsCountAdd(docs, NoDocument, x);
    NothingInNone(x);
    assert Bones([]) == [];
    assert TreesOf(docs + [NoDocument]) == TreesOf(docs) + [NoTree];
  }

  lemma RestIs(docs: seq<Document>, p: seq<Trivium>, region: bool, x: Trivium)
    requires docs != []
    ensures var n := docs[|docs| - 1 := RestKept(docs[|docs| - 1], p, region)];
            DocumentsCount(n, x) == DocumentsCount(docs, x) + Count(p, x) && TreesOf(n) == TreesOf(docs)
  {
    hide DocumentsCount, Count, NodesCount;
    var d := docs[|docs| - 1];
    CountJoin(d.leading, p, x);
    CountJoin(d.trailing, p, x);
    DocumentsCountLast(docs, RestKept(d, p, region), x);
    assert TreesOf(docs[|docs| - 1 := RestKept(d, p, region)]) == TreesOf(docs);
  }

  lemma StreamIs(s: State, probe: Probe, region: bool, x: Trivium)
    requires s.Valid() && s.stack == [] && s.doc == NoDocument
    ensures var n := StreamEnded(s, probe, region);
            && n.Valid() && n.Shape() == Fed(s.Shape(), Event.StreamEnd, region)
            && n.Held(x) == s.Held(x) + Count(BlankRuns(probe.blanks), x)
  {
    hide Count, DocumentCount, DocumentsCount, Closing, RestKept, TreesOf;
    CountJoin(s.pending, BlankRuns(probe.blanks), x);
    CountNone(x);
    ClosingIs(s.docs, region, x);
    RestIs(Closing(s.docs, region), s.pending + BlankRuns(probe.blanks), region, x);
    assert s.docs == [] <==> TreesOf(s.docs) == [];
  }

  // What an event brings along.
  function Brought(e: Event, probe: Probe): seq<Trivium> {
    if e.StreamStart? then []
    else BlankRuns(probe.blanks) + if e.Comment? then [Trivium.Comment(e.text, probe.ownLine, probe.col)] else []
  }

  lemma BlanksBrought(e: Event, probe: Probe, x: Trivium)
    requires !e.Comment? && !e.StreamStart?
    ensures Count(Brought(e, probe), x) == Count(BlankRuns(probe.blanks), x)
  {
    assert BlankRuns(probe.blanks) + [] == BlankRuns(probe.blanks);
  }

  lemma NodeFed(s: Shape, e: Event, region: bool)
    requires IsNodeEvent(e)
    ensures Fed(s, e, region) == Fed(s, e, false)
  {
  }

  lemma CommentFed(s: Shape, e: Event, region: bool)
    ensures e.Comment? ==> Fed(s, e, region) == s
  {
  }

  lemma ValueGiven(s: Shape, e: Event)
    requires Sound(s, Inside) && (e.SequenceEnd? || e.MappingEnd?) && Advance(Owes(s, Inside), e).Some?
    ensures s.stack != [] && (e.MappingEnd? ==> Top(s).pendingKey.None?)
  {
    TopExpects(s, e);
  }

  lemma CommentCounts(e: Event, probe: Probe, x: Trivium)
    requires e.Comment?
    ensures Count(Brought(e, probe), x) ==
            Count(BlankRuns(probe.blanks), x) + EolCount(Some(Trivium.Comment(e.text, probe.ownLine, probe.col)), x)
  {
    var t := Trivium.Comment(e.text, probe.ownLine, probe.col);
    CountJoin(BlankRuns(probe.blanks), [t], x);
    CountOne(t, x);
  }

  // ------------------------------------------------------------------ a whole stream

  // An event and what the source shows around it.
  datatype Input = Input(event: Event, probe: Probe)

  function EventsOf(input: seq<Input>): (r: seq<Event>)
    ensures |r| == |input| && forall i | 0 <= i < |r| :: r[i] == input[i].event
  {
    seq(|input|, i requires 0 <= i < |input| => input[i].event)
  }

  function BroughtCount(input: seq<Input>, x: Trivium): nat
    decreases |input|
  {
    if input == [] then 0 else Count(Brought(input[0].event, input[0].probe), x) + BroughtCount(input[1..], x)
  }

  // At most one comment to a line, in order.
  predicate LinesRise(input: seq<Input>, line: nat)
    decreases |input|
  {
    input == [] ||
    if input[0].event.Comment? then input[0].probe.line > line && LinesRise(input[1..], input[0].probe.line)
    else LinesRise(input[1..], line)
  }

  // What is left of a stream behind its first event.
  lemma InputTail(input: seq<Input>)
    requires input != []
    ensures EventsOf(input)[1..] == EventsOf(input[1..])
    ensures Structural(EventsOf(input)) ==
            (if input[0].event.Comment? then [] else [input[0].event]) + Structural(EventsOf(input[1..]))
  {
    assert EventsOf(input)[1..] == EventsOf(input[1..]);
  }

  // What the rest of a stream still does.
  lemma FirstEvent(goals: seq<Goal>, s: Shape, input: seq<Input>, region: bool)
    requires input != [] && AdvanceAll(goals, Structural(EventsOf(input))) == Some([])
    ensures var e, rest := input[0].event, Structural(EventsOf(input[1..]));
            if e.Comment? then Structural(EventsOf(input)) == rest
            else
              && Advance(goals, e).Some? && AdvanceAll(Advance(goals, e).value, rest) == Some([])
              && FedAll(s, Structural(EventsOf(input)), region) == FedAll(Fed(s, e, region), rest, region)
  {
    InputTail(input);
    var e, rest := input[0].event, Structural(EventsOf(input[1..]));
    if !e.Comment? {
      assert ([e] + rest)[1..] == rest;
      FedCons(s, e, rest, region);
    } else {
      assert [] + rest == rest;
    }
  }

  // ------------------------------------------------------------------ one event

  // The events the loader has what it needs for; grammatical ones are among them.
  predicate CanStep(s: State, e: Event) {
    && s.Valid() && (IsNodeEvent(e) || e.SequenceEnd? || e.MappingEnd? ==> s.Full())
    && (e.SequenceEnd? || e.MappingEnd? ==> s.stack != [])
  }

  function Stepped(s: State, e: Event, probe: Probe, region: bool): State {
    if !CanStep(s, e) then s
    else
      match e
      case StreamStart => s
      case Comment(text) => CommentRead(s, text, probe)
      case DocumentStart(explicit) => DocumentBegun(s, explicit, probe)
      case DocumentEnd => DocumentEnded(s, probe)
      case SequenceEnd => CollectionClosed(s, probe)
      case MappingEnd => CollectionClosed(s, probe)
      case StreamEnd => StreamEnded(s, probe, region)
      case Scalar(_, _, _, _) => LeafRead(s, e, probe)
      case Alias(_) => LeafRead(s, e, probe)
      case SequenceStart(_, _, _) => CollectionOpened(s, e, probe)
      case MappingStart(_, _, _) => CollectionOpened(s, e, probe)
  }

  // The comment a key has when one that stands between it and its `:` takes its place.
  function LostTo(s: State, e: Event, probe: Probe): Option<Trivium> {
    if e.Comment? && s.Valid() && SlotOf(s, probe.ownLine, probe.line, probe.beforeColon).OfKey? then
      EolOf(s.doc, SlotOf(s, probe.ownLine, probe.line, probe.beforeColon).id)
    else None
  }

  // A key has been read, on no later line than the last comment, and its value has not.
  predicate AwaitsValue(s: State, commentLine: nat) {
    && s.Valid() && s.stack != [] && s.Top().frame.pendingKey.Some?
    && s.ends[s.Top().frame.pendingKey.value] <= commentLine
  }

  // Between two events: where the grammar of events stands, and the line of the last comment.
  predicate Ready(s: State, phase: Phase, commentLine: nat) {
    && s.Valid() && Sound(s.Shape(), phase)
    && (if phase.Inside? then |s.ends| == |s.doc.nodes|
        else s.doc == NoDocument && s.lastNode == None && s.docStartLine == None)
    && (s.deferredEol.Some? ==> AwaitsValue(s, commentLine))
  }

  // What an event does: the trees are those its events say, and it brings what it brings.
  predicate Takes(s: State, phase: Phase, commentLine: nat, e: Event, probe: Probe, region: bool, x: Trivium) {
    var n := Stepped(s, e, probe, region);
    && n.Shape() == Fed(s.Shape(), e, region)
    && Ready(n, PhaseAfter(phase, e), if e.Comment? then probe.line else commentLine)
    && n.Held(x) + EolCount(LostTo(s, e, probe), x) == s.Held(x) + Count(Brought(e, probe), x)
    && (e.StreamEnd? ==> n.pending == [] && n.deferredEol == None && n.doc == NoDocument)
  }

  lemma CommentTakes(s: State, phase: Phase, commentLine: nat, e: Event, probe: Probe, region: bool, x: Trivium)
    requires Ready(s, phase, commentLine) && e.Comment? && probe.line > commentLine
    ensures Takes(s, phase, commentLine, e, probe, region, x)
  {
    hide Count, State.Held, State.Shape, State.Valid, Brought, BlankRuns, Sound, SlotOf, CommentFiled, Overwritten, Fed, AwaitsValue;
    var b := BlanksNoted(s, probe.blanks);
    var t := Trivium.Comment(e.text, probe.ownLine, probe.col);
    var slot := SlotOf(s, probe.ownLine, probe.line, probe.beforeColon);
    CommentCounts(e, probe, x);
    CommentFed(s.Shape(), e, region);
    BlanksKeep(s, probe.blanks, x);
    SlotIsThere(s, probe.ownLine, probe.line, probe.beforeColon);
    FiledKeeps(b, t, slot, x);
    NoEol(x);
    DeferredFits(s, commentLine, probe, slot);
    CommentFields(s, b, t, slot);
    LeadingOpen(s, probe);
    KeyStays(s, CommentFiled(b, t, slot), t, slot, commentLine, probe.line);
    OverwrittenIs(s, b, slot);
  }

  lemma LeadingOpen(s: State, probe: Probe)
    requires s.Valid()
    ensures SlotOf(s, probe.ownLine, probe.line, probe.beforeColon).Leading? ==> s.docStartLine.Some?
  {
  }

  lemma OverwrittenIs(s: State, b: State, slot: Slot)
    requires b == s.(pending := b.pending)
    ensures slot.Deferred? ==> Overwritten(b, slot) == s.deferredEol
    ensures slot.OfKey? ==> Overwritten(b, slot) == EolOf(s.doc, slot.id)
    ensures !slot.Deferred? && !slot.OfKey? ==> Overwritten(b, slot) == None
  {
  }

  // What filing a comment leaves alone.
  lemma CommentFields(s: State, b: State, t: Trivium, slot: Slot)
    requires b == s.(pending := b.pending) && SlotThere(s, slot)
    ensures SlotThere(b, slot)
    ensures var n := CommentFiled(b, t, slot);
            && n.stack == s.stack && n.ends == s.ends && |n.doc.nodes| == |s.doc.nodes|
            && (s.doc == NoDocument && !slot.Leading? ==> n.doc == NoDocument)
            && n.lastNode == s.lastNode && n.docStartLine == s.docStartLine
            && n.deferredEol == if slot.Deferred? then Some(t) else s.deferredEol
  {
  }

  // A comment that is kept for a value comes after the key on the key's last line, where no other
  // has been.
  lemma DeferredFits(s: State, commentLine: nat, probe: Probe, slot: Slot)
    requires s.Valid() && slot == SlotOf(s, probe.ownLine, probe.line, probe.beforeColon) && probe.line > commentLine
    requires s.deferredEol.Some? ==> AwaitsValue(s, commentLine)
    ensures slot.Deferred? ==> s.deferredEol == None && AwaitsValue(s, probe.line)
  {
  }

  lemma KeyStays(s: State, n: State, t: Trivium, slot: Slot, commentLine: nat, line: nat)
    requires s.Valid() && n.Valid() && n.stack == s.stack && n.ends == s.ends && line > commentLine
    requires n.deferredEol == if slot.Deferred? then Some(t) else s.deferredEol
    requires slot.Deferred? ==> AwaitsValue(s, line)
    requires s.deferredEol.Some? ==> AwaitsValue(s, commentLine)
    ensures n.deferredEol.Some? ==> AwaitsValue(n, line)
  {
  }

  // A collection only ends when no value is missing.
  lemma NothingDeferred(s: State, phase: Phase, commentLine: nat, e: Event)
    requires Ready(s, phase, commentLine) && (e.SequenceEnd? || e.MappingEnd?) && Advance(Owes(s.Shape(), phase), e).Some?
    ensures s.deferredEol == None && s.stack != [] && phase.Inside?
    ensures s.Top().isSeq == e.SequenceEnd? && s.Top().frame.node < |s.doc.nodes|
    ensures e.SequenceEnd? || s.doc.nodes[s.Top().frame.node].bone.kind.Mapping?
  {
    hide Owes, Advance;
    FedPays(s.Shape(), phase, e, false);
    ValueGiven(s.Shape(), e);
    assert FrameLinked(s.Top(), s.doc.nodes);
  }

  lemma NodeTakes(s: State, phase: Phase, commentLine: nat, e: Event, probe: Probe, region: bool, x: Trivium)
    requires Ready(s, phase, commentLine) && IsNodeEvent(e) && Advance(Owes(s.Shape(), phase), e).Some?
    ensures Takes(s, phase, commentLine, e, probe, region, x)
  {
    hide Count, DocumentCount, DocumentsCount, NodesCount, FrameLinked, BlankRuns, Sound, Owes, Advance, LeafRead, CollectionOpened, Fed;
    FedPays(s.Shape(), phase, e, region);
    BlanksBrought(e, probe, x);
    NodeFed(s.Shape(), e, region);
    NoEol(x);
    if e.Scalar? || e.Alias? {
      LeafIs(s, e, probe, x);
    } else {
      OpenedIs(s, e, probe, x);
    }
  }

  lemma EndTakes(s: State, phase: Phase, commentLine: nat, e: Event, probe: Probe, region: bool, x: Trivium)
    requires Ready(s, phase, commentLine) && (e.SequenceEnd? || e.MappingEnd?) && Advance(Owes(s.Shape(), phase), e).Some?
    ensures Takes(s, phase, commentLine, e, probe, region, x)
  {
    hide Count, DocumentCount, DocumentsCount, NodesCount, FrameLinked, BlankRuns, Sound, Owes, Advance, Closed, CollectionClosed;
    FedPays(s.Shape(), phase, e, region);
    BlanksBrought(e, probe, x);
    NothingDeferred(s, phase, commentLine, e);
    NoEol(x);
    ClosedIs(s, probe, x);
  }

  lemma DocumentTakes(s: State, phase: Phase, commentLine: nat, e: Event, probe: Probe, region: bool, x: Trivium)
    requires Ready(s, phase, commentLine) && Advance(Owes(s.Shape(), phase), e).Some?
    requires e.StreamStart? || e.DocumentStart? || e.DocumentEnd? || e.StreamEnd?
    ensures Takes(s, phase, commentLine, e, probe, region, x)
  {
    hide Count, DocumentCount, DocumentsCount, NodesCount, BlankRuns, Owes, Advance, DocumentBegun, DocumentEnded, StreamEnded;
    FedPays(s.Shape(), phase, e, region);
    NoEol(x);
    CountNone(x);
    match e {
      case StreamStart =>
      case DocumentStart(explicit) =>
        BlanksBrought(e, probe, x);
        BegunIs(s, explicit, probe, x);
        BoundaryFields(s, explicit, probe, region);
      case DocumentEnd =>
        BlanksBrought(e, probe, x);
        EndedIs(s, probe, x);
        BoundaryFields(s, false, probe, region);
      case StreamEnd =>
        BlanksBrought(e, probe, x);
        StreamIs(s, probe, region, x);
        BoundaryFields(s, false, probe, region);
    }
  }

  lemma BoundaryFields(s: State, explicit: bool, probe: Probe, region: bool)
    ensures var n := DocumentBegun(s, explicit, probe); n.deferredEol == s.deferredEol && n.ends == [] && n.doc.nodes == []
    ensures var n := DocumentEnded(s, probe);
            n.doc == NoDocument && n.lastNode == None && n.docStartLine == None && n.deferredEol == s.deferredEol
    ensures var n := StreamEnded(s, probe, region);
            && n.pending == [] && n.deferredEol == s.deferredEol && n.doc == s.doc && n.lastNode == s.lastNode
            && n.docStartLine == s.docStartLine
  {
  }

  // Every event, allowed by the grammar, does what it says.
  lemma EveryEventTakes(s: State, phase: Phase, commentLine: nat, e: Event, probe: Probe, region: bool, x: Trivium)
    requires Ready(s, phase, commentLine)
    requires if e.Comment? then probe.line > commentLine else Advance(Owes(s.Shape(), phase), e).Some?
    ensures Takes(s, phase, commentLine, e, probe, region, x)
  {
    hide Ready, Takes, Owes, Advance;
    if e.Comment? {
      CommentTakes(s, phase, commentLine, e, probe, region, x);
    } else if IsNodeEvent(e) {
      NodeTakes(s, phase, commentLine, e, probe, region, x);
    } else if e.SequenceEnd? || e.MappingEnd? {
      EndTakes(s, phase, commentLine, e, probe, region, x);
    } else {
      DocumentTakes(s, phase, commentLine, e, probe, region, x);
    }
  }

  // ------------------------------------------------------------------ what a stream loads and loses

  function StateAfter(s: State, input: seq<Input>, region: bool): State
    decreases |input|
  {
    if input == [] then s else StateAfter(Stepped(s, input[0].event, input[0].probe, region), input[1..], region)
  }

  // The comments written over, in the order they are.
  function Losses(s: State, input: seq<Input>, region: bool): seq<Trivium>
    decreases |input|
  {
    if input == [] then []
    else
      var lost := LostTo(s, input[0].event, input[0].probe);
      (if lost.Some? then [lost.value] else [])
      + Losses(Stepped(s, input[0].event, input[0].probe, region), input[1..], region)
  }

  // Over every stream: the trees are those its events say, and the documents and the comments
  // written over are together what came with the events, none lost and none twice.
  lemma {:induction false} LoadKeeps(s: State, phase: Phase, commentLine: nat, input: seq<Input>, region: bool, x: Trivium)
    requires Ready(s, phase, commentLine) && LinesRise(input, commentLine)
    requires AdvanceAll(Owes(s.Shape(), phase), Structural(EventsOf(input))) == Some([])
    ensures var n := StateAfter(s, input, region);
            && n.Shape() == FedAll(s.Shape(), Structural(EventsOf(input)), region)
            && n.Held(x) + Count(Losses(s, input, region), x) == s.Held(x) + BroughtCount(input, x)
    ensures input != [] && input[|input| - 1].event.StreamEnd? ==>
              var n := StateAfter(s, input, region); n.pending == [] && n.deferredEol == None && n.doc == NoDocument
    decreases |input|
  {
    hide Ready, Sound, Owes, Advance, Fed, Structural, EventsOf, Brought, Stepped, LostTo, FedAll, Count;
    CountNone(x);
    if input == [] {
      NothingHeld(s.Shape(), region, x);
      assert NoneLeft(s.Shape(), region);
    } else {
      var e, probe := input[0].event, input[0].probe;
      FirstEvent(Owes(s.Shape(), phase), s.Shape(), input, region);
      EveryEventTakes(s, phase, commentLine, e, probe, region, x);
      CommentFed(s.Shape(), e, region);
      ReadySound(s, phase, commentLine);
      if !e.Comment? {
        FedPays(s.Shape(), phase, e, region);
      }
      var lost := LostTo(s, e, probe);
      var n := Stepped(s, e, probe, region);
      LoadKeeps(n, PhaseAfter(phase, e), if e.Comment? then probe.line else commentLine, input[1..], region, x);
      CountLost(lost, Losses(n, input[1..], region), x);
    }
  }

  lemma ReadySound(s: State, phase: Phase, commentLine: nat)
    requires Ready(s, phase, commentLine)
    ensures Sound(s.Shape(), phase)
  {
  }

  predicate NoneLeft(s: Shape, region: bool) {
    FedAll(s, Structural(EventsOf([])), region) == s
  }

  lemma CountLost(lost: Option<Trivium>, more: seq<Trivium>, x: Trivium)
    ensures Count((if lost.Some? then [lost.value] else []) + more, x) == EolCount(lost, x) + Count(more, x)
  {
    CountNone(x);
    CountJoin(if lost.Some? then [lost.value] else [], more, x);
    if lost.Some? {
      CountOne(lost.value, x);
    }
  }

  lemma NothingHeld(s: Shape, region: bool, x: Trivium)
    ensures DocumentCount(NoDocument, x) == 0 && Count([], x) == 0 && EolCount(None, x) == 0 && BroughtCount([], x) == 0
    ensures FedAll(s, Structural(EventsOf([])), region) == s
  {
  }

  // A stream the loader is given: grammatical, to its end, with at most one comment to a line.
  predicate Streams(input: seq<Input>) {
    && AdvanceAll([WholeStream], Structural(EventsOf(input))) == Some([])
    && input != [] && input[|input| - 1].event.StreamEnd? && LinesRise(input, 0)
  }

  // Loading a stream builds the trees its events say, and loses nothing but the comments written
  // over.
  lemma StreamKeeps(input: seq<Input>, region: bool)
    requires Streams(input)
    ensures var docs := StateAfter(Begin, input, region).docs;
            && TreesOf(docs) == FedAll(Empty, Structural(EventsOf(input)), region).done
            && forall x :: DocumentsCount(docs, x) + Count(Losses(Begin, input, region), x) == BroughtCount(input, x)
  {
    hide Count, DocumentsCount, DocumentCount, BroughtCount, Losses, StateAfter, LinesRise, FedAll, Structural;
    OwesAll();
    var n := StateAfter(Begin, input, region);
    forall x ensures DocumentsCount(n.docs, x) + Count(Losses(Begin, input, region), x) == BroughtCount(input, x) {
      BeginReady(x);
      LoadKeeps(Begin, Start, 0, input, region, x);
      NothingHeld(Empty, region, x);
    }
    BeginReady(BlankLines(0));
    LoadKeeps(Begin, Start, 0, input, region, BlankLines(0));
  }

  lemma BeginReady(x: Trivium)
    ensures Ready(Begin, Start, 0) && Begin.Shape() == Empty && Begin.Held(x) == 0
  {
    assert Bones([]) == [] && FramesOf([]) == [] && TreesOf([]) == [];
  }

  lemma OwesAll()
    ensures Owes(Empty, Start) == [WholeStream]
  {
  }

  // The key of the innermost collection, its value not yet read, when it ends on a comment's line.
  predicate KeyEnds(s: State, line: nat)
    requires s.Valid()
  {
    && s.stack != [] && s.Top().frame.pendingKey.Some? && s.ends[s.Top().frame.pendingKey.value] == line
    && !OpensOnDash(s.Top()) && !(!s.Top().hasChild && Owns(s.doc.nodes[s.Top().frame.node], line))
  }

  // A comment stands between a key and its `:`, on the key's last line, and the key has an
  // end-of-line comment already.
  predicate MeetsComment(s: State, i: Input) {
    && s.Valid() && i.event.Comment? && !i.probe.ownLine && i.probe.beforeColon && KeyEnds(s, i.probe.line)
    && EolOf(s.doc, s.Top().frame.pendingKey.value).Some?
  }

  lemma LostMeans(s: State, i: Input)
    ensures LostTo(s, i.event, i.probe).Some? <==> MeetsComment(s, i)
  {
  }

  // Nothing is lost, that is, the documents hold every trivium as often as it came, exactly when no
  // comment between a key and its `:` meets one that the key has.
  lemma LostExactly(input: seq<Input>, region: bool)
    requires Streams(input)
    ensures var docs := StateAfter(Begin, input, region).docs;
            (forall x :: DocumentsCount(docs, x) == BroughtCount(input, x)) <==>
            (forall i | 0 <= i < |input| :: !MeetsComment(StateAfter(Begin, input[..i], region), input[i]))
  {
    hide DocumentsCount, BroughtCount, Losses, StateAfter, Streams, MeetsComment;
    StreamKeeps(input, region);
    LossesMeet(Begin, input, region);
    var docs, lost := StateAfter(Begin, input, region).docs, Losses(Begin, input, region);
    if lost != [] {
      var x := lost[0];
      assert x in lost && Count(lost, x) > 0;
      assert DocumentsCount(docs, x) != BroughtCount(input, x);
    } else {
      forall x ensures DocumentsCount(docs, x) == BroughtCount(input, x) {
        CountNone(x);
      }
    }
  }

  lemma {:induction false} LossesMeet(s: State, input: seq<Input>, region: bool)
    ensures Losses(s, input, region) == [] <==>
            forall i | 0 <= i < |input| :: !MeetsComment(StateAfter(s, input[..i], region), input[i])
    decreases |input|
  {
    hide LostTo, Stepped, MeetsComment;
    if input != [] {
      var n := Stepped(s, input[0].event, input[0].probe, region);
      LossesMeet(n, input[1..], region);
      LostMeans(s, input[0]);
      assert StateAfter(s, input[..0], region) == s;
      forall i | 0 < i < |input| ensures StateAfter(s, input[..i], region) == StateAfter(n, input[1..][..i - 1], region) {
        assert input[..i][1..] == input[1..][..i - 1];
      }
      if forall i | 0 <= i < |input| :: !MeetsComment(StateAfter(s, input[..i], region), input[i]) {
        forall i | 0 <= i < |input[1..]| ensures !MeetsComment(StateAfter(n, input[1..][..i], region), input[1..][i]) {
          assert input[1..][i] == input[i + 1];
          assert !MeetsComment(StateAfter(s, input[..i + 1], region), input[i + 1]);
        }
      }
      if Losses(s, input, region) == [] {
        forall i | 0 <= i < |input| ensures !MeetsComment(StateAfter(s, input[..i], region), input[i]) {
          if i > 0 {
            assert input[1..][i - 1] == input[i];
          }
        }
      }
    }
  }

  lemma {:induction false} NoCommentsNoLoss(s: State, input: seq<Input>, region: bool)
    requires forall i | 0 <= i < |input| :: !input[i].event.Comment?
    ensures Losses(s, input, region) == []
    decreases |input|
  {
    hide Stepped;
    if input != [] {
      NoCommentsNoLoss(Stepped(s, input[0].event, input[0].probe, region), input[1..], region);
    }
  }

  // ------------------------------------------------------------------ a comment that is lost

  function At(line: nat, col: nat, beforeColon: bool): Probe {
    Probe([], line, col, line, false, beforeColon, false, false)
  }

  // The events of
  //   ? [ # one
  //     a ] # two
  //   : v
  function KeyEvents(one: string): seq<Input> {
    [Input(Event.StreamStart, At(0, 0, false)),
     Input(Event.DocumentStart(false), At(1, 0, false)),
     Input(MappingStart(NoAnchor, None, Block), At(1, 0, false)),
     Input(SequenceStart(NoAnchor, None, Flow), At(1, 2, false)),
     Input(Event.Comment(one), At(1, 4, false)),
     Input(Event.Scalar("a", ScalarStyle.Plain, NoAnchor, None), At(2, 2, false)),
     Input(SequenceEnd, At(2, 4, false))]
  }

  function CommentEvent(two: string): Input {
    Input(Event.Comment(two), At(2, 6, true))
  }

  function ValueEvents(): seq<Input> {
    [Input(Event.Scalar("v", ScalarStyle.Plain, NoAnchor, None), At(3, 2, false)),
     Input(MappingEnd, At(3, 3, false)), Input(Event.DocumentEnd, At(3, 3, false)), Input(Event.StreamEnd, At(3, 3, false))]
  }

  // With nothing waiting a node is only appended.
  lemma QuietNode(s: State, bone: Bone, probe: Probe)
    requires s.Valid() && s.pending == [] && probe.blanks == []
    ensures BlanksNoted(s, probe.blanks) == s && NodeAdded(s, bone, probe) == NodeAppended(s, bone, probe)
  {
    assert s.pending + BlankRuns([]) == [];
  }

  lemma QuietOpen(s: State, e: Event, probe: Probe)
    requires s.Full() && s.pending == [] && probe.blanks == [] && (e.SequenceStart? || e.MappingStart?)
    ensures var a := NodeAppended(s, BoneOf(e), probe);
            Stepped(s, e, probe, false) ==
            a.(stack := s.stack + [OpenFrame(Frame(|s.doc.nodes|, [], [], None), e.SequenceStart?, e.structure.Flow?, probe.col, false)])
    ensures Stepped(s, e, probe, false).Full() && Stepped(s, e, probe, false).pending == []
  {
    hide NodeAdded, BlanksNoted, BoneOf, State.Shape, State.Held, State.Linked, Fed, Count, BlankRuns, CollectionOpened;
    QuietNode(s, BoneOf(e), probe);
    OpenedIs(s, e, probe, BlankLines(0));
    OpenedFrame(s, e, probe);
    AppendedRest(s, BoneOf(e), probe);
  }

  lemma OpenedFrame(s: State, e: Event, probe: Probe)
    requires s.Valid() && (e.SequenceStart? || e.MappingStart?)
    ensures var n := NodeAdded(BlanksNoted(s, probe.blanks), BoneOf(e), probe);
            CollectionOpened(s, e, probe) ==
            n.(stack := n.stack + [OpenFrame(Frame(|s.doc.nodes|, [], [], None), e.SequenceStart?, e.structure.Flow?, probe.col, false)])
  {
  }

  lemma AppendedRest(s: State, bone: Bone, probe: Probe)
    ensures NodeAppended(s, bone, probe).pending == s.pending && NodeAppended(s, bone, probe).stack == s.stack
  {
  }

  // The sequence open, its comment on it.
  lemma KeyCommented(one: string)
    ensures var s := StateAfter(Begin, KeyEvents(one)[..5], false);
            && s.Full() && s.pending == [] && |s.doc.nodes| == 2 && s.stack == KeyFrames([], false)
            && EolOf(s.doc, 1) == Some(Trivium.Comment(one, false, 4)) && s.doc.nodes[1].bone.kind.Sequence?
  {
    hide Stepped, StateAfter, State.Valid;
    var i := KeyEvents(one);
    var s2 := Stepped(Begin, i[1].event, i[1].probe, false);
    KeyBegins(i[1].probe);
    var s3 := Stepped(s2, i[2].event, i[2].probe, false);
    MappingOpens(s2, one);
    var s4 := Stepped(s3, i[3].event, i[3].probe, false);
    SequenceOpens(s3, one);
    CommentOnKey(s4, one);
    FiveSteps(one, s2, s3, s4, Stepped(s4, i[4].event, i[4].probe, false));
  }

  lemma KeyBegins(probe: Probe)
    requires probe.blanks == []
    ensures Stepped(Begin, Event.DocumentStart(false), probe, false) == Begin
  {
    assert [] + BlankRuns([]) == [];
  }

  lemma MappingOpens(s: State, one: string)
    requires s == Begin
    ensures var i := KeyEvents(one)[2];
            var n := Stepped(s, i.event, i.probe, false);
            n.Full() && n.pending == [] && |n.doc.nodes| == 1 && n.stack == KeyFrames([], false)[..1] && n.deferredEol == None
  {
    hide NodeAdded, Stepped;
    var i := KeyEvents(one)[2];
    QuietOpen(s, i.event, i.probe);
  }

  lemma SequenceOpens(s: State, one: string)
    requires s.Full() && s.pending == [] && |s.doc.nodes| == 1 && s.stack == KeyFrames([], false)[..1] && s.deferredEol == None
    ensures var i := KeyEvents(one)[3];
            var n := Stepped(s, i.event, i.probe, false);
            && n.Full() && n.pending == [] && |n.doc.nodes| == 2 && n.stack == KeyFrames([], false)
            && n.doc.nodes[1].line == 1 && n.doc.nodes[1].trivia.eol == None && n.doc.nodes[1].bone.kind.Sequence?
  {
    hide NodeAdded, Stepped, State.Valid;
    var i := KeyEvents(one)[3];
    QuietOpen(s, i.event, i.probe);
    assert KeyFrames([], false) == KeyFrames([], false)[..1] + [KeyFrames([], false)[1]];
  }

  lemma CommentOnKey(s: State, one: string)
    requires s.Full() && s.pending == [] && |s.doc.nodes| == 2 && s.doc.nodes[1].line == 1 && s.doc.nodes[1].trivia.eol == None
    requires s.stack == KeyFrames([], false)
    ensures var i := KeyEvents(one)[4];
            var n := Stepped(s, i.event, i.probe, false);
            && n == s.(doc := EolSet(s.doc, 1, Trivium.Comment(one, false, 4))) && n.Full()
  {
    hide State.Valid, EolSet, State.Shape, State.Held, Count, CommentFiled, SlotOf, BlankRuns, BlanksNoted;
    var t := Trivium.Comment(one, false, 4);
    QuietBlanks(s);
    SlotOnKey(s);
    FiledOnNode(s, 1, t);
    EolKeeps(s, 1, t, t);
    EolSetSame(s.doc, 1, t);
  }

  // The mapping and the sequence that is its key, with what has been read of the sequence.
  function KeyFrames(items: seq<nat>, hasChild: bool): seq<OpenFrame> {
    [OpenFrame(Frame(0, [], [], None), false, false, 0, false), OpenFrame(Frame(1, items, [], None), true, true, 2, hasChild)]
  }

  lemma QuietBlanks(s: State)
    ensures BlanksNoted(s, []) == s
  {
    assert s.pending + BlankRuns([]) == s.pending;
  }

  lemma SlotOnKey(s: State)
    requires s.Full() && |s.doc.nodes| == 2 && s.doc.nodes[1].line == 1 && s.doc.nodes[1].trivia.eol == None
    requires s.stack == KeyFrames([], false)
    ensures SlotOf(s, false, 1, false) == OfNode(1)
  {
  }

  lemma FiledOnNode(s: State, id: nat, t: Trivium)
    requires id < |s.doc.nodes|
    ensures CommentFiled(s, t, OfNode(id)) == s.(doc := EolSet(s.doc, id, t))
  {
  }

  lemma EolSetSame(d: Document, id: nat, t: Trivium)
    requires id < |d.nodes|
    ensures |EolSet(d, id, t).nodes| == |d.nodes|
  {
  }

  lemma AfterCons(s: State, input: seq<Input>, region: bool)
    requires input != []
    ensures StateAfter(s, input, region) == StateAfter(Stepped(s, input[0].event, input[0].probe, region), input[1..], region)
  {
  }

  lemma FiveSteps(one: string, s2: State, s3: State, s4: State, s5: State)
    requires var i := KeyEvents(one);
             && s2 == Stepped(Begin, i[1].event, i[1].probe, false) && s3 == Stepped(s2, i[2].event, i[2].probe, false)
             && s4 == Stepped(s3, i[3].event, i[3].probe, false) && s5 == Stepped(s4, i[4].event, i[4].probe, false)
    ensures StateAfter(Begin, KeyEvents(one)[..5], false) == s5
  {
    hide Stepped;
    var i := KeyEvents(one)[..5];
    StartStep(i[0].probe);
    AfterCons(Begin, i, false);
    AfterCons(Begin, i[1..], false);
    AfterCons(s2, i[1..][1..], false);
    AfterCons(s3, i[1..][1..][1..], false);
    AfterCons(s4, i[1..][1..][1..][1..], false);
    assert i[1..][1..][1..][1..][1..] == [];
  }

  lemma StartStep(probe: Probe)
    ensures Stepped(Begin, Event.StreamStart, probe, false) == Begin
  {
  }

  // The item of the sequence.
  lemma KeyItem(s: State, one: string)
    requires s.Full() && s.pending == [] && |s.doc.nodes| == 2 && s.stack == KeyFrames([], false)
    ensures var i := KeyEvents(one)[5];
            var n := Stepped(s, i.event, i.probe, false);
            && n.Full() && n.pending == [] && n.stack == KeyFrames([2], true)
            && n.doc.nodes == NodeAppended(s, BoneOf(i.event), i.probe).doc.nodes
  {
    hide State.Linked, NodeAdded, State.Shape, State.Held, Count, BlankRuns, BlanksNoted, BoneOf, Fed, LeafRead;
    var i := KeyEvents(one)[5];
    QuietNode(s, BoneOf(i.event), i.probe);
    LeafIs(s, i.event, i.probe, BlankLines(0));
    LeafPlaced(s, i.event, i.probe);
    AppendedRest(s, BoneOf(i.event), i.probe);
    ItemFiled();
  }

  lemma ItemFiled()
    ensures StackFiled(KeyFrames([], false), 2) == KeyFrames([2], true)
  {
    var f := KeyFrames([], false)[1].frame;
    assert f.items + [2] == [2];
    assert Arena.Filed(f, true, 2) == Frame(1, [2], [], None);
  }

  lemma LeafPlaced(s: State, e: Event, probe: Probe)
    requires s.Valid() && IsNodeEvent(e) && s.stack != []
    ensures var n := NodeAdded(BlanksNoted(s, probe.blanks), BoneOf(e), probe);
            && LeafRead(s, e, probe).pending == n.pending && LeafRead(s, e, probe).doc.nodes == n.doc.nodes
            && (n.stack == s.stack ==> LeafRead(s, e, probe).stack == StackFiled(s.stack, |s.doc.nodes|))
  {
    hide NodeAdded;
  }

  // The sequence closed on the next line, and the mapping's key.
  lemma KeyClosed(s: State)
    requires s.Full() && s.pending == [] && |s.doc.nodes| == 3 && s.doc.nodes[1].bone.kind.Sequence? && s.stack == KeyFrames([2], true)
    ensures var n := Stepped(s, SequenceEnd, At(2, 4, false), false);
            && n.Valid() && KeyEnds(n, 2) && n.Top().frame.pendingKey == Some(1) && EolOf(n.doc, 1) == EolOf(s.doc, 1)
  {
    hide State.Linked, State.Shape, State.Held, Count, BlankRuns, BlanksNoted, Closed, CollectionClosed;
    QuietBlanks(s);
    ClosedIs(s, At(2, 4, false), BlankLines(0));
    KeyClosedIs(s);
  }

  lemma KeyClosedIs(s: State)
    requires s.Full() && s.pending == [] && |s.doc.nodes| == 3 && s.stack == KeyFrames([2], true)
    ensures var n := CollectionClosed(s, At(2, 4, false));
            && n.ends == s.ends[1 := 2] && EolOf(n.doc, 1) == EolOf(s.doc, 1)
            && n.stack == [OpenFrame(Frame(0, [], [], Some(1)), false, false, 0, true)]
  {
    hide Filled, BlankRuns, FrameLinked;
    assert s.stack[..1] == [s.stack[0]];
  }

  lemma {:induction false} AfterTwo(s: State, a: seq<Input>, b: seq<Input>, region: bool)
    ensures StateAfter(s, a + b, region) == StateAfter(StateAfter(s, a, region), b, region)
    ensures Losses(s, a + b, region) == Losses(s, a, region) + Losses(StateAfter(s, a, region), b, region)
    decreases |a|
  {
    hide Stepped, LostTo;
    if a == [] {
      assert a + b == b;
    } else {
      assert (a + b)[1..] == a[1..] + b;
      AfterTwo(Stepped(s, a[0].event, a[0].probe, region), a[1..], b, region);
    }
  }

  // The state in front of the second comment.
  lemma KeyAwaits(one: string)
    ensures var s := StateAfter(Begin, KeyEvents(one), false);
            && s.Valid() && KeyEnds(s, 2) && s.Top().frame.pendingKey == Some(1)
            && EolOf(s.doc, 1) == Some(Trivium.Comment(one, false, 4))
  {
    hide Stepped, StateAfter, KeyEnds;
    var i := KeyEvents(one);
    var s := StateAfter(Begin, i[..5], false);
    KeyCommented(one);
    KeyItem(s, one);
    var n := Stepped(s, i[5].event, i[5].probe, false);
    assert n.doc.nodes[1] == s.doc.nodes[1];
    KeyClosed(n);
    assert i == i[..5] + [i[5], i[6]];
    AfterTwo(Begin, i[..5], [i[5], i[6]], false);
    TwoSteps(s, i[5], i[6]);
  }

  lemma TwoSteps(s: State, a: Input, b: Input)
    ensures StateAfter(s, [a, b], false) == Stepped(Stepped(s, a.event, a.probe, false), b.event, b.probe, false)
  {
    hide Stepped;
    AfterCons(s, [a, b], false);
    assert [a, b][1..] == [b];
    AfterCons(Stepped(s, a.event, a.probe, false), [b], false);
    assert [b][1..] == [];
  }

  // No comment of the first events meets a key that has one.
  lemma NothingLostYet(one: string)
    ensures Losses(Begin, KeyEvents(one), false) == []
  {
    hide Stepped, LostTo, StateAfter, Losses;
    var i := KeyEvents(one);
    var head, tail := i[..4], i[5..];
    assert i == head + ([i[4]] + tail);
    var s := StateAfter(Begin, head, false);
    AfterTwo(Begin, head, [i[4]] + tail, false);
    AfterTwo(s, [i[4]], tail, false);
    NoCommentsNoLoss(Begin, head, false);
    NoCommentsNoLoss(StateAfter(s, [i[4]], false), tail, false);
    FreeComment(s, i[4]);
    OneLoss(s, i[4]);
    var none: seq<Trivium> := [];
    assert none + (none + none) == none;
  }

  // A comment that does not stand in front of a `:` takes no other's place.
  lemma FreeComment(s: State, i: Input)
    requires !i.probe.beforeColon
    ensures LostTo(s, i.event, i.probe).None?
  {
  }

  function KeyStream(one: string, two: string): seq<Input> {
    KeyEvents(one) + ([CommentEvent(two)] + ValueEvents())
  }

  // What a stream has left to do, its last comment on line `line`.
  predicate Closes(goals: seq<Goal>, line: nat, input: seq<Input>) {
    AdvanceAll(goals, Structural(EventsOf(input))) == Some([]) && LinesRise(input, line)
  }

  lemma ClosesWith(goals: seq<Goal>, next: seq<Goal>, line: nat, input: seq<Input>, k: nat)
    requires k < |input|
    requires if input[k].event.Comment? then input[k].probe.line > line && next == goals
             else Advance(goals, input[k].event) == Some(next)
    requires Closes(next, if input[k].event.Comment? then input[k].probe.line else line, input[k + 1..])
    ensures Closes(goals, line, input[k..])
  {
    hide Advance, EventsOf, Structural;
    assert input[k..][1..] == input[k + 1..];
    InputTail(input[k..]);
    var more := Structural(EventsOf(input[k + 1..]));
    if input[k].event.Comment? {
      assert [] + more == more;
    } else {
      assert ([input[k].event] + more)[1..] == more;
    }
  }

  lemma GoalMet(below: seq<Goal>, top: Goal, e: Event)
    ensures Advance(below + [top], e) ==
            match top
            case WholeStream => if e.StreamStart? then Some(below + [Documents]) else None
            case Documents =>
              if e.StreamEnd? then Some(below)
              else if e.DocumentStart? then Some(below + [top] + [DocumentTail, Goal.Node])
              else None
            case DocumentTail => if e.DocumentEnd? then Some(below) else None
            case Node => OpenNode(below, e)
            case Items => if e.SequenceEnd? then Some(below) else OpenNode(below + [top], e)
            case Pairs => if e.MappingEnd? then Some(below) else OpenNode(below + [top] + [Goal.Node], e)
  {
    assert (below + [top])[..|below|] == below;
  }

  lemma KeyStreamEnds(one: string, two: string)
    ensures Closes([Documents, DocumentTail, Pairs, Goal.Node], 1, KeyStream(one, two)[7..])
  {
    hide Closes, Advance;
    var s := KeyStream(one, two);
    var t, m, v := [Documents, DocumentTail], [Documents, DocumentTail, Pairs], [Documents, DocumentTail, Pairs, Goal.Node];
    assert t == [Documents] + [DocumentTail] && m == t + [Pairs] && v == m + [Goal.Node] && [Documents] == [] + [Documents];
    GoalMet([], Documents, Event.StreamEnd);
    GoalMet([Documents], DocumentTail, Event.DocumentEnd);
    GoalMet(t, Pairs, MappingEnd);
    GoalMet(m, Goal.Node, s[8].event);
    ClosesNothing(s[12..]);
    ClosesWith([Documents], [], 2, s, 11);
    ClosesWith(t, [Documents], 2, s, 10);
    ClosesWith(m, t, 2, s, 9);
    ClosesWith(v, m, 2, s, 8);
    ClosesWith(v, v, 1, s, 7);
  }

  // The loader is given it.
  lemma KeyStreamIs(one: string, two: string)
    ensures Streams(KeyStream(one, two))
  {
    hide Closes, Advance;
    var s := KeyStream(one, two);
    var t, m, v := [Documents, DocumentTail], [Documents, DocumentTail, Pairs], [Documents, DocumentTail, Pairs, Goal.Node];
    assert m == t + [Pairs] && v == m + [Goal.Node] && [Documents] == [] + [Documents] && [WholeStream] == [] + [WholeStream];
    assert [Documents] + [DocumentTail, Goal.Node] == t + [Goal.Node];
    GoalMet([], WholeStream, Event.StreamStart);
    GoalMet([], Documents, s[1].event);
    GoalMet(t, Goal.Node, s[2].event);
    GoalMet(t, Pairs, s[3].event);
    GoalMet(v, Items, s[5].event);
    GoalMet(v, Items, SequenceEnd);
    KeyStreamEnds(one, two);
    ClosesWith(v + [Items], v, 1, s, 6);
    ClosesWith(v + [Items], v + [Items], 1, s, 5);
    ClosesWith(v + [Items], v + [Items], 0, s, 4);
    ClosesWith(m, v + [Items], 0, s, 3);
    ClosesWith(t + [Goal.Node], m, 0, s, 2);
    ClosesWith([Documents], t + [Goal.Node], 0, s, 1);
    ClosesWith([WholeStream], [Documents], 0, s, 0);
    assert s[0..] == s;
    ClosesAll(s);
  }

  lemma ClosesNothing(input: seq<Input>)
    requires input == []
    ensures Closes([], 2, input)
  {
  }

  lemma ClosesAll(input: seq<Input>)
    requires Closes([WholeStream], 0, input) && input != [] && input[|input| - 1].event.StreamEnd?
    ensures Streams(input)
  {
  }

  // The whole stream: the first comment is written over by the second.
  lemma KeyCommentIsLost(one: string, two: string)
    ensures Streams(KeyStream(one, two))
    ensures Losses(Begin, KeyStream(one, two), false) == [Trivium.Comment(one, false, 4)]
  {
    KeyStreamIs(one, two);
    hide Stepped, StateAfter, KeyEnds, Losses, State.Valid, Streams;
    var a, b, c := KeyEvents(one), [CommentEvent(two)], ValueEvents();
    var s := StateAfter(Begin, a, false);
    NothingLostYet(one);
    KeyAwaits(one);
    AfterTwo(Begin, a, b + c, false);
    AfterTwo(s, b, c, false);
    NoCommentsNoLoss(StateAfter(s, b, false), c, false);
    LostMeans(s, b[0]);
    OneLoss(s, b[0]);
  }

  lemma OneLoss(s: State, i: Input)
    ensures Losses(s, [i], false) == if LostTo(s, i.event, i.probe).Some? then [LostTo(s, i.event, i.probe).value] else []
  {
    hide Stepped, LostTo;
    assert [i][1..] == [];
  }
}
