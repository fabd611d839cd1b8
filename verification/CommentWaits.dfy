// Comments that wait for the node they stand in front of, or the collection they stand in
// (crates/yamluna-core/src/loader.rs, `take_before`, `collection_end`).
module CommentWaits {
  import opened Results
  import opened ScalarEmitter
  import opened Events
  import opened Grammar
  import opened Arena
  import opened Trivia
  import opened LoaderSteps
  import opened CommentHomes
  import opened CommentFound

  // A comment on a line of its own, or behind the dash of a block sequence that has no items, waits.
  lemma CommentWaits(input: seq<LoaderSteps.Input>, k: nat, region: bool)
    requires Streams(input) && k < |input| && input[k].event.Comment?
    requires input[k].probe.ownLine || OnDash(PlacesOf(input[..k], region))
    ensures StateOf(input[..k + 1], region).pending
         == StateOf(input[..k], region).pending + BlankRuns(input[k].probe.blanks) + [TriviumOf(input[k])]
  {
    var s, p := StateOf(input[..k], region), PlacesOf(input[..k], region);
    hide Streams, StateOf, PlacesOf, Grows, Stands, AllOverwrites, Knows, Ordered, Owes, Advance, Ready, State.Shape, BlankRuns;
    var phase, line := FromThere(input, k, region);
    StandsRest(s, phase, line, p, input[k..]);
    ReadyValid(s, phase, line, p);
    TopTells(s, p);
    OneMore(input, k, region);
  }

  // ------------------------------------------------------------------ the parts of a run

  lemma {:induction false} FirstEolIs(p: seq<Trivium>)
    ensures forall m | 0 <= m < FirstEol(p) :: !p[m].EndOfLine()
    ensures FirstEol(p) < |p| ==> p[FirstEol(p)].EndOfLine()
  {
    if p != [] && !p[0].EndOfLine() {
      FirstEolIs(p[1..]);
      forall m | 0 <= m < FirstEol(p) ensures !p[m].EndOfLine() {
        assert m > 0 ==> p[m] == p[1..][m - 1];
      }
    }
  }

  lemma {:induction false} FirstCommentIs(p: seq<Trivium>)
    ensures forall m | 0 <= m < FirstComment(p) :: !p[m].Comment?
  {
    if p != [] && !p[0].Comment? {
      FirstCommentIs(p[1..]);
      forall m | 0 <= m < FirstComment(p) ensures !p[m].Comment? {
        assert m > 0 ==> p[m] == p[1..][m - 1];
      }
    }
  }

  lemma PrefixHas(a: seq<Trivium>, b: seq<Trivium>, t: Trivium)
    requires a <= b && t in a
    ensures t in b
  {
  }

  // What is filed in front of a node is found there, but for the comment that ends the line of a block
  // scalar's header.
  lemma RestHolds(s: LoaderSteps.State, node: nat, run: seq<Trivium>, j: nat)
    requires node < |s.doc.nodes| && j < |run|
    ensures var n := RestFiled(s, node, run);
            && |n.doc.nodes| == |s.doc.nodes| && n.docs == s.docs
            && (run[j] in n.doc.nodes[node].trivia.before
                || (run[j].EndOfLine() && s.doc.nodes[node].BlockScalar() && n.doc.nodes[node].trivia.eol == Some(run[j])))
            && (forall i | 0 <= i < |s.doc.nodes| && i != node :: n.doc.nodes[i] == s.doc.nodes[i])
  {
    var o := s.doc.nodes[node];
    var k := FirstEol(run);
    FirstEolIs(run);
    var n := RestFiled(s, node, run);
    if o.trivia.eol.None? && o.BlockScalar() && k < |run| {
      var rest := run[..k] + run[k + 1..];
      if j < k {
        assert rest[j] == run[j];
      } else if j > k {
        assert rest[j - 1] == run[j];
      }
      assert n.doc.nodes[node].trivia.before == o.trivia.before + rest;
    } else {
      assert n.doc.nodes[node].trivia.before == o.trivia.before + run;
    }
  }

  // Where the trivium at `j` of a run in front of a node is: with the innermost collection, when that has no children
  // and no comment in the run so far ends a line; else in front of the node, or at the end of its first line.
  ghost predicate RunHeld(s: LoaderSteps.State, n: LoaderSteps.State, node: nat, run: seq<Trivium>, j: nat)
    requires j < |run|
  {
    var t := run[j];
    && node < |n.doc.nodes| && n.docs == s.docs
    && if s.stack != [] && !s.Top().hasChild && (forall m | 0 <= m <= j :: !run[m].EndOfLine()) then
         s.Top().frame.node < |n.doc.nodes| && t in n.doc.nodes[s.Top().frame.node].trivia.inner
       else
         || t in n.doc.nodes[node].trivia.before
         || (t.EndOfLine() && n.doc.nodes[node].trivia.eol == Some(t))
  }

  lemma RunHolds(s: LoaderSteps.State, node: nat, run: seq<Trivium>, j: nat)
    requires node < |s.doc.nodes| && j < |run| && (s.stack != [] ==> s.Top().frame.node < node)
    ensures RunHeld(s, RunFiled(s, node, run), node, run, j)
  {
    if s.stack != [] && !s.Top().hasChild {
      var owner, k := s.Top().frame.node, FirstEol(run);
      FirstEolIs(run);
      var t := s.doc.nodes[owner].trivia;
      var m := TriviaSet(s, owner, t.(inner := t.inner + run[..k]));
      assert RunFiled(s, node, run) == RestFiled(m, node, run[k..]);
      hide RestFiled, FirstEol;
      assert m.doc.nodes[owner].trivia.inner == t.inner + run[..k];
      if j < k {
        assert run[..k][j] == run[j];
        assert run[j] in m.doc.nodes[owner].trivia.inner;
        if k < |run| {
          RestHolds(m, node, run[k..], 0);
        } else {
          RestOther(m, node, run[k..]);
        }
      } else {
        assert run[k..][j - k] == run[j];
        RestHolds(m, node, run[k..], j - k);
        assert run[k].EndOfLine();
      }
    } else {
      RestHolds(s, node, run, j);
    }
  }

  lemma RestOther(s: LoaderSteps.State, node: nat, run: seq<Trivium>)
    requires node < |s.doc.nodes|
    ensures var n := RestFiled(s, node, run);
            && |n.doc.nodes| == |s.doc.nodes| && n.docs == s.docs
            && forall i | 0 <= i < |s.doc.nodes| && i != node :: n.doc.nodes[i] == s.doc.nodes[i]
  {
  }

  // ------------------------------------------------------------------ at a node

  predicate OpensBlock(e: Event) {
    (e.SequenceStart? || e.MappingStart?) && e.structure.Block?
  }

  // The run in front of a node that is no block collection inside another.
  lemma NodeHolds(s: LoaderSteps.State, e: Event, probe: Probe, region: bool, j: nat)
    requires s.Full() && IsNodeEvent(e) && !(OpensBlock(e) && s.stack != [])
    requires j < |s.pending + BlankRuns(probe.blanks)|
    ensures var run := s.pending + BlankRuns(probe.blanks);
            var n := Stepped(s, e, probe, region);
            |s.doc.nodes| < |n.doc.nodes| && RunHeld(s, n, |s.doc.nodes|, run, j)
  {
    hide BlankRuns, RunFiled, RunHeld, BoneOf;
    var run := s.pending + BlankRuns(probe.blanks);
    var b := BlanksNoted(s, probe.blanks);
    BlanksKeep(s, probe.blanks, BlankLines(0));
    var a := NodeAppended(b, BoneOf(e), probe);
    var id := |s.doc.nodes|;
    BlockIs(e, probe);
    TopBefore(s);
    assert a.pending == run && run != [];
    assert a.doc.nodes[id].BlockCollection() <==> OpensBlock(e);
    RunHolds(a.(pending := []), id, run, j);
    assert BeforeTaken(a, id, probe.blankAbove) == RunFiled(a.(pending := []), id, run);
    AddedWith(s, e, probe, region);
    hide Stepped, BeforeTaken, State.Valid;
    HeldThere(s, a.(pending := []), RunFiled(a.(pending := []), id, run), Stepped(s, e, probe, region), id, run, j);
  }

  // What the event of a node leaves in the arena.
  lemma AddedWith(s: LoaderSteps.State, e: Event, probe: Probe, region: bool)
    requires s.Full() && IsNodeEvent(e) && BlanksNoted(s, probe.blanks).Valid()
    ensures var a := NodeAppended(BlanksNoted(s, probe.blanks), BoneOf(e), probe);
            |s.doc.nodes| < |a.doc.nodes| && (a.stack != [] ==> a.Top().frame.node < |a.doc.nodes|)
    ensures var a := NodeAppended(BlanksNoted(s, probe.blanks), BoneOf(e), probe);
            var b := BeforeTaken(a, |s.doc.nodes|, probe.blankAbove);
            var n := Stepped(s, e, probe, region);
            n.doc.nodes == b.doc.nodes && n.docs == b.docs && n.deferredEol == b.deferredEol
  {
    hide BeforeTaken, BoneOf, BlankRuns;
    TopBefore(s);
  }

  lemma BlockIs(e: Event, probe: Probe)
    requires IsNodeEvent(e)
    ensures Node.Node(BoneOf(e), probe.line, probe.col, NoTrivia).BlockCollection() <==> OpensBlock(e)
    ensures forall t :: Node.Node(BoneOf(e), probe.line, probe.col, t).BlockCollection() <==> OpensBlock(e)
  {
  }

  lemma TopBefore(s: LoaderSteps.State)
    requires s.Valid()
    ensures s.stack != [] ==> s.Top().frame.node < |s.doc.nodes|
  {
    if s.stack != [] {
      assert FrameLinked(s.Top(), s.doc.nodes);
    }
  }

  lemma HeldThere(s: LoaderSteps.State, a: LoaderSteps.State, r: LoaderSteps.State, n: LoaderSteps.State, node: nat,
                  run: seq<Trivium>, j: nat)
    requires j < |run| && RunHeld(a, r, node, run, j) && a.stack == s.stack && a.docs == s.docs
    requires n.doc.nodes == r.doc.nodes && n.docs == r.docs
    ensures RunHeld(s, n, node, run, j)
  {
  }

  // ------------------------------------------------------------------ at a block collection inside another

  // Nothing from `j` on stands left of the column, or ends a line.
  ghost predicate Inside(run: seq<Trivium>, j: nat, col: nat) {
    forall m | j <= m < |run| :: !run[m].LeftOf(col) && !run[m].EndOfLine()
  }

  // A comment that is indented into a block collection, and all behind it, is in that.
  lemma BlockHolds(s: LoaderSteps.State, e: Event, probe: Probe, region: bool, j: nat)
    requires s.Full() && OpensBlock(e) && s.stack != []
    requires var run := s.pending + BlankRuns(probe.blanks); j < |run| && run[j].Comment?
    ensures var run := s.pending + BlankRuns(probe.blanks);
            var n, id := Stepped(s, e, probe, region), |s.doc.nodes|;
            && id < |n.doc.nodes| && n.docs == s.docs
            && if Inside(run, j, probe.col) then run[j] in n.doc.nodes[id].trivia.inner
               else
                 || run[j] in n.doc.nodes[id].trivia.before
                 || (!s.Top().hasChild && s.Top().frame.node < |n.doc.nodes| && run[j] in n.doc.nodes[s.Top().frame.node].trivia.inner)
  {
    hide BlankRuns, RunFiled, RunHeld, BoneOf, InsideTaken, BeforeTaken;
    var run := s.pending + BlankRuns(probe.blanks);
    var b := BlanksNoted(s, probe.blanks);
    BlanksKeep(s, probe.blanks, BlankLines(0));
    var a := NodeAppended(b, BoneOf(e), probe);
    BlockIs(e, probe);
    TopBefore(s);
    assert a.pending == run && a.doc.nodes[|s.doc.nodes|].BlockCollection() && a.doc.nodes[|s.doc.nodes|].col == probe.col;
    assert a.stack == s.stack && a.docs == s.docs;
    AddedWith(s, e, probe, region);
    assert a.Top() == s.Top();
    hide *;
    BlockTakes(a, |s.doc.nodes|, probe.blankAbove, j);
  }

  lemma BlockTakes(a: LoaderSteps.State, id: nat, blankAbove: bool, j: nat)
    requires id < |a.doc.nodes| && a.doc.nodes[id].BlockCollection() && a.stack != [] && a.Top().frame.node < id
    requires j < |a.pending| && a.pending[j].Comment?
    ensures var n := BeforeTaken(a, id, blankAbove);
            && |n.doc.nodes| == |a.doc.nodes| && n.docs == a.docs
            && if Inside(a.pending, j, a.doc.nodes[id].col) then a.pending[j] in n.doc.nodes[id].trivia.inner
               else
                 || a.pending[j] in n.doc.nodes[id].trivia.before
                 || (!a.Top().hasChild && a.pending[j] in n.doc.nodes[a.Top().frame.node].trivia.inner)
  {
    var t := a.pending[j];
    var col := a.doc.nodes[id].col;
    BeforeSame(a, id, blankAbove);
    BeforeGrows(a, id, blankAbove);
    var (m, lifted) := InsideTaken(a, id, blankAbove);
    InsideSplits(a, id, blankAbove, j);
    InsideSame(a, id, blankAbove);
    hide InsideTaken, RunFiled, RunHeld, SameBut, DocumentGrows, BeforeTaken, Inside, LoaderSteps.Node.BlockCollection;
    SameStack(a, m);
    SameDocs(a, m);
    SameStack(a, BeforeTaken(a, id, blankAbove));
    if m.pending == [] && lifted == [] {
      NothingLeft(a, m, id, blankAbove);
    } else {
      SomeLeft(a, m, lifted, id, blankAbove);
      BlockKind(a, m, id);
      var found := m.(pending := []);
      RunGrows(found, id, lifted + m.pending);
      if Inside(a.pending, j, col) {
        InnerGrows(m.doc, RunFiled(found, id, lifted + m.pending).doc, id, t);
      } else {
        LeftFiled(found, id, lifted, m.pending, t);
      }
    }
  }

  lemma BlockKind(a: LoaderSteps.State, m: LoaderSteps.State, id: nat)
    requires id < |a.doc.nodes| == |m.doc.nodes| && m.doc.nodes[id].bone == a.doc.nodes[id].bone
    ensures m.doc.nodes[id].BlockCollection() <==> a.doc.nodes[id].BlockCollection()
  {
  }

  // What a block collection leaves goes in front of it, or to the collection around it.
  lemma LeftFiled(s: LoaderSteps.State, id: nat, lifted: seq<Trivium>, left: seq<Trivium>, t: Trivium)
    requires id < |s.doc.nodes| && s.doc.nodes[id].BlockCollection() && s.stack != [] && s.Top().frame.node < id
    requires exists i :: 0 <= i < |left| && left[i] == t
    ensures var n := RunFiled(s, id, lifted + left);
            || (id < |n.doc.nodes| && t in n.doc.nodes[id].trivia.before)
            || (!s.Top().hasChild && s.Top().frame.node < |n.doc.nodes| && t in n.doc.nodes[s.Top().frame.node].trivia.inner)
  {
    hide RunFiled, RunHeld;
    var i :| 0 <= i < |left| && left[i] == t;
    var run := lifted + left;
    assert run[|lifted| + i] == t;
    RunHolds(s, id, run, |lifted| + i);
    HeldNode(s, RunFiled(s, id, run), id, run, |lifted| + i);
    BlockNoScalar(s, RunFiled(s, id, run), id, run, |lifted| + i);
  }

  lemma HeldNode(s: LoaderSteps.State, n: LoaderSteps.State, id: nat, run: seq<Trivium>, j: nat)
    requires j < |run| && RunHeld(s, n, id, run, j)
    ensures id < |n.doc.nodes|
  {
  }

  lemma InnerGrows(d: LoaderSteps.Document, n: LoaderSteps.Document, id: nat, t: Trivium)
    requires DocumentGrows(d, n, {}) && id < |d.nodes| && t in d.nodes[id].trivia.inner
    ensures id < |n.nodes| && t in n.nodes[id].trivia.inner
  {
    assert NodeGrows(d.nodes[id], n.nodes[id]);
    PrefixHas(d.nodes[id].trivia.inner, n.nodes[id].trivia.inner, t);
  }

  lemma NothingLeft(a: LoaderSteps.State, m: LoaderSteps.State, id: nat, blankAbove: bool)
    requires id < |a.doc.nodes| && a.doc.nodes[id].BlockCollection() && a.stack != [] && a.Top().frame.node < id && a.pending != []
    requires InsideTaken(a, id, blankAbove) == (m, []) && m.pending == []
    ensures BeforeTaken(a, id, blankAbove) == m
  {
    hide InsideTaken;
  }

  lemma SomeLeft(a: LoaderSteps.State, m: LoaderSteps.State, lifted: seq<Trivium>, id: nat, blankAbove: bool)
    requires id < |a.doc.nodes| && a.doc.nodes[id].BlockCollection() && a.stack != [] && a.Top().frame.node < id && a.pending != []
    requires InsideTaken(a, id, blankAbove) == (m, lifted) && !(m.pending == [] && lifted == [])
    requires m.stack == a.stack && |m.doc.nodes| == |a.doc.nodes|
    ensures BeforeTaken(a, id, blankAbove) == RunFiled(m.(pending := []), id, lifted + m.pending)
  {
    hide InsideTaken, RunFiled;
  }

  // A block collection is no block scalar.
  lemma BlockNoScalar(s: LoaderSteps.State, n: LoaderSteps.State, id: nat, run: seq<Trivium>, j: nat)
    requires j < |run| && RunHeld(s, n, id, run, j) && id < |s.doc.nodes| && s.doc.nodes[id].BlockCollection()
    requires s.stack != [] && s.Top().frame.node < id && n == RunFiled(s, id, run)
    ensures run[j] in n.doc.nodes[id].trivia.before
         || (!s.Top().hasChild && s.Top().frame.node < |n.doc.nodes| && run[j] in n.doc.nodes[s.Top().frame.node].trivia.inner)
  {
    if run[j] !in n.doc.nodes[id].trivia.before && !(!s.Top().hasChild && forall m | 0 <= m <= j :: !run[m].EndOfLine()) {
      NoScalarEol(s, id, run, j);
    }
  }

  lemma NoScalarEol(s: LoaderSteps.State, id: nat, run: seq<Trivium>, j: nat)
    requires id < |s.doc.nodes| && s.doc.nodes[id].BlockCollection() && j < |run| && (s.stack != [] ==> s.Top().frame.node < id)
    requires !(s.stack != [] && !s.Top().hasChild && forall m | 0 <= m <= j :: !run[m].EndOfLine())
    ensures var n := RunFiled(s, id, run); id < |n.doc.nodes| && run[j] in n.doc.nodes[id].trivia.before
  {
    FirstEolIs(run);
    if s.stack != [] && !s.Top().hasChild {
      var k := FirstEol(run);
      assert run[k..][j - k] == run[j];
    }
  }

  // What is taken inside, and what is left.
  lemma InsideSplits(a: LoaderSteps.State, id: nat, blankAbove: bool, j: nat)
    requires id < |a.doc.nodes| && a.stack != [] && j < |a.pending| && a.pending[j].Comment?
    ensures var (m, lifted) := InsideTaken(a, id, blankAbove);
            && |m.doc.nodes| == |a.doc.nodes|
            && if Inside(a.pending, j, a.doc.nodes[id].col) then a.pending[j] in m.doc.nodes[id].trivia.inner
               else exists i :: 0 <= i < |m.pending| && m.pending[i] == a.pending[j]
    ensures InsideTaken(a, id, blankAbove).0.doc.nodes[id].bone == a.doc.nodes[id].bone
  {
    var p, col := a.pending, a.doc.nodes[id].col;
    RunSplits(p, col, a.Top().hasChild, blankAbove, j);
    hide ToStart, ToEnd, HeadBlanks, TrailingCut, Inside;
    var (m, lifted) := InsideTaken(a, id, blankAbove);
    var taken := Taken(p, col, a.Top().hasChild, blankAbove);
    assert m.doc.nodes[id].trivia.inner == a.doc.nodes[id].trivia.inner + taken;
    assert m.pending == Left(p, col, blankAbove);
  }

  // The part of a run that a block collection at a column takes, and what waits on, blank runs lifted out aside.
  function Taken(p: seq<Trivium>, col: nat, kids: bool, blankAbove: bool): seq<Trivium> {
    var inside, rest := p[ToStart(p, col)..ToEnd(p, col)], p[..ToStart(p, col)] + p[ToEnd(p, col)..];
    inside[if kids then HeadBlanks(inside) else 0..] + rest[if blankAbove then TrailingCut(rest) else |rest|..]
  }

  function Left(p: seq<Trivium>, col: nat, blankAbove: bool): seq<Trivium> {
    var rest := p[..ToStart(p, col)] + p[ToEnd(p, col)..];
    rest[..if blankAbove then TrailingCut(rest) else |rest|]
  }

  lemma RunSplits(p: seq<Trivium>, col: nat, kids: bool, blankAbove: bool, j: nat)
    requires j < |p| && p[j].Comment?
    ensures if Inside(p, j, col) then p[j] in Taken(p, col, kids, blankAbove)
            else exists i :: 0 <= i < |Left(p, col, blankAbove)| && Left(p, col, blankAbove)[i] == p[j]
  {
    var s, e := ToStart(p, col), ToEnd(p, col);
    InsideFrom(p, col, j);
    hide ToStart, ToEnd, Inside;
    if Inside(p, j, col) {
      assert p[s..e][j - s] == p[j];
      InnerPart(p[s..e], j - s, kids);
    } else {
      assert p[..s][j] == p[j];
      OuterPart(p[..s], p[e..], j, blankAbove);
      assert Left(p, col, blankAbove)[j] == p[j];
    }
  }

  lemma InsideFrom(p: seq<Trivium>, col: nat, j: nat)
    requires j < |p| && p[j].Comment?
    ensures Inside(p, j, col) ==> ToStart(p, col) <= j < ToEnd(p, col)
    ensures !Inside(p, j, col) ==> j < ToStart(p, col)
  {
    ToCutIs(p, col);
    hide ToStart, ToEnd;
  }

  lemma InnerPart(inside: seq<Trivium>, j: nat, kids: bool)
    requires j < |inside| && inside[j].Comment?
    ensures inside[j] in inside[if kids then HeadBlanks(inside) else 0..]
  {
    FirstCommentIs(inside);
    var at := if kids then HeadBlanks(inside) else 0;
    assert at <= j;
    assert inside[at..][j - at] == inside[j];
  }

  lemma OuterPart(a: seq<Trivium>, b: seq<Trivium>, j: nat, blankAbove: bool)
    requires j < |a| && a[j].Comment?
    ensures var rest := a + b;
            var left := rest[..if blankAbove then TrailingCut(rest) else |rest|];
            j < |left| && left[j] == a[j]
  {
    assert (a + b)[j] == a[j];
  }

  // ------------------------------------------------------------------ at the end of a collection

  // No comment of the run up to `j` stands left of the column.
  ghost predicate NoneLeft(run: seq<Trivium>, j: nat, col: nat) {
    forall m | 0 <= m <= j && m < |run| :: !run[m].LeftOf(col)
  }

  // A comment in front of a closing bracket, or indented to the content of a block collection that is not the root, with
  // nothing further out in front of it, is behind the collection's children; else it waits on.
  lemma EndHolds(s: LoaderSteps.State, e: Event, probe: Probe, region: bool, j: nat)
    requires s.Full() && s.stack != [] && (e.SequenceEnd? || e.MappingEnd?)
    requires var run := s.pending + BlankRuns(probe.blanks); j < |run| && run[j].Comment?
    ensures var run := s.pending + BlankRuns(probe.blanks);
            var n, f := Stepped(s, e, probe, region), s.Top();
            && f.frame.node < |n.doc.nodes| && n.docs == s.docs
            && if f.flow || (|s.stack| > 1 && NoneLeft(run, j, f.col)) then run[j] in n.doc.nodes[f.frame.node].trivia.after
               else run[j] in n.pending
  {
    hide BlankRuns, Filled, StackFiled, EndLine, State.Valid;
    var run := s.pending + BlankRuns(probe.blanks);
    var f := s.Top();
    TopBefore(s);
    var cut := AfterCut(run, f, |s.stack| == 1);
    AfterIs(run, f, |s.stack| == 1, j);
    hide NoneLeft;
    ClosedWith(s, e, probe, region);
    hide Stepped, AfterCut;
    if j < cut {
      assert run[..cut][j] == run[j];
    } else {
      assert run[cut..][j - cut] == run[j];
    }
  }

  lemma ClosedWith(s: LoaderSteps.State, e: Event, probe: Probe, region: bool)
    requires s.Full() && s.stack != [] && (e.SequenceEnd? || e.MappingEnd?) && s.Top().frame.node < |s.doc.nodes|
    ensures var run, n, f := s.pending + BlankRuns(probe.blanks), Stepped(s, e, probe, region), s.Top();
            var cut := AfterCut(run, f, |s.stack| == 1);
            && n.docs == s.docs && f.frame.node < |n.doc.nodes| && n.pending == run[cut..]
            && n.doc.nodes[f.frame.node].trivia.after == run[..cut]
  {
    hide BlankRuns, Filled, StackFiled, EndLine, AfterCut, State.Valid;
  }

  lemma AfterIs(run: seq<Trivium>, f: OpenFrame, root: bool, j: nat)
    requires j < |run| && run[j].Comment?
    ensures j < AfterCut(run, f, root) <==> f.flow || (!root && NoneLeft(run, j, f.col))
  {
    FromCutIs(run, f.col, FromCut(run, f.col));
    var i := FromCut(run, f.col);
    var k: nat :| StopsAt(run, f.col, i, k);
    if j >= i {
      assert j >= k;
      assert run[k].LeftOf(f.col);
    }
  }

  // ------------------------------------------------------------------ found in the documents

  // The run in front of the event at `k`.
  function RunAt(input: seq<LoaderSteps.Input>, k: nat, region: bool): seq<Trivium>
    requires k < |input|
  {
    StateOf(input[..k], region).pending + BlankRuns(input[k].probe.blanks)
  }

  // A comment of the run in front of the event at `k`.
  predicate Waiting(input: seq<LoaderSteps.Input>, k: nat, region: bool, j: nat) {
    Streams(input) && k < |input| && j < |RunAt(input, k, region)| && RunAt(input, k, region)[j].Comment?
  }

  predicate InBefore(docs: seq<LoaderSteps.Document>, d: nat, id: nat, t: Trivium) {
    HasNode(docs, d, id) && t in docs[d].nodes[id].trivia.before
  }

  predicate InInner(docs: seq<LoaderSteps.Document>, d: nat, id: nat, t: Trivium) {
    HasNode(docs, d, id) && t in docs[d].nodes[id].trivia.inner
  }

  predicate InAfter(docs: seq<LoaderSteps.Document>, d: nat, id: nat, t: Trivium) {
    HasNode(docs, d, id) && t in docs[d].nodes[id].trivia.after
  }

  // What a node holds behind the event at `k` is found in the documents.
  lemma HeldIsFound(input: seq<LoaderSteps.Input>, k: nat, region: bool, id: nat, t: Trivium)
    requires Streams(input) && k <= |input| && id < |StateOf(input[..k], region).doc.nodes|
    ensures var s := StateOf(input[..k], region);
            var docs, d, n := DocumentsOf(input, region), |s.docs|, s.doc.nodes[id];
            && (t in n.trivia.before ==> InBefore(docs, d, id, t)) && (t in n.trivia.inner ==> InInner(docs, d, id, t))
            && (t in n.trivia.after ==> InAfter(docs, d, id, t))
  {
    hide Streams, StateOf, Grows, Stands, AllOverwrites;
    var phase, line := FromThere(input, k, region);
    var s := StateOf(input[..k], region);
    NodeFound(s, StateOf(input, region), AllOverwrites(s, input[k..], region), id);
  }

  lemma StateThere(input: seq<LoaderSteps.Input>, k: nat, region: bool) returns (phase: Phase, line: nat)
    requires Streams(input) && k < |input|
    ensures var s, p := StateOf(input[..k], region), PlacesOf(input[..k], region);
            && Ready(s, phase, line) && Knows(s, p) && s.Valid() && Ordered(s)
            && (!input[k].event.Comment? ==> Advance(Owes(s.Shape(), phase), input[k].event).Some?)
    ensures StateOf(input[..k + 1], region) == Stepped(StateOf(input[..k], region), input[k].event, input[k].probe, region)
  {
    hide Streams, StateOf, PlacesOf, Grows, AllOverwrites, Knows, Ordered, Owes, Advance, Ready, State.Shape, Placing, Stands;
    var s, p := StateOf(input[..k], region), PlacesOf(input[..k], region);
    phase, line := FromThere(input, k, region);
    StandsRest(s, phase, line, p, input[k..]);
    ReadyValid(s, phase, line, p);
    StandsNext(s, phase, line, p, input[k..], region);
    OneMore(input, k, region);
  }

  // The innermost collection has no children, and no comment of the run up to `j` ends a line.
  ghost predicate Inner(p: Places, run: seq<Trivium>, j: nat) {
    p.shape.stack != [] && LastKid(Arena.Top(p.shape)).None? && forall m | 0 <= m <= j && m < |run| :: !run[m].EndOfLine()
  }

  // A comment on a line of its own in front of a node is in front of it in the document; in front of the first node of
  // a collection, with no comment in the run that ends a line, it is the collection's.
  lemma OwnLineAtNode(input: seq<LoaderSteps.Input>, k: nat, region: bool, j: nat)
    requires Waiting(input, k, region, j) && RunAt(input, k, region)[j].ownLine && IsNodeEvent(input[k].event)
    requires OpensBlock(input[k].event) ==> PlacesOf(input[..k], region).shape.stack == []
    ensures var p, t := PlacesOf(input[..k], region), RunAt(input, k, region)[j];
            var docs, d := DocumentsOf(input, region), |p.shape.done|;
            if Inner(p, RunAt(input, k, region), j) then InInner(docs, d, Arena.Top(p.shape).node, t)
            else InBefore(docs, d, |p.shape.tree.bones|, t)
  {
    var s, p, i := StateOf(input[..k], region), PlacesOf(input[..k], region), input[k];
    var run := RunAt(input, k, region);
    hide Streams, StateOf, PlacesOf, Knows, Ordered, Owes, Advance, Ready, State.Shape, BlankRuns, State.Valid, RunHeld;
    var phase, line := StateThere(input, k, region);
    NodeFull(s, phase, line, i.event);
    TopTells(s, p);
    NodeHolds(s, i.event, i.probe, region, j);
    var n := StateOf(input[..k + 1], region);
    HeldInner(s, n, p, |s.doc.nodes|, run, j);
    HeldIsFound(input, k + 1, region, |s.doc.nodes|, run[j]);
    if Inner(p, run, j) {
      HeldIsFound(input, k + 1, region, s.Top().frame.node, run[j]);
    }
  }

  predicate IsBlockScalar(e: Event) {
    e.Scalar? && (e.style.Literal? || e.style.Folded?)
  }

  // The first comment of the run that ends a line is at the end of the header's line, when the node is a block scalar and
  // has no comment there yet, and in front of any other node.
  lemma FirstOnNode(s: LoaderSteps.State, e: Event, probe: Probe, region: bool, j: nat)
    requires s.Full() && IsNodeEvent(e) && !(OpensBlock(e) && s.stack != [])
    requires var run := s.pending + BlankRuns(probe.blanks);
             j < |run| && run[j].EndOfLine() && forall m | 0 <= m < j :: !run[m].EndOfLine()
    ensures var run, n, id := s.pending + BlankRuns(probe.blanks), Stepped(s, e, probe, region), |s.doc.nodes|;
            && id < |n.doc.nodes| && n.docs == s.docs
            && if IsBlockScalar(e) && s.deferredEol.None? then n.doc.nodes[id].trivia.eol == Some(run[j])
               else run[j] in n.doc.nodes[id].trivia.before
  {
    hide BlankRuns;
    var run := s.pending + BlankRuns(probe.blanks);
    var b := BlanksNoted(s, probe.blanks);
    BlanksKeep(s, probe.blanks, BlankLines(0));
    var a := NodeAppended(b, BoneOf(e), probe);
    var id := |s.doc.nodes|;
    BlockIs(e, probe);
    ScalarIs(e, probe);
    TopBefore(s);
    AddedWith(s, e, probe, region);
    assert a.pending == run && run != [] && a.stack == s.stack && a.docs == s.docs;
    assert a.doc.nodes[id].BlockCollection() <==> OpensBlock(e);
    assert a.doc.nodes[id].BlockScalar() <==> IsBlockScalar(e);
    assert a.doc.nodes[id].trivia.eol == s.deferredEol;
    assert BeforeTaken(a, id, probe.blankAbove) == RunFiled(a.(pending := []), id, run);
    hide Stepped, BeforeTaken, State.Valid, BoneOf, NodeAppended, BlanksNoted, RunFiled;
    FirstFiled(a.(pending := []), id, run, j);
  }

  lemma ScalarIs(e: Event, probe: Probe)
    requires IsNodeEvent(e)
    ensures forall t :: Node.Node(BoneOf(e), probe.line, probe.col, t).BlockScalar() <==> IsBlockScalar(e)
  {
  }

  lemma FirstFiled(s: LoaderSteps.State, id: nat, run: seq<Trivium>, j: nat)
    requires id < |s.doc.nodes| && (s.stack != [] ==> s.Top().frame.node < id)
    requires j < |run| && run[j].EndOfLine() && forall m | 0 <= m < j :: !run[m].EndOfLine()
    ensures var n := RunFiled(s, id, run);
            && id < |n.doc.nodes| && n.docs == s.docs
            && if s.doc.nodes[id].BlockScalar() && s.doc.nodes[id].trivia.eol.None? then n.doc.nodes[id].trivia.eol == Some(run[j])
               else run[j] in n.doc.nodes[id].trivia.before
  {
    FirstEolIs(run);
    assert FirstEol(run) == j;
    if s.stack != [] && !s.Top().hasChild {
      var owner := s.Top().frame.node;
      var t := s.doc.nodes[owner].trivia;
      var m := TriviaSet(s, owner, t.(inner := t.inner + run[..j]));
      assert RunFiled(s, id, run) == RestFiled(m, id, run[j..]);
      assert run[j..][0] == run[j];
      FirstAt(m, id, run[j..], 0);
    } else {
      FirstAt(s, id, run, j);
    }
  }

  lemma FirstAt(s: LoaderSteps.State, id: nat, run: seq<Trivium>, j: nat)
    requires id < |s.doc.nodes| && j < |run| && run[j].EndOfLine() && forall m | 0 <= m < j :: !run[m].EndOfLine()
    ensures var n := RestFiled(s, id, run);
            && |n.doc.nodes| == |s.doc.nodes| && n.docs == s.docs
            && if s.doc.nodes[id].BlockScalar() && s.doc.nodes[id].trivia.eol.None? then n.doc.nodes[id].trivia.eol == Some(run[j])
               else run[j] in n.doc.nodes[id].trivia.before
  {
    FirstEolIs(run);
    assert FirstEol(run) == j;
  }

  // So a comment behind the dash of a block sequence without items ends up with the item.
  lemma DashCommentAtNode(input: seq<LoaderSteps.Input>, k: nat, region: bool, j: nat)
    requires Waiting(input, k, region, j) && RunAt(input, k, region)[j].EndOfLine() && IsNodeEvent(input[k].event)
    requires forall m | 0 <= m < j :: !RunAt(input, k, region)[m].EndOfLine()
    requires OpensBlock(input[k].event) ==> PlacesOf(input[..k], region).shape.stack == []
    ensures var p, t := PlacesOf(input[..k], region), RunAt(input, k, region)[j];
            var docs, d, id := DocumentsOf(input, region), |p.shape.done|, |p.shape.tree.bones|;
            if IsBlockScalar(input[k].event) && StateOf(input[..k], region).deferredEol.None? then
              Place(d, id) !in AllOverwrites(StateOf(input[..k + 1], region), input[k + 1..], region) ==> HasEol(docs, d, id, t)
            else InBefore(docs, d, id, t)
  {
    var s, p, i := StateOf(input[..k], region), PlacesOf(input[..k], region), input[k];
    var run := RunAt(input, k, region);
    hide Streams, StateOf, PlacesOf, Knows, Ordered, Owes, Advance, Ready, State.Shape, BlankRuns, State.Valid, AllOverwrites, NoKey;
    var phase, line := StateThere(input, k, region);
    NodeFull(s, phase, line, i.event);
    TopTells(s, p);
    FirstOnNode(s, i.event, i.probe, region, j);
    hide Stepped;
    if IsBlockScalar(i.event) && s.deferredEol.None? {
      EolLoaded(input, k + 1, region, |s.doc.nodes|, run[j]);
    } else {
      HeldIsFound(input, k + 1, region, |s.doc.nodes|, run[j]);
    }
  }

  lemma NodeFull(s: LoaderSteps.State, phase: Phase, line: nat, e: Event)
    requires Ready(s, phase, line) && s.Valid() && Advance(Owes(s.Shape(), phase), e).Some?
    ensures IsNodeEvent(e) ==> s.Full()
    ensures e.SequenceEnd? || e.MappingEnd? ==> s.Full() && s.stack != []
  {
    hide Owes, Advance, Sound;
    FedPays(s.Shape(), phase, e, false);
    if e.SequenceEnd? || e.MappingEnd? {
      NothingDeferred(s, phase, line, e);
    }
  }

  lemma HeldInner(s: LoaderSteps.State, n: LoaderSteps.State, p: Places, node: nat, run: seq<Trivium>, j: nat)
    requires j < |run| && RunHeld(s, n, node, run, j) && run[j].Comment? && run[j].ownLine
    requires |p.shape.stack| == |s.stack|
    requires s.stack != [] ==> Arena.Top(p.shape) == s.Top().frame && (s.Top().hasChild <==> LastKid(s.Top().frame).Some?)
    ensures node < |n.doc.nodes| && n.docs == s.docs
    ensures if Inner(p, run, j) then s.Top().frame.node < |n.doc.nodes| && run[j] in n.doc.nodes[s.Top().frame.node].trivia.inner
            else run[j] in n.doc.nodes[node].trivia.before
  {
  }

  // In front of a block collection inside another it is inside that, if it and all behind it are indented to it and none ends
  // a line; else it is in front of it, or the outer collection's.
  lemma CommentAtBlock(input: seq<LoaderSteps.Input>, k: nat, region: bool, j: nat)
    requires Waiting(input, k, region, j) && OpensBlock(input[k].event) && PlacesOf(input[..k], region).shape.stack != []
    ensures var p, t := PlacesOf(input[..k], region), RunAt(input, k, region)[j];
            var docs, d, id := DocumentsOf(input, region), |p.shape.done|, |p.shape.tree.bones|;
            if Inside(RunAt(input, k, region), j, input[k].probe.col) then InInner(docs, d, id, t)
            else
              || InBefore(docs, d, id, t)
              || (LastKid(Arena.Top(p.shape)).None? && InInner(docs, d, Arena.Top(p.shape).node, t))
  {
    var s, p, i := StateOf(input[..k], region), PlacesOf(input[..k], region), input[k];
    var run := RunAt(input, k, region);
    hide Streams, StateOf, PlacesOf, Knows, Ordered, Owes, Advance, Ready, State.Shape, BlankRuns, State.Valid, Inside;
    var phase, line := StateThere(input, k, region);
    NodeFull(s, phase, line, i.event);
    TopTells(s, p);
    BlockHolds(s, i.event, i.probe, region, j);
    HeldIsFound(input, k + 1, region, |s.doc.nodes|, run[j]);
    if s.Top().frame.node < |StateOf(input[..k + 1], region).doc.nodes| {
      HeldIsFound(input, k + 1, region, s.Top().frame.node, run[j]);
    }
  }

  // In front of the end of a collection it is behind the collection's children, inside brackets always, and in a block
  // collection that is not the root if nothing up to it stands left of the content; else it waits on.
  lemma CommentAtEnd(input: seq<LoaderSteps.Input>, k: nat, region: bool, j: nat)
    requires Waiting(input, k, region, j) && (input[k].event.SequenceEnd? || input[k].event.MappingEnd?)
    ensures var p := PlacesOf(input[..k], region);
            p.shape.stack != [] && Arena.Top(p.shape).node < |p.cols| && Arena.Top(p.shape).node < |p.shape.tree.bones|
    ensures var p, t := PlacesOf(input[..k], region), RunAt(input, k, region)[j];
            var f := Arena.Top(p.shape);
            if IsFlow(p.shape.tree.bones[f.node]) || (|p.shape.stack| > 1 && NoneLeft(RunAt(input, k, region), j, p.cols[f.node])) then
              InAfter(DocumentsOf(input, region), |p.shape.done|, f.node, t)
            else t in StateOf(input[..k + 1], region).pending
  {
    var s, p, i := StateOf(input[..k], region), PlacesOf(input[..k], region), input[k];
    var run := RunAt(input, k, region);
    hide Streams, StateOf, PlacesOf, Ordered, Owes, Advance, Ready, BlankRuns, State.Valid, NoneLeft;
    var phase, line := StateThere(input, k, region);
    NodeFull(s, phase, line, i.event);
    TopTells(s, p);
    ColTells(s, p);
    hide Knows, State.Shape;
    EndHolds(s, i.event, i.probe, region, j);
    HeldIsFound(input, k + 1, region, s.Top().frame.node, run[j]);
  }

  lemma ColTells(s: LoaderSteps.State, p: Places)
    requires Knows(s, p) && s.stack != []
    ensures s.Top().frame.node < |p.cols| && s.Top().col == p.cols[s.Top().frame.node]
  {
    assert FrameTells(s.Top(), s.doc, p.cols);
  }

  // What waits at the start of a document leads it.
  lemma CommentAtStart(input: seq<LoaderSteps.Input>, k: nat, region: bool, j: nat)
    requires Waiting(input, k, region, j) && input[k].event.DocumentStart?
    ensures var docs, d := DocumentsOf(input, region), |PlacesOf(input[..k], region).shape.done|;
            d < |docs| && RunAt(input, k, region)[j] in docs[d].leading
  {
    var s, p, i := StateOf(input[..k], region), PlacesOf(input[..k], region), input[k];
    hide Streams, StateOf, PlacesOf, Knows, Ordered, Owes, Advance, Ready, State.Shape, BlankRuns, Stepped, State.Valid, DocumentsOf;
    var phase, line := StateThere(input, k, region);
    TopTells(s, p);
    AtBoundary(s, phase, line, i.event);
    StartHolds(s, i.event, i.probe, region, j);
    LinesFound(input, k + 1, region, |s.docs|, RunAt(input, k, region)[j]);
  }

  // At the end of a document it waits on.
  lemma CommentAtDocumentEnd(input: seq<LoaderSteps.Input>, k: nat, region: bool, j: nat)
    requires Waiting(input, k, region, j) && input[k].event.DocumentEnd?
    ensures RunAt(input, k, region)[j] in StateOf(input[..k + 1], region).pending
  {
    hide Streams, StateOf, PlacesOf, Knows, Ordered, Owes, Advance, Ready, State.Shape, BlankRuns, Stepped, State.Valid, DocumentsOf;
    var phase, line := StateThere(input, k, region);
    DocumentEndHolds(StateOf(input[..k], region), input[k].probe, region, j);
  }

  // At the end of the stream it trails the last document, or leads the one that the lines below are kept in.
  lemma CommentAtStreamEnd(input: seq<LoaderSteps.Input>, k: nat, region: bool, j: nat)
    requires Waiting(input, k, region, j) && input[k].event.StreamEnd?
    ensures var t, docs := RunAt(input, k, region)[j], DocumentsOf(input, region);
            var last := |StateOf(input[..k + 1], region).docs| - 1;
            0 <= last < |docs| && t in if region then docs[last].leading else docs[last].trailing
  {
    hide Streams, StateOf, PlacesOf, Knows, Ordered, Owes, Advance, Ready, State.Shape, BlankRuns, Stepped, State.Valid;
    var phase, line := StateThere(input, k, region);
    var t := RunAt(input, k, region)[j];
    RestThere(StateOf(input[..k], region), input[k].probe, region, j);
    hide RunAt, DocumentsOf, Waiting, DocumentAt;
    LinesFound(input, k + 1, region, |StateOf(input[..k + 1], region).docs| - 1, t);
  }

  // Behind a marker `...`, on its line, a comment trails the document that has ended; behind a marker `---` it leads the
  // document that begins.
  lemma CommentOnMarker(input: seq<LoaderSteps.Input>, k: nat, region: bool)
    requires EndsLine(input, k) && k > 0 && input[k - 1].probe.line == input[k].probe.line
    requires (input[k - 1].event.DocumentEnd? && input[k - 1].probe.marker)
          || (input[k - 1].event.DocumentStart? && input[k - 1].event.explicit)
    ensures var docs, d := DocumentsOf(input, region), |PlacesOf(input[..k], region).shape.done|;
            if input[k - 1].event.DocumentEnd? then 0 < d <= |docs| && TriviumOf(input[k]) in docs[d - 1].trailing
            else d < |docs| && TriviumOf(input[k]) in docs[d].leading
  {
    var e := input[k - 1].event;
    hide Streams, StateOf, PlacesOf, Knows, Ordered, Owes, Advance, Ready, State.Shape, BlankRuns, Stepped, State.Valid, DocumentsOf;
    var phase0, line0 := StateThere(input, k - 1, region);
    var phase, line := StateThere(input, k, region);
    var s := StateOf(input[..k], region);
    AtBoundary(StateOf(input[..k - 1], region), phase0, line0, e);
    MarkerRead(StateOf(input[..k - 1], region), e, input[k - 1].probe, region);
    TopTells(s, PlacesOf(input[..k], region));
    MarkedFiled(s, input[k], region, e.DocumentEnd?);
    var n := StateOf(input[..k + 1], region);
    LinesFound(input, k + 1, region, if e.DocumentEnd? then |s.docs| - 1 else |s.docs|, TriviumOf(input[k]));
  }

  lemma MarkerRead(s: LoaderSteps.State, e: Event, probe: Probe, region: bool)
    requires s.Valid() && s.stack == []
    ensures var n := Stepped(s, e, probe, region);
            && (e.DocumentEnd? && probe.marker ==> n.stack == [] && n.lastNode == None && n.docEndLine == Some(probe.line) && n.docs != [])
            && (e.DocumentStart? && e.explicit ==>
                  && n.stack == [] && n.lastNode == None && n.docEndLine == None && n.docStartLine == Some(probe.line) && !n.sawNode)
  {
    hide BlankRuns;
  }

  lemma MarkedFiled(s: LoaderSteps.State, i: LoaderSteps.Input, region: bool, ended: bool)
    requires s.Valid() && s.stack == [] && s.lastNode == None && i.event.Comment? && !i.probe.ownLine
    requires if ended then s.docEndLine == Some(i.probe.line) && s.docs != []
             else s.docEndLine == None && s.docStartLine == Some(i.probe.line) && !s.sawNode
    ensures var n := Stepped(s, i.event, i.probe, region);
            if ended then TriviumOf(i) in DocumentAt(n, |s.docs| - 1).trailing else TriviumOf(i) in DocumentAt(n, |s.docs|).leading
  {
    hide BlankRuns;
  }

  lemma StartHolds(s: LoaderSteps.State, e: Event, probe: Probe, region: bool, j: nat)
    requires s.Valid() && e.DocumentStart? && j < |s.pending + BlankRuns(probe.blanks)|
    ensures var n := Stepped(s, e, probe, region);
            (s.pending + BlankRuns(probe.blanks))[j] in DocumentAt(n, |s.docs|).leading && |n.docs| == |s.docs|
  {
    hide BlankRuns;
  }

  lemma DocumentEndHolds(s: LoaderSteps.State, probe: Probe, region: bool, j: nat)
    requires s.Valid() && j < |s.pending + BlankRuns(probe.blanks)|
    ensures (s.pending + BlankRuns(probe.blanks))[j] in Stepped(s, Event.DocumentEnd, probe, region).pending
  {
    hide BlankRuns;
  }

  // What a document holds in front of or behind its nodes is found.
  lemma LinesFound(input: seq<LoaderSteps.Input>, k: nat, region: bool, d: nat, t: Trivium)
    requires Streams(input) && k <= |input|
    requires var a := DocumentAt(StateOf(input[..k], region), d); t in a.leading || t in a.trailing
    ensures var a, docs := DocumentAt(StateOf(input[..k], region), d), DocumentsOf(input, region);
            && d < |docs| && (t in a.leading ==> t in docs[d].leading) && (t in a.trailing ==> t in docs[d].trailing)
  {
    hide Streams, StateOf, Stands, AllOverwrites;
    var phase, line := FromThere(input, k, region);
    var s, n := StateOf(input[..k], region), StateOf(input, region);
    assert DocumentGrows(DocumentAt(s, d), DocumentAt(n, d), NodesOf(AllOverwrites(s, input[k..], region), d));
    var a, b := DocumentAt(s, d), DocumentAt(n, d);
    if t in a.leading { PrefixHas(a.leading, b.leading, t); }
    if t in a.trailing { PrefixHas(a.trailing, b.trailing, t); }
  }

  lemma RestThere(s: LoaderSteps.State, probe: Probe, region: bool, j: nat)
    requires s.Valid() && j < |s.pending + BlankRuns(probe.blanks)|
    ensures var n, t := Stepped(s, Event.StreamEnd, probe, region), (s.pending + BlankRuns(probe.blanks))[j];
            var last := |n.docs| - 1;
            last >= 0 && t in if region then DocumentAt(n, last).leading else DocumentAt(n, last).trailing
  {
    var p := s.pending + BlankRuns(probe.blanks);
    var d := Closing(s.docs, region)[|Closing(s.docs, region)| - 1];
    hide BlankRuns, Closing;
    assert (d.leading + p)[|d.leading| + j] == p[j] && (d.trailing + p)[|d.trailing| + j] == p[j];
  }

  // ------------------------------------------------------------------ ends of lines

  // Only comments that end a line are kept at the end of one.
  predicate EolsEnd(d: LoaderSteps.Document) {
    forall i | 0 <= i < |d.nodes| && d.nodes[i].trivia.eol.Some? :: d.nodes[i].trivia.eol.value.EndOfLine()
  }

  ghost predicate AllEolsEnd(s: LoaderSteps.State) {
    && EolsEnd(s.doc) && (forall d | 0 <= d < |s.docs| :: EolsEnd(s.docs[d]))
    && (s.deferredEol.Some? ==> s.deferredEol.value.EndOfLine())
  }

  lemma RestEnds(s: LoaderSteps.State, node: nat, run: seq<Trivium>)
    requires node < |s.doc.nodes| && EolsEnd(s.doc)
    ensures EolsEnd(RestFiled(s, node, run).doc)
  {
    FirstEolIs(run);
  }

  lemma RunEnds(s: LoaderSteps.State, node: nat, run: seq<Trivium>)
    requires node < |s.doc.nodes| && (s.stack != [] ==> s.Top().frame.node < |s.doc.nodes|) && EolsEnd(s.doc)
    ensures EolsEnd(RunFiled(s, node, run).doc)
  {
    hide RestFiled, FirstEol;
    if s.stack != [] && !s.Top().hasChild {
      var owner, k := s.Top().frame.node, FirstEol(run);
      var t := s.doc.nodes[owner].trivia;
      RestEnds(TriviaSet(s, owner, t.(inner := t.inner + run[..k])), node, run[k..]);
    } else {
      RestEnds(s, node, run);
    }
  }

  lemma BeforeEnds(s: LoaderSteps.State, node: nat, blankAbove: bool)
    requires node < |s.doc.nodes| && (s.stack != [] ==> s.Top().frame.node < |s.doc.nodes|) && EolsEnd(s.doc)
    ensures EolsEnd(BeforeTaken(s, node, blankAbove).doc)
  {
    hide RunFiled, SameBut, ToStart, ToEnd, TrailingCut, HeadBlanks;
    if s.pending != [] {
      if s.doc.nodes[node].BlockCollection() && s.stack != [] {
        var (a, lifted) := InsideTaken(s, node, blankAbove);
        InsideSame(s, node, blankAbove);
        SameStack(s, a);
        if !(a.pending == [] && lifted == []) {
          RunEnds(a.(pending := []), node, lifted + a.pending);
        }
      } else {
        RunEnds(s.(pending := []), node, s.pending);
      }
    }
  }

  lemma NodeEnds(s: LoaderSteps.State, e: Event, probe: Probe, region: bool)
    requires s.Full() && IsNodeEvent(e) && AllEolsEnd(s)
    ensures AllEolsEnd(Stepped(s, e, probe, region))
  {
    hide BeforeTaken, BoneOf, BlankRuns;
    var b := BlanksNoted(s, probe.blanks);
    BlanksKeep(s, probe.blanks, BlankLines(0));
    var a := NodeAppended(b, BoneOf(e), probe);
    assert EolsEnd(a.doc) && a.docs == s.docs && a.deferredEol == None;
    AddedWith(s, e, probe, region);
    hide Stepped, NodeAppended, DocumentGrows, BlanksNoted, State.Valid;
    BeforeEnds(a, |s.doc.nodes|, probe.blankAbove);
    BeforeGrows(a, |s.doc.nodes|, probe.blankAbove);
    BeforeSame(a, |s.doc.nodes|, probe.blankAbove);
  }

  lemma CommentEnds(s: LoaderSteps.State, text: string, probe: Probe)
    requires s.Valid() && AllEolsEnd(s)
    ensures AllEolsEnd(CommentRead(s, text, probe))
  {
    var slot := SlotOf(s, probe.ownLine, probe.line, probe.beforeColon);
    assert slot.Waiting? || !probe.ownLine;
    hide SlotOf, BlankRuns, State.Valid;
    FiledEnds(BlanksNoted(s, probe.blanks), Trivium.Comment(text, probe.ownLine, probe.col), slot);
  }

  lemma FiledEnds(s: LoaderSteps.State, t: Trivium, slot: Slot)
    requires AllEolsEnd(s) && (slot.Waiting? || t.EndOfLine())
    ensures AllEolsEnd(CommentFiled(s, t, slot))
  {
    match slot
    case Waiting =>
    case OfNode(id) =>
    case OfKey(id) =>
    case Deferred =>
    case Trailing =>
    case Leading =>
  }

  lemma OtherEnds(s: LoaderSteps.State, e: Event, probe: Probe, region: bool)
    requires s.Valid() && AllEolsEnd(s) && !IsNodeEvent(e) && !e.Comment?
    ensures AllEolsEnd(Stepped(s, e, probe, region))
  {
    hide BlankRuns, Filled, StackFiled, AfterCut, EndLine, State.Full;
  }

  lemma {:induction false} EndsKept(s: LoaderSteps.State, input: seq<LoaderSteps.Input>, region: bool)
    requires AllEolsEnd(s)
    ensures AllEolsEnd(StateAfter(s, input, region))
    decreases |input|
  {
    hide AllEolsEnd, State.Valid, State.Full, CommentRead, CollectionClosed, LeafRead, CollectionOpened;
    if input != [] {
      var e, probe := input[0].event, input[0].probe;
      if CanStep(s, e) {
        if e.Comment? {
          CommentEnds(s, e.text, probe);
        } else if IsNodeEvent(e) {
          NodeEnds(s, e, probe, region);
        } else {
          OtherEnds(s, e, probe, region);
        }
      }
      hide Stepped;
      EndsKept(Stepped(s, e, probe, region), input[1..], region);
    }
  }

  // No comment on a line of its own is at the end of a node's line, in whatever documents are loaded.
  lemma OwnLineNeverEol(input: seq<LoaderSteps.Input>, region: bool, d: nat, id: nat, t: Trivium)
    requires HasEol(DocumentsOf(input, region), d, id, t)
    ensures t.Comment? && !t.ownLine
  {
    EndsKept(Begin, input, region);
    hide StateAfter;
    assert EolsEnd(DocumentsOf(input, region)[d]);
  }
}
