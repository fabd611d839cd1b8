// Folded block scalars: exactly when reading one back gives the value that was written.
//
// The writer breaks lines at lone spaces. A line that then starts with a tab is more indented to
// the scanner, which keeps the break in front of it instead of folding it into a space.
module FoldedTheorem {
  import opened CharTraits
  import opened Input
  import opened Results
  import opened ScalarEmitter
  import opened FlowScan
  import opened BlockScan
  import opened BlockRoundTrip
  import opened BlockTheorems

  // ------------------------------------------------------------------ one segment

  // Whether the writer, in column `col` in front of character `i`, will break before a tab.
  predicate FoldsBeforeTab(text: string, i: nat, col: nat, ctx: ScalarContext)
    requires i <= |text|
    decreases |text| - i
  {
    if i == |text| then false
    else if FoldsInBlock(text, i, col, ctx) then
      text[i + 1] == '\t' || FoldsBeforeTab(text, i + 1, ctx.indent, ctx)
    else FoldsBeforeTab(text, i + 1, col + 1, ctx)
  }

  // The pieces of a segment are never empty: no break is put where nothing stands before it.
  ghost predicate Piecing(text: string, i: nat, current: string) {
    && i <= |text| && text != []
    && (current == [] ==> i < |text| && text[i] != ' ')
  }

  predicate AllContent(lines: seq<string>) {
    forall i | 0 <= i < |lines| :: lines[i] != []
  }

  predicate NoneBlank(lines: seq<string>) {
    forall i | 0 <= i < |lines| :: !StartsBlank(lines[i])
  }

  predicate AllOk(lines: seq<string>) {
    forall i | 0 <= i < |lines| :: LineOk(lines[i])
  }

  lemma FoldNeighbours(text: string, i: nat, col: nat, ctx: ScalarContext)
    requires i < |text| && FoldsInBlock(text, i, col, ctx)
    ensures 0 < i && i + 1 < |text| && text[i] == ' ' && text[i - 1] != ' ' && text[i + 1] != ' '
  {
    var atoms := CharAtoms(text);
    assert atoms[i] == [text[i]];
    assert i > 0 ==> atoms[i - 1] == [text[i - 1]];
    assert i + 1 < |text| ==> atoms[i + 1] == [text[i + 1]];
  }

  lemma {:induction false} PiecesStart(text: string, i: nat, col: nat, current: string, ctx: ScalarContext)
    requires Piecing(text, i, current)
    ensures var p := FoldPieces(text, i, col, current, ctx);
            AllContent(p) && p[0][0] == (current + text[i..])[0]
    decreases |text| - i
  {
    var p := FoldPieces(text, i, col, current, ctx);
    if i < |text| {
      assert text[i..] == [text[i]] + text[i + 1..];
      if FoldsInBlock(text, i, col, ctx) {
        FoldNeighbours(text, i, col, ctx);
        PiecesStart(text, i + 1, ctx.indent, [], ctx);
        assert p == [current] + FoldPieces(text, i + 1, ctx.indent, [], ctx);
      } else {
        PiecesStart(text, i + 1, col + 1, current + [text[i]], ctx);
        assert current + [text[i]] + text[i + 1..] == current + text[i..];
      }
    }
  }

  lemma PieceJoins(current: string, rest: seq<string>)
    requires current != [] && rest != [] && AllContent(rest)
    ensures Content([current] + rest, false)
         == current + Separator(false, false, StartsBlank(current), StartsBlank(rest[0]), 0) + Content(rest, false)
  {
    var lines := [current] + rest;
    assert lines[1..] == rest && Empties(rest) == 0 && rest[0..] == rest;
  }

  // Put together again, the pieces are as long as the segment, and equal to it exactly when no
  // piece starts with a tab.
  lemma {:induction false} PiecesRejoin(text: string, i: nat, col: nat, current: string, ctx: ScalarContext)
    requires Piecing(text, i, current)
    ensures var p := FoldPieces(text, i, col, current, ctx);
            && AllContent(p) && |Content(p, false)| == |current| + |text| - i
            && (!StartsBlank(current + text[i..]) ==>
                  (Content(p, false) == current + text[i..] <==> !FoldsBeforeTab(text, i, col, ctx)))
    decreases |text| - i
  {
    PiecesStart(text, i, col, current, ctx);
    if i == |text| {
      assert current + text[i..] == current;
    } else if FoldsInBlock(text, i, col, ctx) {
      FoldRejoins(text, i, col, current, ctx);
    } else {
      PiecesRejoin(text, i + 1, col + 1, current + [text[i]], ctx);
      assert current + [text[i]] + text[i + 1..] == current + text[i..];
      hide Content, FoldsInBlock;
    }
  }

  lemma {:induction false} FoldRejoins(text: string, i: nat, col: nat, current: string, ctx: ScalarContext)
    requires Piecing(text, i, current) && i < |text| && FoldsInBlock(text, i, col, ctx)
    ensures var p := [current] + FoldPieces(text, i + 1, ctx.indent, [], ctx);
            && |Content(p, false)| == |current| + |text| - i
            && (!StartsBlank(current + text[i..]) ==>
                  (Content(p, false) == current + text[i..] <==>
                   text[i + 1] != '\t' && !FoldsBeforeTab(text, i + 1, ctx.indent, ctx)))
    decreases |text| - i, 0
  {
    var rest := FoldPieces(text, i + 1, ctx.indent, [], ctx);
    FoldNeighbours(text, i, col, ctx);
    PiecesStart(text, i + 1, ctx.indent, [], ctx);
    PiecesRejoin(text, i + 1, ctx.indent, [], ctx);
    hide FoldsInBlock, FoldPieces, FoldsBeforeTab;
    PieceJoins(current, rest);
    assert [] + text[i + 1..] == text[i + 1..];
    var sep := Separator(false, false, StartsBlank(current), StartsBlank(rest[0]), 0);
    SameParts(current, sep, Content(rest, false), text, i);
  }

  lemma SameParts(current: string, sep: string, rest: string, text: string, i: nat)
    requires i < |text| && text[i] == ' ' && |sep| == 1
    ensures current + sep + rest == current + text[i..] <==> sep == " " && rest == text[i + 1..]
  {
    var a := current + sep + rest;
    var b := current + text[i..];
    assert text[i..] == " " + text[i + 1..];
    if a == b {
      assert a[|current|] == sep[0] && b[|current|] == ' ';
      assert a[|current| + 1..] == rest && b[|current| + 1..] == text[i + 1..];
    }
  }

  lemma {:induction false} NoPieceBlank(text: string, i: nat, col: nat, current: string, ctx: ScalarContext)
    requires Piecing(text, i, current) && !StartsBlank(current + text[i..])
    requires !FoldsBeforeTab(text, i, col, ctx)
    ensures NoneBlank(FoldPieces(text, i, col, current, ctx))
    decreases |text| - i
  {
    if i == |text| {
      assert current + text[i..] == current;
    } else if FoldsInBlock(text, i, col, ctx) {
      FoldNeighbours(text, i, col, ctx);
      assert text[i + 1..] == [] + text[i + 1..];
      NoPieceBlank(text, i + 1, ctx.indent, [], ctx);
      assert current[0] == (current + text[i..])[0];
    } else {
      assert current + [text[i]] + text[i + 1..] == current + text[i..];
      NoPieceBlank(text, i + 1, col + 1, current + [text[i]], ctx);
    }
  }

  lemma {:induction false} PiecesOk(text: string, i: nat, col: nat, current: string, ctx: ScalarContext)
    requires i <= |text| && LineOk(text) && LineOk(current)
    ensures AllOk(FoldPieces(text, i, col, current, ctx))
    decreases |text| - i
  {
    if i < |text| {
      if FoldsInBlock(text, i, col, ctx) {
        PiecesOk(text, i + 1, ctx.indent, [], ctx);
      } else {
        PiecesOk(text, i + 1, col + 1, current + [text[i]], ctx);
      }
    }
  }

  // ------------------------------------------------------------------ all segments

  predicate Segments(segs: seq<string>) {
    && segs != [] && segs[0] != [] && segs[|segs| - 1] != []
    && forall i | 0 <= i < |segs| :: !StartsBlank(segs[i]) && LineOk(segs[i])
  }

  function SegmentPieces(segs: seq<string>, ctx: ScalarContext): seq<string>
    requires segs != []
  {
    FoldPieces(segs[0], 0, ctx.indent, [], ctx)
  }

  function SegmentLines(segs: seq<string>, ctx: ScalarContext): seq<string>
    requires segs != []
  {
    SegmentPieces(segs, ctx) + FoldedFrom(segs[1..], 0, false, ctx)
  }

  predicate AnyFoldsBeforeTab(segs: seq<string>, ctx: ScalarContext) {
    exists i | 0 <= i < |segs| :: FoldsBeforeTab(segs[i], 0, ctx.indent, ctx)
  }

  lemma {:induction false} NextSegment(segs: seq<string>, e: nat, ctx: ScalarContext)
    requires Empties(segs) < |segs|
    ensures var k := Empties(segs);
            FoldedFrom(segs, e, false, ctx) == Blanks(e + k + 1) + SegmentLines(segs[k..], ctx)
    decreases |segs|
  {
    if segs[0] == [] {
      NextSegment(segs[1..], e + 1, ctx);
      assert segs[1..][Empties(segs) - 1..] == segs[Empties(segs)..];
    } else {
      assert segs[0..] == segs;
      assert Blanks(e + 1) + FoldPieces(segs[0], 0, ctx.indent, [], ctx) + FoldedFrom(segs[1..], 0, false, ctx)
          == Blanks(e + 1) + SegmentLines(segs, ctx);
    }
  }

  lemma {:induction false} EmptiesOf(k: nat, q: seq<string>)
    requires q != [] && q[0] != []
    ensures Empties(Blanks(k) + q) == k && (Blanks(k) + q)[k..] == q
  {
    var ls := Blanks(k) + q;
    if k == 0 {
      assert ls == q;
    } else {
      EmptiesOf(k - 1, q);
      assert ls[1..] == Blanks(k - 1) + q;
    }
  }

  // Content line by content line: what comes first, the breaks, then the rest.
  lemma {:induction false} ContentAppend(p: seq<string>, k: nat, q: seq<string>)
    requires p != [] && AllContent(p) && q != [] && q[0] != []
    ensures Content(p + Blanks(k) + q, false)
         == Content(p, false) + Separator(false, false, StartsBlank(p[|p| - 1]), StartsBlank(q[0]), k) + Content(q, false)
    decreases |p|
  {
    hide Content, Separator, Blanks, StartsBlank;
    if |p| == 1 {
      ContentOfTwo(p[0], k, q);
      ContentOfOne(p[0]);
      assert p == [p[0]];
    } else {
      ContentAppend(p[1..], k, q);
      assert (p[1..] + Blanks(k) + q)[0] == p[1];
      ContentLonger(p, p[1..] + Blanks(k) + q, Separator(false, false, StartsBlank(p[|p| - 1]), StartsBlank(q[0]), k), q);
      assert p + Blanks(k) + q == [p[0]] + (p[1..] + Blanks(k) + q);
    }
  }

  // One content line more in front.
  lemma ContentLonger(p: seq<string>, rest: seq<string>, sep: string, q: seq<string>)
    requires |p| > 1 && AllContent(p) && rest != [] && rest[0] == p[1] && q != [] && q[0] != []
    requires Content(rest, false) == Content(p[1..], false) + sep + Content(q, false)
    ensures Content([p[0]] + rest, false) == Content(p, false) + sep + Content(q, false)
  {
    hide Content, Separator;
    assert p == [p[0]] + p[1..];
    FirstOfMany(p[0], p[1..]);
    FirstOfMany(p[0], rest);
    Group(p[0], Separator(false, false, StartsBlank(p[0]), StartsBlank(p[1]), 0), Content(p[1..], false), sep, Content(q, false));
  }

  lemma Group(a: string, b: string, c: string, d: string, e: string)
    ensures a + b + (c + d + e) == a + b + c + d + e
  {
  }

  lemma ContentOfTwo(l: string, k: nat, q: seq<string>)
    requires l != [] && q != [] && q[0] != []
    ensures Content([l] + Blanks(k) + q, false)
         == l + Separator(false, false, StartsBlank(l), StartsBlank(q[0]), k) + Content(q, false)
  {
    var ls := [l] + Blanks(k) + q;
    assert ls[1..] == Blanks(k) + q;
    EmptiesOf(k, q);
  }

  lemma ContentOfOne(l: string)
    requires l != []
    ensures Content([l], false) == l
  {
    assert Empties([l][1..]) == 0;
  }

  lemma FirstOfMany(l: string, rest: seq<string>)
    requires l != [] && rest != [] && rest[0] != []
    ensures Content([l] + rest, false)
         == l + Separator(false, false, StartsBlank(l), StartsBlank(rest[0]), 0) + Content(rest, false)
  {
    var ls := [l] + rest;
    assert ls[1..] == rest && Empties(rest) == 0 && rest[0..] == rest;
  }

  lemma SegmentStart(segs: seq<string>, ctx: ScalarContext)
    requires Segments(segs)
    ensures var p := SegmentPieces(segs, ctx);
            && AllContent(p) && !StartsBlank(p[0])
            && |Content(p, false)| == |segs[0]|
            && (Content(p, false) == segs[0] <==> !FoldsBeforeTab(segs[0], 0, ctx.indent, ctx))
            && (Content(p, false) == segs[0] ==> !StartsBlank(p[|p| - 1]))
  {
    var t := segs[0];
    assert [] + t[0..] == t;
    PiecesStart(t, 0, ctx.indent, [], ctx);
    PiecesRejoin(t, 0, ctx.indent, [], ctx);
    hide Content, FoldsBeforeTab;
    if !FoldsBeforeTab(t, 0, ctx.indent, ctx) {
      NoPieceBlank(t, 0, ctx.indent, [], ctx);
    }
  }

  // The lines stand for the joined segments exactly when no break was put in front of a tab.
  lemma {:induction false} SegmentsRejoin(segs: seq<string>, ctx: ScalarContext)
    requires Segments(segs)
    ensures var ls := SegmentLines(segs, ctx);
            && ls[0] != [] && !StartsBlank(ls[0])
            && (Content(ls, false) == Join(segs) <==> !AnyFoldsBeforeTab(segs, ctx))
    decreases |segs|
  {
    if |segs| == 1 {
      OneSegment(segs, ctx);
    } else {
      hide FoldPieces, FoldsBeforeTab, AnyFoldsBeforeTab, SegmentLines, SegmentPieces, Content, Join;
      LastStays(segs[1..]);
      var k := Empties(segs[1..]);
      SegmentsRejoin(segs[1..][k..], ctx);
      assert segs[1..][k..] == segs[k + 1..];
      NextSegment(segs[1..], 0, ctx);
      SegmentStep(segs, k, ctx);
    }
  }

  lemma OneSegment(segs: seq<string>, ctx: ScalarContext)
    requires Segments(segs) && |segs| == 1
    ensures var ls := SegmentLines(segs, ctx);
            && ls[0] != [] && !StartsBlank(ls[0])
            && (Content(ls, false) == Join(segs) <==> !AnyFoldsBeforeTab(segs, ctx))
  {
    SegmentStart(segs, ctx);
    hide FoldPieces, FoldsBeforeTab, Content;
    assert SegmentLines(segs, ctx) == SegmentPieces(segs, ctx);
    assert Join(segs) == segs[0];
  }

  lemma {:induction false} LastStays(segs: seq<string>)
    requires segs != [] && segs[|segs| - 1] != []
    ensures Empties(segs) < |segs|
  {
  }

  lemma SegmentStep(segs: seq<string>, k: nat, ctx: ScalarContext)
    requires Segments(segs) && k == Empties(segs[1..]) < |segs| - 1
    requires var q := SegmentLines(segs[k + 1..], ctx);
             && q[0] != [] && !StartsBlank(q[0])
             && (Content(q, false) == Join(segs[k + 1..]) <==> !AnyFoldsBeforeTab(segs[k + 1..], ctx))
    requires SegmentLines(segs, ctx)
          == SegmentPieces(segs, ctx) + (Blanks(k + 1) + SegmentLines(segs[k + 1..], ctx))
    ensures var ls := SegmentLines(segs, ctx);
            && ls[0] != [] && !StartsBlank(ls[0])
            && (Content(ls, false) == Join(segs) <==> !AnyFoldsBeforeTab(segs, ctx))
  {
    var q := SegmentLines(segs[k + 1..], ctx);
    var sep := SegmentsApart(segs, q, k, ctx);
    JoinUnfolds(segs, k);
    BreaksJoin(segs[0], k, Join(segs[k + 1..]));
    AnyUnfolds(segs, k, ctx);
    SegmentStart(segs, ctx);
    hide *;
    SameTwoParts(Content(SegmentPieces(segs, ctx), false), sep, Content(q, false),
                 segs[0], Newlines(k + 1), Join(segs[k + 1..]));
  }

  // What the pieces of the first segment and the lines behind them stand for.
  lemma SegmentsApart(segs: seq<string>, q: seq<string>, k: nat, ctx: ScalarContext) returns (sep: string)
    requires Segments(segs) && q != [] && q[0] != [] && !StartsBlank(q[0])
    ensures var p := SegmentPieces(segs, ctx);
            && p[0] != [] && !StartsBlank(p[0])
            && Content(p + (Blanks(k + 1) + q), false) == Content(p, false) + sep + Content(q, false)
            && (Content(p, false) == segs[0] ==> sep == Newlines(k + 1))
  {
    var p := SegmentPieces(segs, ctx);
    SegmentStart(segs, ctx);
    BreaksJoin([], k, []);
    hide FoldPieces, FoldsBeforeTab, Content, SegmentPieces, Segments, Newlines, Blanks, StartsBlank, Separator;
    ContentAppend(p, k + 1, q);
    SameLines(p, Blanks(k + 1), q);
    sep := Separator(false, false, StartsBlank(p[|p| - 1]), StartsBlank(q[0]), k + 1);
  }

  lemma SameLines(a: seq<string>, b: seq<string>, c: seq<string>)
    ensures a + b + c == a + (b + c)
  {
  }

  lemma BreaksJoin(a: string, k: nat, b: string)
    ensures a + "\n" + Newlines(k) + b == a + Newlines(k + 1) + b
    ensures Separator(false, false, false, false, k + 1) == Newlines(k + 1)
  {
    assert "\n" + Newlines(k) == Newlines(k + 1);
    assert a + "\n" + Newlines(k) == a + ("\n" + Newlines(k));
  }

  lemma SameTwoParts(a: string, s: string, b: string, c: string, n: string, d: string)
    requires |a| == |c| && (a == c ==> s == n)
    ensures a + s + b == c + n + d <==> a == c && b == d
  {
    if a + s + b == c + n + d {
      assert (a + s + b)[..|a|] == a && (c + n + d)[..|a|] == c;
      assert (a + s + b)[|a| + |s|..] == b && (c + n + d)[|a| + |s|..] == d;
    }
  }

  lemma AnyUnfolds(segs: seq<string>, k: nat, ctx: ScalarContext)
    requires segs != [] && k == Empties(segs[1..]) < |segs| - 1
    ensures AnyFoldsBeforeTab(segs, ctx) <==>
            FoldsBeforeTab(segs[0], 0, ctx.indent, ctx) || AnyFoldsBeforeTab(segs[k + 1..], ctx)
  {
    forall i | 0 < i <= k ensures segs[i] == [] {
      assert segs[1..][i - 1] == [];
    }
    forall i | k + 1 <= i < |segs| ensures segs[k + 1..][i - k - 1] == segs[i] {
    }
    if i :| 0 <= i < |segs| && FoldsBeforeTab(segs[i], 0, ctx.indent, ctx) {
      assert i == 0 || i >= k + 1;
      assert i >= k + 1 ==> segs[k + 1..][i - k - 1] == segs[i];
    }
  }

  // ------------------------------------------------------------------ the theorem

  lemma {:induction false} FoldedAllOk(segs: seq<string>, e: nat, first: bool, ctx: ScalarContext)
    requires AllOk(segs)
    ensures AllOk(FoldedFrom(segs, e, first, ctx))
  {
    if segs != [] {
      assert AllOk(segs[1..]);
      if segs[0] == [] {
        FoldedAllOk(segs[1..], e + 1, first, ctx);
      } else {
        FoldedAllOk(segs[1..], 0, false, ctx);
        PiecesOk(segs[0], 0, ctx.indent, [], ctx);
        AllOkJoin(FoldPieces(segs[0], 0, ctx.indent, [], ctx), FoldedFrom(segs[1..], 0, false, ctx));
        assert AllOk(Blanks(e + 1));
        hide FoldPieces;
        var p := FoldPieces(segs[0], 0, ctx.indent, [], ctx) + FoldedFrom(segs[1..], 0, false, ctx);
        AllOkJoin(if first then [] else Blanks(e + 1), p);
        assert FoldedFrom(segs, e, first, ctx) == (if first then [] else Blanks(e + 1)) + p;
      }
    }
  }

  lemma AllOkJoin(p: seq<string>, q: seq<string>)
    requires AllOk(p) && AllOk(q)
    ensures AllOk(p + q)
  {
  }

  lemma {:induction false} LastIsContent(segs: seq<string>, ctx: ScalarContext)
    requires Segments(segs)
    ensures var ls := SegmentLines(segs, ctx); ls[|ls| - 1] != []
    decreases |segs|
  {
    SegmentStart(segs, ctx);
    if |segs| > 1 {
      LastStays(segs[1..]);
      var k := Empties(segs[1..]);
      assert segs[1..][k..] == segs[k + 1..];
      LastIsContent(segs[k + 1..], ctx);
      NextSegment(segs[1..], 0, ctx);
    }
  }

  lemma FoldedSegments(v: string, ctx: ScalarContext)
    requires BlockSyntaxReason(v, ctx, true).None?
    ensures Segments(Split(BlockBody(v)))
  {
    var body := BlockBody(v);
    var segs := Split(body);
    LiteralAccepted(v, ctx, true);
    BodyOf(v);
    BodyLinesOk(v);
    LastLine(body);
    assert body[0] == v[0];
    if body != v {
      SplitSnoc(body);
    }
    hide LineOk;
    forall i | 0 <= i < |segs| ensures !StartsBlank(segs[i]) {
      assert segs[i] in Split(v);
    }
  }

  lemma FoldedWritable(segs: seq<string>, ctx: ScalarContext, chomping: Chomping)
    requires Segments(segs)
    ensures FoldedFrom(segs, 0, true, ctx) == SegmentLines(segs, ctx)
    ensures var ls := SegmentLines(segs, ctx); Writable(ls, chomping) && Empties(ls) == 0
  {
    assert [] + SegmentPieces(segs, ctx) + FoldedFrom(segs[1..], 0, false, ctx) == SegmentLines(segs, ctx);
    FoldedAllOk(segs, 0, true, ctx);
    hide FoldPieces, FoldedFrom, Content, Join, SegmentLines, LineOk;
    SegmentsRejoin(segs, ctx);
    LastIsContent(segs, ctx);
  }

  lemma FoldedValue(v: string, b: Block)
    requires BlockSyntaxReason(v, b.ctx, true).None? && !b.literal && b.chomping == ChompingFor(v)
    ensures var ls := BlockBodyLines(v, true, b.ctx);
            && Writable(ls, b.chomping)
            && (BlockValue(ls, b) == v <==> !AnyFoldsBeforeTab(Split(BlockBody(v)), b.ctx))
  {
    var segs := Split(BlockBody(v));
    FoldedSegments(v, b.ctx);
    FoldedChomping(v, b.ctx);
    hide BlockSyntaxReason, BlockBody, Split, AnyFoldsBeforeTab, Content, Segments, ChompingFor;
    FoldedWritable(segs, b.ctx, b.chomping);
    SegmentsRejoin(segs, b.ctx);
    JoinSplit(BlockBody(v));
    var ls := SegmentLines(segs, b.ctx);
    assert ls[0..] == ls;
    var x := Content(ls, false);
    var t := if b.chomping == Strip then [] else "\n";
    assert [] + x == x;
    assert x + t == BlockBody(v) + t <==> x == BlockBody(v) by {
      assert (x + t)[..|x + t| - |t|] == x;
      assert (BlockBody(v) + t)[..|BlockBody(v) + t| - |t|] == BlockBody(v);
    }
  }

  lemma FoldedChomping(v: string, ctx: ScalarContext)
    requires BlockSyntaxReason(v, ctx, true).None?
    ensures ChompingFor(v) != Keep
    ensures v == BlockBody(v) + (if ChompingFor(v) == Strip then [] else "\n")
  {
    LiteralAccepted(v, ctx, true);
    BodyOf(v);
  }

  // A value the folded style accepts reads back exactly when no line of the text was broken in
  // front of a tab.
  lemma FoldedRoundTrip(v: string, ctx: ScalarContext, follow: string, col: nat, line: nat, outer: int)
    requires BlockSyntaxReason(v, ctx, true).None?
    requires -1 <= outer < ctx.indent && Block(ctx, false, ChompingFor(v), follow).Valid()
    ensures var text := Rendered(v, Folded, ctx);
            && text.Ok?
            && var r := ScanBlock(Cursor(text.value + ctx.lineBreak.Text() + follow, col, line), false, outer);
               r.Ok? && (r.value.value == v <==> !AnyFoldsBeforeTab(Split(BlockBody(v)), ctx))
  {
    assert Rendered(v, Folded, ctx) == Ok(BlockText(v, true, ctx)) by {
      hide BlockText, BlockSyntaxReason;
    }
    hide *;
    FoldedScanned(v, Block(ctx, false, ChompingFor(v), follow), col, line, outer);
  }

  lemma {:induction false} OneLine(v: string)
    requires '\n' !in v
    ensures Split(v) == [v]
  {
    if v != [] {
      OneLine(v[1..]);
      assert [v[0]] + v[1..] == v;
    }
  }

  // One line that does not begin with a blank has nothing the style refuses.
  lemma LineAccepted(v: string, ctx: ScalarContext)
    requires !ctx.inFlow && !ctx.isKey && ctx.indent > 0 && v != [] && !StartsBlank(v)
    requires forall i | 0 <= i < |v| :: !NeedsEscape(v[i]) && v[i] != '\n'
    ensures BlockSyntaxReason(v, ctx, true).None? && ChompingFor(v) == Strip && BlockBody(v) == v
  {
    OneLine(v);
    hide Split, NeedsEscape;
    var ls := Split(v);
    assert ls[0] == v && forall l | l in ls :: l == v;
    assert v[0] in v;
  }

  lemma TabFolds(ctx: ScalarContext)
    requires ctx == ScalarContext(1, false, false, 1, Lf, true)
    ensures AnyFoldsBeforeTab(["a \tb"], ctx)
  {
    var v := "a \tb";
    assert FoldsInBlock(v, 1, 2, ctx);
    assert FoldsBeforeTab(v, 1, 2, ctx);
    assert FoldsBeforeTab([v][0], 0, 1, ctx);
  }

  lemma NothingBehind(ctx: ScalarContext)
    requires ctx.indent > 0 && ctx.lineBreak == Lf
    ensures Block(ctx, false, Strip, []).Valid()
  {
  }

  // A tab behind a broken space: folded at width 1, the value does not come back.
  lemma FoldedTabIsLost()
    ensures var ctx := ScalarContext(1, false, false, 1, Lf, true);
            var text := Rendered("a \tb", Folded, ctx);
            && text.Ok?
            && var r := ScanBlock(Cursor(text.value + ctx.lineBreak.Text() + [], 0, 0), false, 0);
               r.Err? || r.value.value != "a \tb"
  {
    var v, ctx := "a \tb", ScalarContext(1, false, false, 1, Lf, true);
    hide BlockSyntaxReason, Rendered, ScanBlock, AnyFoldsBeforeTab, BlockBody, Split, ChompingFor, Block.Valid;
    OneLine(v);
    assert !StartsBlank(v) && forall i | 0 <= i < |v| :: !NeedsEscape(v[i]) && v[i] != '\n';
    LineAccepted(v, ctx);
    TabFolds(ctx);
    NothingBehind(ctx);
    FoldedRoundTrip(v, ctx, [], 0, 0, 0);
  }

  lemma FoldedScanned(v: string, b: Block, col: nat, line: nat, outer: int)
    requires BlockSyntaxReason(v, b.ctx, true).None? && !b.literal && b.chomping == ChompingFor(v)
    requires b.Valid() && -1 <= outer < b.ctx.indent
    ensures var s := BlockText(v, true, b.ctx) + b.ctx.lineBreak.Text() + b.follow;
            var r := ScanBlock(Cursor(s, col, line), false, outer);
            r.Ok? && (r.value.value == v <==> !AnyFoldsBeforeTab(Split(BlockBody(v)), b.ctx))
  {
    hide BlockSyntaxReason, ScanBlock, Writable, BlockValue, Block.Valid, Block.Body, BlockText, AnyFoldsBeforeTab, BlockBodyLines;
    FoldedValue(v, b);
    TextIsBody(v, true, b);
    BlockScanned(b, BlockBodyLines(v, true, b.ctx), col, line, outer);
  }

  // No break is put in front of a tab when folding is off.
  lemma {:induction false} UnfoldedKeepsTabs(text: string, i: nat, col: nat, ctx: ScalarContext)
    requires i <= |text| && ctx.width == 0
    ensures !FoldsBeforeTab(text, i, col, ctx)
    decreases |text| - i
  {
    if i < |text| {
      UnfoldedKeepsTabs(text, i + 1, col + 1, ctx);
    }
  }
}
