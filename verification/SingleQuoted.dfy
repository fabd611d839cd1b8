// Single-quoted scalars: exactly when reading one back gives the value that was written.
//
// The writer never breaks a line beside a space, but it does not look for tabs. The scanner
// drops every white space character around a line break, so a tab there is lost. Reading back
// gives a value that is shorter by at least one character exactly then.
module SingleQuoted {
  import opened CharTraits
  import opened Input
  import opened Results
  import opened ScalarEmitter
  import opened FlowScan
  import opened FlowRoundTrip

  ghost predicate Short(r: ScanResult, bound: int) {
    r.Ok? ==> |r.value.value| <= bound
  }

  ghost predicate Placed(j: Reading, i: nat, col: nat) {
    j.single && j.Valid() && i <= |j.v| && col >= 1 && col >= j.indent
  }

  // One once a tab is going to be lost from atom `i` on, zero otherwise.
  function Loss(j: Reading, i: nat, wcol: nat): nat {
    if j.KeepsTabs(i, wcol) then 0 else 1
  }

  lemma LossStays(j: Reading, i: nat, wcol: nat)
    requires i < |j.v| && !j.Folds(i, wcol)
    ensures Loss(j, i, wcol) == Loss(j, i + 1, wcol + |j.Atom(i)|)
  {
    hide FlowAtom;
  }

  lemma LossAtFold(j: Reading, i: nat, wcol: nat)
    requires j.Folds(i, wcol) && j.single
    ensures j.Blank(i) && i > 0 && i + 1 < |j.v| && !j.Folds(i + 1, Continuation(j.ctx))
    ensures !j.Blank(i - 1) && Loss(j, i, wcol) == 1 ==>
              j.Blank(i + 1) || Loss(j, i + 1, Continuation(j.ctx)) == 1
  {
    AtomShape(j.v[i], true, j.ctx.allowUnicode);
    AtomShape(j.v[i - 1], true, j.ctx.allowUnicode);
    AtomShape(j.v[i + 1], true, j.ctx.allowUnicode);
    hide FlowAtom;
  }

  lemma FoldReadInBlanks(j: Reading, i: nat, wcol: nat, col: nat, line: nat, acc: string, ws: string)
    requires j.Folds(i, wcol)
    ensures var n := Continuation(j.ctx);
            FlowBlanks(Cursor(j.Text(i, wcol), col, line), j.single, j.indent, acc, false, [], [], ws)
            == FlowBlanks(Cursor(j.Text(i + 1, n), n, line + 1), j.single, j.indent, acc, true, ['\n'], [], [])
  {
    FoldText(j, i, wcol);
    hide FlowBlanks, Reading.Text, Reading.Folds;
    FoldRead(j.ctx, j.Text(i + 1, Continuation(j.ctx)), col, line, j.single, j.indent, acc, ws);
  }

  lemma FoldReadInLead(j: Reading, i: nat, wcol: nat, col: nat, line: nat, acc: string, tb: string)
    requires j.Folds(i, wcol)
    ensures var n := Continuation(j.ctx);
            FlowBlanks(Cursor(j.Text(i, wcol), col, line), j.single, j.indent, acc, true, ['\n'], tb, [])
            == FlowBlanks(Cursor(j.Text(i + 1, n), n, line + 1), j.single, j.indent, acc, true, ['\n'], tb + ['\n'], [])
  {
    FoldText(j, i, wcol);
    var n := Continuation(j.ctx);
    var t := j.ctx.lineBreak.Text();
    var tail := j.Text(i + 1, n);
    hide Reading.Text, Reading.Folds;
    var s := t + Spaces(n) + tail;
    assert Drop(s, |t|) == Spaces(n) + tail;
    assert s[|t|] == ' ';
    SpacesSkipped(n, tail, 0, line + 1, j.single, j.indent, acc, ['\n'], tb + ['\n'], []);
  }

  lemma BlankInLead(j: Reading, i: nat, wcol: nat, col: nat, line: nat, acc: string, tb: string)
    requires Placed(j, i, col) && j.Blank(i) && !j.Folds(i, wcol)
    ensures FlowBlanks(Cursor(j.Text(i, wcol), col, line), j.single, j.indent, acc, true, ['\n'], tb, [])
         == FlowBlanks(Cursor(j.Text(i + 1, wcol + 1), col + 1, line), j.single, j.indent, acc, true, ['\n'], tb, [])
  {
    PlainText(j, i, wcol);
    AtomShape(j.v[i], true, j.ctx.allowUnicode);
    hide Reading.Text, Reading.Folds, FlowAtom;
    assert ([j.v[i]] + j.Text(i + 1, wcol + 1))[1..] == j.Text(i + 1, wcol + 1);
  }

  // ------------------------------------------------------------------ the bound

  lemma {:induction false} TextShort(j: Reading, i: nat, wcol: nat, col: nat, line: nat, acc: string)
    requires Placed(j, i, col)
    requires j.Folds(i, wcol) && i > 0 ==> !j.Blank(i - 1)
    ensures Short(FlowText(Cursor(j.Text(i, wcol), col, line), j.single, j.indent, acc),
                  |acc| + |j.v| - i - Loss(j, i, wcol))
    decreases |j.v| - i, 2
  {
    if i == |j.v| {
      assert j.Text(i, wcol) == j.rest;
      QuoteEnds(j.rest, col, line, j.single, j.indent, acc);
    } else if j.Folds(i, wcol) {
      hide FlowText, FlowBlanks, FlowLine, Reading.Text, Loss;
      var n := Continuation(j.ctx);
      LossAtFold(j, i, wcol);
      FoldIsRead(j, i, wcol, col, line, acc);
      FirstAfterFoldShort(j, i + 1, n, n, line + 1, acc);
    } else {
      CharShort(j, i, wcol, col, line, acc);
    }
  }

  lemma {:induction false} CharShort(j: Reading, i: nat, wcol: nat, col: nat, line: nat, acc: string)
    requires Placed(j, i, col) && i < |j.v| && !j.Folds(i, wcol)
    ensures Short(FlowText(Cursor(j.Text(i, wcol), col, line), j.single, j.indent, acc),
                  |acc| + |j.v| - i - Loss(j, i, wcol))
    decreases |j.v| - i, 1
  {
    hide FlowText, FlowBlanks, FlowLine, Reading.Text, Loss, FlowAtom;
    LossStays(j, i, wcol);
    AtomShape(j.v[i], true, j.ctx.allowUnicode);
    if j.Blank(i) {
      PlainText(j, i, wcol);
      BlankInText(j.v[i], j.Text(i + 1, wcol + 1), col, line, j.single, j.indent, acc);
      BlanksShort(j, i + 1, wcol + 1, col + 1, line, acc, [j.v[i]]);
    } else {
      AtomIsRead(j, i, wcol, col, line, acc);
      TextShort(j, i + 1, wcol + |j.Atom(i)|, col + |j.Atom(i)|, line, acc + [j.v[i]]);
    }
  }

  lemma {:induction false} BlanksShort(j: Reading, i: nat, wcol: nat, col: nat, line: nat, acc: string, ws: string)
    requires Placed(j, i, col) && i > 0 && j.Blank(i - 1) && ws != []
    ensures Short(FlowBlanks(Cursor(j.Text(i, wcol), col, line), j.single, j.indent, acc, false, [], [], ws),
                  |acc| + |ws| + |j.v| - i - Loss(j, i, wcol))
    decreases |j.v| - i, 4
  {
    hide FlowText, FlowBlanks, FlowLine, Reading.Text, FlowAtom;
    if j.Folds(i, wcol) {
      var n := Continuation(j.ctx);
      FoldReadInBlanks(j, i, wcol, col, line, acc, ws);
      LeadShort(j, i + 1, n, n, line + 1, acc, []);
    } else if j.Blank(i) {
      MoreBlanksShort(j, i, wcol, col, line, acc, ws);
    } else {
      WordShort(j, i, wcol, col, line, acc, false, [], [], ws);
    }
  }

  lemma {:induction false} MoreBlanksShort(j: Reading, i: nat, wcol: nat, col: nat, line: nat, acc: string, ws: string)
    requires Placed(j, i, col) && j.Blank(i) && !j.Folds(i, wcol)
    ensures Short(FlowBlanks(Cursor(j.Text(i, wcol), col, line), j.single, j.indent, acc, false, [], [], ws),
                  |acc| + |ws| + |j.v| - i - Loss(j, i, wcol))
    decreases |j.v| - i, 2
  {
    hide FlowText, FlowBlanks, FlowLine, Reading.Text, FlowAtom, Loss;
    LossStays(j, i, wcol);
    PlainText(j, i, wcol);
    AtomShape(j.v[i], true, j.ctx.allowUnicode);
    BlankInBlanks(j.v[i], j.Text(i + 1, wcol + 1), col, line, j.single, j.indent, acc, ws);
    BlanksShort(j, i + 1, wcol + 1, col + 1, line, acc, ws + [j.v[i]]);
  }

  lemma {:induction false} WordShort(j: Reading, i: nat, wcol: nat, col: nat, line: nat, acc: string,
                                     lead: bool, lb: string, tb: string, ws: string)
    requires Placed(j, i, col) && !j.Blank(i) && !j.Folds(i, wcol)
    ensures Short(FlowBlanks(Cursor(j.Text(i, wcol), col, line), j.single, j.indent, acc, lead, lb, tb, ws),
                  |acc| + |JoinBreaks(lead, lb, tb, ws)| + |j.v| - i - Loss(j, i, wcol))
    decreases |j.v| - i, 3
  {
    WordBegins(j, i, wcol);
    hide FlowText, FlowBlanks, FlowLine, Reading.Text, Loss;
    WordStarts(j.Text(i, wcol), col, line, j.single, j.indent, acc, lead, lb, tb, ws);
    TextShort(j, i, wcol, col, line, acc + JoinBreaks(lead, lb, tb, ws));
  }

  // White space after a line break: every character of it is dropped.
  lemma {:induction false} LeadShort(j: Reading, i: nat, wcol: nat, col: nat, line: nat, acc: string, tb: string)
    requires Placed(j, i, col)
    ensures Short(FlowBlanks(Cursor(j.Text(i, wcol), col, line), j.single, j.indent, acc, true, ['\n'], tb, []),
                  |acc| + (if tb == [] then 1 else |tb|) + |j.v| - i)
    decreases |j.v| - i, 4
  {
    hide FlowText, FlowBlanks, FlowLine, Reading.Text, FlowAtom;
    if j.Folds(i, wcol) {
      var n := Continuation(j.ctx);
      FoldReadInLead(j, i, wcol, col, line, acc, tb);
      LeadShort(j, i + 1, n, n, line + 1, acc, tb + ['\n']);
    } else if j.Blank(i) {
      BlankInLead(j, i, wcol, col, line, acc, tb);
      LeadShort(j, i + 1, wcol + 1, col + 1, line, acc, tb);
    } else {
      WordShort(j, i, wcol, col, line, acc, true, ['\n'], tb, []);
    }
  }

  lemma {:induction false} FirstAfterFoldShort(j: Reading, i: nat, wcol: nat, col: nat, line: nat, acc: string)
    requires Placed(j, i, col) && !j.Folds(i, wcol)
    ensures Short(FlowBlanks(Cursor(j.Text(i, wcol), col, line), j.single, j.indent, acc, true, ['\n'], [], []),
                  |acc| + 1 + |j.v| - i - if j.Blank(i) || Loss(j, i, wcol) == 1 then 1 else 0)
    decreases |j.v| - i, 4
  {
    hide FlowText, FlowBlanks, FlowLine, Reading.Text, FlowAtom;
    if j.Blank(i) {
      BlankInLead(j, i, wcol, col, line, acc, []);
      LeadShort(j, i + 1, wcol + 1, col + 1, line, acc, []);
    } else {
      WordShort(j, i, wcol, col, line, acc, true, ['\n'], [], []);
    }
  }

  // ------------------------------------------------------------------ the theorem

  // A value single quotes can carry reads back exactly when no break of the text has a tab for a
  // neighbour; then what follows the scalar is judged as it is for double quotes.
  lemma SingleQuotedRoundTrip(v: string, ctx: ScalarContext, tail: string, col: nat, line: nat,
                              indent: int, flowLevel: nat)
    requires SingleSyntaxReason(v).None?
    requires col >= indent && (Folding(ctx) ==> Continuation(ctx) >= indent)
    requires tail != [] ==> tail[0] != '\''
    ensures var text := Rendered(v, ScalarStyle.SingleQuoted, ctx);
            var r := ScanFlow(Cursor(text.value + tail, col, line), true, indent, flowLevel);
            var atoms := SingleQuotedAtoms(v);
            && text.Ok?
            && (!FoldTouchesTab(atoms, 0, ctx.indent, ctx) ==>
                  ReadsBack(r, v, tail, flowLevel, FoldCount(atoms, 0, ctx.indent, ctx) == 0))
            && (r.Ok? && r.value.value == v ==> !FoldTouchesTab(atoms, 0, ctx.indent, ctx))
  {
    var j := Reading(v, true, ctx, indent, "'" + tail);
    assert j.Valid() by {
      assert forall i | 0 <= i < |v| :: v[i] in v;
    }
    assert Rendered(v, ScalarStyle.SingleQuoted, ctx).value + tail == Quote(true) + j.Text(0, ctx.indent);
    hide FlowText, FlowLine, FoldCount, FoldTouchesTab, ScanFlow, ReadsBack, NeedsEscape, Reading.Text, Reading.Valid;
    if j.KeepsTabs(0, ctx.indent) {
      QuotedReads(j, tail, col, line, flowLevel);
    } else {
      LossyIsShorter(j, tail, col, line, flowLevel);
    }
  }

  lemma LossyIsShorter(j: Reading, tail: string, col: nat, line: nat, flowLevel: nat)
    requires Placed(j, 0, col + 1) && j.rest == Quote(true) + tail && !j.KeepsTabs(0, j.ctx.indent)
    ensures Short(ScanFlow(Cursor(Quote(true) + j.Text(0, j.ctx.indent), col, line), true, j.indent, flowLevel),
                  |j.v| - 1)
  {
    hide FlowText, FlowLine, FlowBlanks, Reading.Text, Quote, FoldTouchesTab;
    var text := j.Text(0, j.ctx.indent);
    assert Drop(Quote(true) + text, 1) == text;
    FirstLine(j, col + 1, line);
    TextShort(j, 0, j.ctx.indent, col + 1, line, []);
  }

  // A tab behind a broken space: written at width 1, the value does not come back.
  lemma TabIsLost(tail: string, flowLevel: nat)
    requires tail != [] ==> tail[0] != '\''
    ensures var ctx := ScalarContext(0, false, false, 1, Lf, true);
            var text := Rendered("a \tb", ScalarStyle.SingleQuoted, ctx);
            var r := ScanFlow(Cursor(text.value + tail, 0, 0), true, 0, flowLevel);
            text.Ok? && (r.Err? || r.value.value != "a \tb")
  {
    var ctx := ScalarContext(0, false, false, 1, Lf, true);
    assert FoldTouchesTab(SingleQuotedAtoms("a \tb"), 0, 0, ctx) by {
      var atoms := SingleQuotedAtoms("a \tb");
      assert atoms == ["a", " ", "\t", "b"];
      assert FoldsAt(atoms, 1, 1, ctx);
      assert FoldTouchesTab(atoms, 1, 1, ctx);
    }
    assert SingleSyntaxReason("a \tb").None? by {
      assert forall c | c in "a \tb" :: c in ['a', ' ', '\t', 'b'];
    }
    hide *;
    SingleQuotedRoundTrip("a \tb", ctx, tail, 0, 0, 0, flowLevel);
  }
}
