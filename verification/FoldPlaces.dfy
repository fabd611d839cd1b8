// Where a line of a scalar is broken: at the first space that may become a break at or behind the width,
// and never before it (crates/yamluna-core/src/emitter/scalar.rs, `write_atoms`, `fold_at_spaces`).
module FoldPlaces {
  import opened ScalarEmitter
  import opened CharTraits

  function Joined(atoms: seq<string>): string {
    if atoms == [] then "" else atoms[0] + Joined(atoms[1..])
  }

  // A single space between two atoms that are none, the second of which would not begin a comment.
  predicate IsGap(atoms: seq<string>, k: nat)
    requires k < |atoms|
  {
    && atoms[k] == " " && 0 < k < |atoms| - 1 && atoms[k - 1] != " " && atoms[k + 1] != " "
    && (atoms[k + 1] == "" || atoms[k + 1][0] != '#')
  }

  // A gap that stands at or behind the width, on a line that begins with atom `i` in column `col`.
  predicate Overflows(atoms: seq<string>, i: nat, k: nat, col: nat, width: nat)
    requires i <= k < |atoms|
  {
    IsGap(atoms, k) && col + |Joined(atoms[i..k])| >= width
  }

  lemma JoinedFrom(atoms: seq<string>, i: nat, k: nat)
    requires i < k <= |atoms|
    ensures Joined(atoms[i..k]) == atoms[i] + Joined(atoms[i + 1..k])
  {
    assert atoms[i..k][1..] == atoms[i + 1..k];
  }

  // Flow text goes on to the first such gap, which becomes a break and the indentation of the next line;
  // with no such gap, or where nothing is folded, to the end.
  lemma {:induction false} TextBreaks(atoms: seq<string>, i: nat, k: nat, col: nat, ctx: ScalarContext)
    requires i <= k <= |atoms|
    requires ctx.width > 0 && !ctx.isKey ==> forall j | i <= j < k :: !Overflows(atoms, i, j, col, ctx.width)
    requires k < |atoms| ==> ctx.width > 0 && !ctx.isKey && Overflows(atoms, i, k, col, ctx.width)
    ensures AtomText(atoms, i, col, ctx) ==
            Joined(atoms[i..k]) + (if k == |atoms| then ""
                                   else ctx.lineBreak.Text() + Spaces(Continuation(ctx)) + AtomText(atoms, k + 1, Continuation(ctx), ctx))
    decreases k - i
  {
    if i == k {
      assert atoms[i..i] == [];
    } else {
      assert atoms[i..i] == [] && Joined(atoms[i..i]) == "";
      assert !FoldsAt(atoms, i, col, ctx) by {
        if ctx.width > 0 && !ctx.isKey {
          assert !Overflows(atoms, i, i, col, ctx.width);
        }
      }
      JoinedFrom(atoms, i, k);
      var next, far := i + 1, col + |atoms[i]|;
      forall j | next <= j <= k && j < |atoms| ensures Overflows(atoms, next, j, far, ctx.width) == Overflows(atoms, i, j, col, ctx.width) {
        JoinedFrom(atoms, i, j);
      }
      TextBreaks(atoms, next, k, far, ctx);
    }
  }

  // The same of a line of folded text, whose atoms are its characters.
  lemma {:induction false} LineBreaks(text: string, i: nat, k: nat, col: nat, current: string, ctx: ScalarContext)
    requires i <= k <= |text|
    requires ctx.width > 0 ==> forall j | i <= j < k :: !(IsGap(CharAtoms(text), j) && col + (j - i) >= ctx.width)
    requires k < |text| ==> ctx.width > 0 && IsGap(CharAtoms(text), k) && col + (k - i) >= ctx.width
    ensures FoldPieces(text, i, col, current, ctx) ==
            [current + text[i..k]] + (if k == |text| then [] else FoldPieces(text, k + 1, ctx.indent, [], ctx))
    decreases k - i
  {
    if i == k {
      assert current + text[i..i] == current;
    } else {
      assert !FoldsInBlock(text, i, col, ctx) by {
        if ctx.width > 0 {
          assert !(IsGap(CharAtoms(text), i) && col + (i - i) >= ctx.width);
        }
      }
      LineBreaks(text, i + 1, k, col + 1, current + [text[i]], ctx);
      assert current + [text[i]] + text[i + 1..k] == current + text[i..k];
    }
  }
}
