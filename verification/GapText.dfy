// White space inside a quoted or plain scalar as it is written, and what it stands for
// (YAML 1.2, sections 6.5 and 7.3).
module GapText {
  import opened CharTraits
  import opened Input
  import opened FlowScan

  datatype Break = Lf | Cr | CrLf {
    function Text(): (s: string)
      ensures 1 <= |s| <= 2 && IsBreak(s[0])
    {
      match this
      case Lf => "\n"
      case Cr => "\r"
      case CrLf => "\r\n"
    }
  }

  // A line with nothing but white space on it.
  datatype Empty = Empty(blanks: string, end: Break)

  function EmptiesText(empties: seq<Empty>): string {
    if empties == [] then "" else empties[0].blanks + (empties[0].end.Text() + EmptiesText(empties[1..]))
  }

  function Feeds(n: nat): (s: string)
    ensures |s| == n
  {
    if n == 0 then "" else "\n" + Feeds(n - 1)
  }

  // What stands between two words: white space on one line; or the end of a line, any number of
  // empty lines, and the white space the next line begins with. An escaped end of a line has a
  // backslash in front of it.
  datatype Gap =
    | Spaces(ws: string)
    | Folded(before: string, first: Break, empties: seq<Empty>, lead: string)
    | Escaped(first: Break, empties: seq<Empty>, lead: string)
  {
    function Text(): string {
      match this
      case Spaces(ws) => ws
      case Folded(before, _, _, _) => before + Lines()
      case Escaped(_, _, _) => "\\" + Lines()
    }

    // From the first break on.
    function Lines(): string
      requires !Spaces?
    {
      first.Text() + (EmptiesText(empties) + lead)
    }

    // Line folding: one break is a space, a break and empty lines behind it a line feed for each of
    // these, an escaped break nothing but the empty lines behind it.
    function Value(): string {
      match this
      case Spaces(ws) => ws
      case Folded(_, _, empties, _) => if |empties| == 0 then " " else Feeds(|empties|)
      case Escaped(_, empties, _) => Feeds(|empties|)
    }
  }

  predicate AllBlank(s: string) {
    forall k | 0 <= k < |s| :: IsBlank(s[k])
  }

  // A carriage return is not followed by the line feed that would make the two one break.
  predicate Apart(b: Break, next: string) {
    b.Cr? ==> next == "" || next[0] != '\n'
  }

  // Every break stands apart from what follows it; `rest` is the text behind the empty lines.
  predicate EmptiesFit(empties: seq<Empty>, rest: string) {
    empties != [] ==>
      && AllBlank(empties[0].blanks)
      && Apart(empties[0].end, EmptiesText(empties[1..]) + rest)
      && EmptiesFit(empties[1..], rest)
  }

  // No tab left of the indentation.
  predicate TabsFit(blanks: string, indent: int) {
    forall k | 0 <= k < |blanks| && blanks[k] == '\t' :: k >= indent
  }

  function GapThen(g: Gap, text: string): string {
    g.Text() + text
  }

  lemma BreakRead(c: Cursor, b: Break, rest: string)
    requires c.s == b.Text() + rest && Apart(b, rest)
    ensures IsBreak(Peek(c.s)) && SkipBreak(c) == Cursor(rest, 0, c.line + 1)
  {
    assert Drop(c.s, |b.Text()|) == rest;
  }

  // The text of empty lines, line by line.
  lemma EmptiesSplit(empties: seq<Empty>, rest: string)
    ensures empties == [] ==> EmptiesText(empties) + rest == rest
    ensures empties != [] ==>
              EmptiesText(empties) + rest
                == empties[0].blanks + (empties[0].end.Text() + (EmptiesText(empties[1..]) + rest))
    ensures empties != [] && EmptiesFit(empties, rest) ==>
              && AllBlank(empties[0].blanks) && EmptiesFit(empties[1..], rest)
              && Apart(empties[0].end, EmptiesText(empties[1..]) + rest)
  {
  }

  lemma OneFeed(more: string, n: nat)
    ensures n == 0 ==> more + Feeds(n) == more
    ensures n > 0 ==> (more + ['\n']) + Feeds(n - 1) == more + Feeds(n)
  {
  }
}
