// The output cursor (crates/yamluna-core/src/emitter/layout.rs): what every operation writes, and
// that the cursor says where the output ends.
module Layout {
  import opened CharTraits
  import opened Results
  import opened ScalarEmitter

  datatype Position = Position(line: nat, col: nat)

  // A writer's fields. `head` counts the byte-order marks in front of the first line.
  datatype Page = Page(
    out: string, head: nat, line: nat, col: nat, pending: nat, dirty: bool, home: nat, synced: bool,
    commented: bool, space: map<nat, string>, brk: string)

  function NewPage(brk: string): Page {
    Page("", 0, 0, 0, 0, false, 0, true, false, map[], brk)
  }

  predicate AllBlank(s: string) {
    forall c | c in s :: c == ' ' || c == '\t'
  }

  // ------------------------------------------------------------------ where text ends

  // The position `s` leads to, read from `from`. A CR and an LF behind it are one break.
  function Follow(s: string, from: Position): Position
    decreases |s|
  {
    if s == "" then from
    else if s[0] == '\n' then Follow(s[1..], Position(from.line + 1, 0))
    else if s[0] == '\r' then
      Follow(if |s| > 1 && s[1] == '\n' then s[2..] else s[1..], Position(from.line + 1, 0))
    else Follow(s[1..], Position(from.line, from.col + 1))
  }

  predicate EndsCr(s: string) {
    s != "" && s[|s| - 1] == '\r'
  }

  predicate StartsLf(s: string) {
    s != "" && s[0] == '\n'
  }

  // Text follows text, except that an LF behind a CR is no break of its own.
  lemma {:induction false} FollowJoin(a: string, b: string, from: Position)
    ensures var apart := Follow(b, Follow(a, from));
            && Follow(a + b, from).col == apart.col
            && Follow(a + b, from).line + (if EndsCr(a) && StartsLf(b) then 1 else 0) == apart.line
    decreases |a|
  {
    if a == "" {
      assert a + b == b;
    } else {
      var k := if a[0] == '\r' && |a| > 1 && a[1] == '\n' then 2 else 1;
      assert (a + b)[k..] == a[k..] + b;
      if a == "\r" && StartsLf(b) {
        assert (a + b)[2..] == b[1..];
        FollowShift(b[1..], Position(from.line + 1, 0), 1);
      } else {
        FollowJoin(a[k..], b, if IsBreak(a[0]) then Position(from.line + 1, 0) else Position(from.line, from.col + 1));
      }
    }
  }

  lemma {:induction false} FollowShift(s: string, from: Position, k: nat)
    ensures Follow(s, Position(from.line + k, from.col))
         == Position(Follow(s, from).line + k, Follow(s, from).col)
    decreases |s|
  {
    if s != "" {
      var n := if s[0] == '\r' && |s| > 1 && s[1] == '\n' then 2 else 1;
      FollowShift(s[n..], if IsBreak(s[0]) then Position(from.line + 1, 0) else Position(from.line, from.col + 1), k);
    }
  }

  lemma {:induction false} FollowLine(s: string, from: Position)
    requires forall c | c in s :: !IsBreak(c)
    ensures Follow(s, from) == Position(from.line, from.col + |s|)
    decreases |s|
  {
    if s != "" {
      assert s[0] in s && forall c | c in s[1..] :: c in s;
      FollowLine(s[1..], Position(from.line, from.col + 1));
    }
  }

  // ------------------------------------------------------------------ what operations write

  // The source's own white space between two columns of the line the cursor is on.
  function SourceSpace(p: Page, a: nat, b: nat): Option<string> {
    if !p.synced || b <= a || p.line !in p.space || |p.space[p.line]| < b then None
    else
      var text := p.space[p.line][a..b];
      if AllBlank(text) then Some(text) else None
  }

  // The padding owed.
  function Padding(p: Page): string {
    if p.pending > p.col then ""
    else
      match SourceSpace(p, p.col - p.pending, p.col)
      case Some(text) => text
      case None => Spaces(p.pending)
  }

  // The white space the source's line ended with.
  function Tail(p: Page): string {
    if p.pending > p.col || !p.synced || p.line !in p.space || |p.space[p.line]| < p.col - p.pending then ""
    else
      var tail := p.space[p.line][p.col - p.pending..];
      if AllBlank(tail) then tail else ""
  }

  function Pushed(p: Page, s: string): Page {
    if s == "" then p
    else
      var end := Follow(s, Position(p.line, p.col));
      p.(out := p.out + Padding(p) + s, line := end.line, col := end.col, pending := 0,
         home := if p.dirty then p.home else p.col, dirty := true)
  }

  function Commented(p: Page, s: string): Page {
    Pushed(p, s).(commented := true)
  }

  function PaddedTo(p: Page, col: nat): Page {
    if col > p.col then p.(pending := p.pending + (col - p.col), col := col) else p
  }

  function SpacedOut(p: Page): Page {
    if p.dirty then PaddedTo(p, p.col + 1) else p
  }

  function Broken(p: Page, brk: string): Page {
    p.(out := p.out + Tail(p) + brk, line := p.line + 1, col := 0, pending := 0, dirty := false, home := 0,
       commented := false)
  }

  function Freshened(p: Page): Page {
    if p.dirty then Broken(p, p.brk) else p.(pending := 0, col := 0, home := 0)
  }

  function Blanked(p: Page, n: nat): Page {
    if n == 0 then Freshened(p) else Broken(Blanked(p, n - 1), p.brk)
  }

  // How far the first break of `s` is.
  function ToBreak(s: string): (n: nat)
    ensures n <= |s|
    ensures n < |s| ==> IsBreak(s[n])
    ensures forall c | c in s[..n] :: !IsBreak(c)
  {
    if s == "" || IsBreak(s[0]) then 0 else 1 + ToBreak(s[1..])
  }

  // The break `s` starts with.
  function BreakOf(s: string): (b: string)
    requires s != ""
    ensures 1 <= |b| <= |s| && s[..|b|] == b
  {
    if |s| > 1 && s[0] == '\r' && s[1] == '\n' then s[..2] else s[..1]
  }

  function Separated(p: Page, s: string): Page
    decreases |s|
  {
    var n := ToBreak(s);
    if n == |s| then Pushed(p, s)
    else
      var brk := BreakOf(s[n..]);
      Separated(Broken(Pushed(p, s[..n]), brk), s[n + |brk|..])
  }

  function Aligned(p: Page, pos: Option<Position>, sep: bool, echo: bool): Page {
    var q := if sep then SpacedOut(p) else p;
    if pos.Some? && echo && q.synced && pos.value.line == q.line then PaddedTo(q, pos.value.col) else q
  }

  function Columned(p: Page, pos: Position, fallback: nat, echo: bool): Page {
    if echo && p.line == pos.line then PaddedTo(p, pos.col)
    else
      var q := if echo then p.(synced := false) else p;
      if q.dirty then q else PaddedTo(q, fallback)
  }

  function Placed(p: Page, pos: Position, sep: bool, fallback: nat, echo: bool): Page {
    var q := if p.commented || (echo && p.synced && pos.line > p.line) then Freshened(p)
             else Aligned(p, Some(pos), sep, echo);
    Columned(q, pos, fallback, echo)
  }

  // ------------------------------------------------------------------ runs of operations

  datatype Act =
    | Push(text: string)
    | Remark(text: string)
    | PadTo(col: nat)
    | Space
    | Fresh
    | Hard
    | Separate(text: string)
    | BlankLines(n: nat)
    | Put(pos: Position, sep: bool, fallback: nat, echo: bool)
    | Align(at: Option<Position>, sep: bool, echo: bool)
    | Desync

  function Do(p: Page, a: Act): Page {
    match a
    case Push(text) => Pushed(p, text)
    case Remark(text) => Commented(p, text)
    case PadTo(col) => PaddedTo(p, col)
    case Space => SpacedOut(p)
    case Fresh => Freshened(p)
    case Hard => Broken(p, p.brk)
    case Separate(text) => Separated(p, text)
    case BlankLines(n) => Blanked(p, n)
    case Put(pos, sep, fallback, echo) => Placed(p, pos, sep, fallback, echo)
    case Align(pos, sep, echo) => Aligned(p, pos, sep, echo)
    case Desync => p.(synced := false)
  }

  function Run(p: Page, acts: seq<Act>): Page
    decreases |acts|
  {
    if acts == [] then p else Run(Do(p, acts[0]), acts[1..])
  }

  predicate IsLineBreak(s: string) {
    s == "\n" || s == "\r\n" || s == "\r"
  }

  // Padding is owed on this line only, and a line nothing was written on holds nothing else.
  predicate Steady(p: Page) {
    && p.pending <= p.col && (!p.dirty ==> p.col == p.pending)
    && p.head <= |p.out| && IsLineBreak(p.brk)
  }

  function Body(p: Page): string {
    if p.head <= |p.out| then p.out[p.head..] else ""
  }

  // The cursor, less the padding owed, is where the output ends, but `ahead` lines further down.
  predicate TracksBut(p: Page, ahead: nat) {
    && Steady(p)
    && Follow(Body(p), Position(0, 0)).line + ahead == p.line
    && Follow(Body(p), Position(0, 0)).col == p.col - p.pending
  }

  predicate Tracks(p: Page) {
    TracksBut(p, 0)
  }

  // An operation adds text and follows the cursor through it.
  predicate Follows(p: Page, q: Page, more: string) {
    && Steady(p) && Steady(q)
    && q.out == p.out + more && q.head == p.head && q.brk == p.brk && q.space == p.space
    && (q.synced ==> p.synced)
    && Follow(more, Position(p.line, p.col - p.pending)) == Position(q.line, q.col - q.pending)
  }

  lemma FollowsTwice(p: Page, q: Page, r: Page, m: string, n: string)
    requires Follows(p, q, m) && Follows(q, r, n) && !(EndsCr(m) && StartsLf(n))
    ensures Follows(p, r, m + n)
  {
    FollowJoin(m, n, Position(p.line, p.col - p.pending));
  }

  // ------------------------------------------------------------------ one operation

  lemma OneLine(s: string)
    requires forall c | c in s :: !IsBreak(c)
    ensures !EndsCr(s) && !StartsLf(s)
  {
    if s != "" {
      assert s[0] in s && s[|s| - 1] in s;
    }
  }

  lemma PaddingWidth(p: Page)
    requires Steady(p)
    ensures |Padding(p)| == p.pending && forall c | c in Padding(p) :: !IsBreak(c)
  {
  }

  lemma PushFollows(p: Page, s: string)
    requires Steady(p)
    ensures Follows(p, Pushed(p, s), if s == "" then "" else Padding(p) + s)
  {
    if s != "" {
      PaddingWidth(p);
      var from := Position(p.line, p.col - p.pending);
      FollowLine(Padding(p), from);
      FollowJoin(Padding(p), s, from);
      OneLine(Padding(p));
      FollowPast(s, Position(p.line, p.col));
    }
  }

  // Following text never leads back.
  lemma {:induction false} FollowPast(s: string, from: Position)
    ensures var end := Follow(s, from); end.line >= from.line
    decreases |s|
  {
    if s != "" {
      var n := if s[0] == '\r' && |s| > 1 && s[1] == '\n' then 2 else 1;
      FollowPast(s[n..], if IsBreak(s[0]) then Position(from.line + 1, 0) else Position(from.line, from.col + 1));
    }
  }

  lemma BreakIsOne(brk: string, from: Position)
    requires IsLineBreak(brk)
    ensures Follow(brk, from) == Position(from.line + 1, 0)
  {
    if |brk| == 2 {
      assert brk[2..] == "";
    } else {
      assert brk[1..] == "";
    }
  }

  lemma BreakFollows(p: Page, brk: string)
    requires Steady(p) && IsLineBreak(brk)
    ensures Follows(p, Broken(p, brk), Tail(p) + brk)
    ensures StartsLf(Tail(p) + brk) ==> brk == "\n"
  {
    var from := Position(p.line, p.col - p.pending);
    var tail := Tail(p);
    assert AllBlank(tail);
    hide Follow, Tail;
    FollowLine(tail, from);
    FollowJoin(tail, brk, from);
    BreakIsOne(brk, Follow(tail, from));
    OneLine(tail);
    assert tail != "" ==> (tail + brk)[0] == tail[0];
    assert tail == "" ==> tail + brk == brk;
  }

  lemma FreshFollows(p: Page)
    requires Steady(p)
    ensures Follows(p, Freshened(p), if p.dirty then Tail(p) + p.brk else "")
  {
    BreakFollows(p, p.brk);
  }

  lemma EndsWithBreak(tail: string, brk: string)
    requires IsLineBreak(brk)
    ensures EndsCr(tail + brk) <==> brk == "\r"
  {
    assert (tail + brk)[|tail + brk| - 1] == brk[|brk| - 1];
  }

  lemma {:induction false} BlankFollows(p: Page, n: nat) returns (more: string)
    requires Steady(p)
    ensures Follows(p, Blanked(p, n), more)
    ensures EndsCr(more) ==> p.brk == "\r"
  {
    hide Tail, Follow;
    if n == 0 {
      FreshFollows(p);
      EndsWithBreak(Tail(p), p.brk);
      more := if p.dirty then Tail(p) + p.brk else "";
    } else {
      var before := BlankFollows(p, n - 1);
      var q := Blanked(p, n - 1);
      hide Freshened, Broken;
      BreakFollows(q, q.brk);
      EndsWithBreak(Tail(q), q.brk);
      FollowsTwice(p, q, Blanked(p, n), before, Tail(q) + q.brk);
      more := before + (Tail(q) + q.brk);
    }
  }

  lemma BreakOfBreak(s: string)
    requires s != "" && IsBreak(s[0])
    ensures IsLineBreak(BreakOf(s))
    ensures BreakOf(s) == "\r" ==> !StartsLf(s[1..])
    ensures BreakOf(s) == "\n" ==> s[0] == '\n'
  {
  }

  // A piece without breaks in it.
  function Piece(p: Page, s: string): string {
    if s == "" then "" else Padding(p) + s
  }

  lemma PieceFollows(p: Page, s: string)
    requires Steady(p) && forall c | c in s :: !IsBreak(c)
    ensures Follows(p, Pushed(p, s), Piece(p, s)) && !EndsCr(Piece(p, s)) && !StartsLf(Piece(p, s))
  {
    hide Follow, Padding, Pushed;
    PaddingWidth(p);
    PushFollows(p, s);
    OneLine(Piece(p, s));
  }

  // A piece and the break behind it.
  lemma PieceBroken(p: Page, s: string, brk: string) returns (more: string)
    requires Steady(p) && (forall c | c in s :: !IsBreak(c)) && IsLineBreak(brk)
    ensures Follows(p, Broken(Pushed(p, s), brk), more) && more != ""
    ensures (EndsCr(more) <==> brk == "\r") && (StartsLf(more) ==> s == "" && brk == "\n")
  {
    hide Follow, Padding, Pushed, Broken, Tail;
    var q := Pushed(p, s);
    PieceFollows(p, s);
    BreakFollows(q, brk);
    EndsWithBreak(Tail(q), brk);
    FollowsTwice(p, q, Broken(q, brk), Piece(p, s), Tail(q) + brk);
    more := Piece(p, s) + (Tail(q) + brk);
    assert Piece(p, s) != "" ==> more[0] == Piece(p, s)[0];
    assert Piece(p, s) == "" ==> more == Tail(q) + brk;
    EndsWithBreak(Piece(p, s) + Tail(q), brk);
    assert more == Piece(p, s) + Tail(q) + brk;
  }

  // Separation is written piece by piece, a break of it at a time; none of them is cut.
  lemma {:induction false} SeparateFollows(p: Page, s: string) returns (more: string)
    requires Steady(p)
    ensures Follows(p, Separated(p, s), more)
    ensures StartsLf(more) ==> StartsLf(s)
    decreases |s|
  {
    hide Follow, Padding, Pushed, Broken, Steady, Piece, Tail;
    var n := ToBreak(s);
    if n == |s| {
      assert s[..n] == s;
      PieceFollows(p, s);
      more := Piece(p, s);
    } else {
      var brk := BreakOf(s[n..]);
      var rest := s[n + |brk|..];
      BreakOfBreak(s[n..]);
      var q := Broken(Pushed(p, s[..n]), brk);
      var first := PieceBroken(p, s[..n], brk);
      var after := SeparateFollows(q, rest);
      assert s[n..][1..] == s[n + 1..];
      FollowsTwice(p, q, Separated(p, s), first, after);
      more := first + after;
      assert more[0] == first[0];
    }
  }

  lemma AlignFollows(p: Page, pos: Option<Position>, sep: bool, echo: bool)
    requires Steady(p)
    ensures Follows(p, Aligned(p, pos, sep, echo), "")
  {
  }

  lemma ColumnFollows(p: Page, pos: Position, fallback: nat, echo: bool)
    requires Steady(p)
    ensures Follows(p, Columned(p, pos, fallback, echo), "")
  {
  }

  // Whatever position it is given, stale or not, placing a node breaks the line at most once, and
  // writes nothing but that break and the white space the line ended with.
  lemma PlacedOnce(p: Page, pos: Position, sep: bool, fallback: nat, echo: bool)
    requires Steady(p)
    ensures var q := Placed(p, pos, sep, fallback, echo);
            || (Follows(p, q, "") && q.line == p.line)
            || (Follows(p, q, Tail(p) + p.brk) && q.line == p.line + 1)
  {
    var q := if p.commented || (echo && p.synced && pos.line > p.line) then Freshened(p)
             else Aligned(p, Some(pos), sep, echo);
    FreshFollows(p);
    AlignFollows(p, Some(pos), sep, echo);
    ColumnFollows(q, pos, fallback, echo);
    assert q.line == p.line || q.line == p.line + 1;
    hide Tail, Freshened, Aligned, Columned, Follow;
    var r := Columned(q, pos, fallback, echo);
    assert (Tail(p) + p.brk) + "" == Tail(p) + p.brk;
    if q.line == p.line + 1 {
      FollowsTwice(p, q, r, Tail(p) + p.brk, "");
    } else {
      FollowsTwice(p, q, r, "", "");
    }
  }

  // A recorded position is honoured while the page still matches the source: the node lands on it,
  // on this line or the next, unless the cursor is already past its column.
  lemma PlacedThere(p: Page, pos: Position, sep: bool, fallback: nat)
    requires Steady(p) && p.synced && (p.line <= pos.line <= p.line + 1) && (pos.line > p.line ==> p.dirty)
    requires p.commented ==> pos.line > p.line
    requires pos.line == p.line ==> p.col + (if sep && p.dirty then 1 else 0) <= pos.col
    ensures var q := Placed(p, pos, sep, fallback, true);
            q.synced && q.line == pos.line && q.col == pos.col
  {
  }

  // On every other line the position is not believed again.
  lemma PlacedElsewhere(p: Page, pos: Position, sep: bool, fallback: nat)
    ensures var q := Placed(p, pos, sep, fallback, true);
            q.synced <==> p.synced && q.line == pos.line
  {
  }

  // Where no position is echoed, or the line is not the recorded one, a node that begins its line stands
  // in the column computed for it, unless the cursor is past that; behind others it stands next to them,
  // or one further when it is to be set apart. A comment, or a line still to come, makes it begin one.
  lemma PlacedByRule(p: Page, pos: Position, sep: bool, fallback: nat, echo: bool)
    requires var q := Placed(p, pos, sep, fallback, echo); !echo || q.line != pos.line
    ensures var q := Placed(p, pos, sep, fallback, echo);
            var begins := p.commented || (echo && p.synced && pos.line > p.line);
            && (begins ==> q.col == fallback && !q.dirty && q.line == p.line + (if p.dirty then 1 else 0))
            && (!begins && !p.dirty ==> q.line == p.line && q.col == if fallback > p.col then fallback else p.col)
            && (!begins && p.dirty ==> q.line == p.line && q.col == p.col + (if sep then 1 else 0))
  {
  }

  // ------------------------------------------------------------------ every run

  // What an operation adds to the output.
  function Added(p: Page, a: Act): string {
    var q := Do(p, a);
    if |p.out| <= |q.out| then q.out[|p.out|..] else ""
  }

  lemma DoFollows(p: Page, a: Act)
    requires Steady(p)
    ensures Follows(p, Do(p, a), Added(p, a))
  {
    hide Tail, Padding, Broken, Freshened, Separated, Blanked, Placed, Aligned;
    var more: string;
    match a {
      case Push(text) => PushFollows(p, text); more := if text == "" then "" else Padding(p) + text;
      case Remark(text) => PushFollows(p, text); more := if text == "" then "" else Padding(p) + text;
      case PadTo(col) => more := "";
      case Space => more := "";
      case Fresh => FreshFollows(p); more := if p.dirty then Tail(p) + p.brk else "";
      case Hard => BreakFollows(p, p.brk); more := Tail(p) + p.brk;
      case Separate(text) => more := SeparateFollows(p, text);
      case BlankLines(n) => more := BlankFollows(p, n);
      case Put(pos, sep, fallback, echo) =>
        PlacedOnce(p, pos, sep, fallback, echo);
        more := if Placed(p, pos, sep, fallback, echo).line == p.line then "" else Tail(p) + p.brk;
      case Align(pos, sep, echo) => AlignFollows(p, pos, sep, echo); more := "";
      case Desync => more := "";
    }
    hide *;
    assert Follows(p, Do(p, a), more);
  }

  // Whether an operation puts an LF right behind a CR the page ends with.
  predicate Cuts(p: Page, a: Act) {
    EndsCr(Body(p)) && StartsLf(Added(p, a))
  }

  function CutCount(p: Page, acts: seq<Act>): nat
    decreases |acts|
  {
    if acts == [] then 0 else (if Cuts(p, acts[0]) then 1 else 0) + CutCount(Do(p, acts[0]), acts[1..])
  }

  lemma FollowsTracks(p: Page, q: Page, more: string, ahead: nat)
    requires TracksBut(p, ahead) && Follows(p, q, more)
    ensures TracksBut(q, ahead + if EndsCr(Body(p)) && StartsLf(more) then 1 else 0)
  {
    hide Follow;
    assert Body(q) == Body(p) + more;
    var end := Follow(Body(p), Position(0, 0));
    FollowJoin(Body(p), more, Position(0, 0));
    FollowShift(more, end, ahead);
  }

  lemma DoTracks(p: Page, a: Act, ahead: nat)
    requires TracksBut(p, ahead)
    ensures TracksBut(Do(p, a), ahead + if Cuts(p, a) then 1 else 0)
    ensures p.out <= Do(p, a).out && (Do(p, a).synced ==> p.synced)
  {
    hide Do, Added, Follow;
    DoFollows(p, a);
    FollowsTracks(p, Do(p, a), Added(p, a), ahead);
  }

  // Over every run of operations the cursor is in the column where the output ends, and as many
  // lines down as the output has, plus one for every CR and LF that two operations wrote apart.
  // Text is only ever added, and recorded lines are never believed again.
  lemma {:induction false} RunTracks(p: Page, acts: seq<Act>, ahead: nat)
    requires TracksBut(p, ahead)
    ensures TracksBut(Run(p, acts), ahead + CutCount(p, acts))
    ensures p.out <= Run(p, acts).out && (Run(p, acts).synced ==> p.synced)
    decreases |acts|
  {
    hide Do, TracksBut, Cuts;
    if acts != [] {
      var q := Do(p, acts[0]);
      DoTracks(p, acts[0], ahead);
      RunTracks(q, acts[1..], ahead + if Cuts(p, acts[0]) then 1 else 0);
      Longer(p.out, q.out, Run(q, acts[1..]).out);
    }
  }

  lemma Longer(a: string, b: string, c: string)
    requires a <= b && b <= c
    ensures a <= c
  {
  }

  // The cursor of a new writer is right after a run exactly when no CR and LF were written apart.
  lemma CursorIsTheEnd(brk: string, space: map<nat, string>, acts: seq<Act>)
    requires IsLineBreak(brk)
    ensures var p := NewPage(brk).(space := space);
            Tracks(Run(p, acts)) <==> CutCount(p, acts) == 0
  {
    hide Do, Cuts, Run, CutCount;
    RunTracks(NewPage(brk).(space := space), acts, 0);
  }

  // A lexeme ending in a CR, and the LF of the next line break.
  lemma CutApart()
    ensures CutCount(NewPage("\n"), [Push("\r"), Fresh]) == 1
  {
    var p := NewPage("\n");
    var q := Pushed(p, "\r");
    assert Padding(p) == "";
    assert q.out == "\r" && q.dirty && Tail(q) == "";
    assert Added(q, Fresh) == "\n";
    assert Added(p, Push("\r")) == "\r";
    assert [Push("\r"), Fresh][1..] == [Fresh];
    assert CutCount(q, [Fresh]) == 1;
  }

  // ------------------------------------------------------------------ the writer

  // A saved cursor, and how long the output was.
  datatype Mark = Mark(len: nat, line: nat, col: nat, pending: nat, dirty: bool, home: nat, commented: bool)

  function MarkOf(p: Page): Mark {
    Mark(|p.out|, p.line, p.col, p.pending, p.dirty, p.home, p.commented)
  }

  function Rewound(p: Page, m: Mark): Page {
    p.(out := if m.len <= |p.out| then p.out[..m.len] else p.out, line := m.line, col := m.col,
       pending := m.pending, dirty := m.dirty, home := m.home, commented := m.commented)
  }

  // Rewinding to a mark undoes every run since it was taken; only the loss of sync stays.
  lemma RewindUndoes(p: Page, acts: seq<Act>, ahead: nat)
    requires TracksBut(p, ahead)
    ensures Rewound(Run(p, acts), MarkOf(p)) == p.(synced := Run(p, acts).synced)
    ensures Run(p, acts).out[|p.out|..] == Run(p, acts).out[MarkOf(p).len..]
  {
    RunTracks(p, acts, ahead);
    RunKeeps(p, acts);
  }

  lemma {:induction false} RunKeeps(p: Page, acts: seq<Act>)
    requires Steady(p)
    ensures var q := Run(p, acts); q.head == p.head && q.brk == p.brk && q.space == p.space
    decreases |acts|
  {
    if acts != [] {
      DoFollows(p, acts[0]);
      hide Do;
      RunKeeps(Do(p, acts[0]), acts[1..]);
    }
  }

  lemma PieceSteady(p: Page, s: string)
    requires Steady(p)
    ensures Steady(Pushed(p, s))
  {
    PushFollows(p, s);
  }

  lemma BreakSteady(p: Page, brk: string)
    requires Steady(p)
    ensures Steady(Broken(p, brk))
  {
  }

  lemma SeparatedOnce(p: Page, s: string)
    requires ToBreak(s) < |s|
    ensures var n := ToBreak(s);
            var brk := BreakOf(s[n..]);
            Separated(p, s) == Separated(Broken(Pushed(p, s[..n]), brk), s[n + |brk|..])
  {
    hide Broken, Pushed;
  }

  lemma SeparatedNone(p: Page, s: string)
    requires ToBreak(s) == |s|
    ensures Separated(p, s) == Pushed(p, s)
  {
  }

  class Writer {
    var out: string
    ghost var head: nat
    var line: nat
    var col: nat
    var pending: nat
    var dirty: bool
    var home: nat
    var synced: bool
    var commented: bool
    var space: map<nat, string>
    const brk: string

    ghost function View(): Page
      reads this
    {
      Page(out, head, line, col, pending, dirty, home, synced, commented, space, brk)
    }

    constructor (brk: string)
      requires IsLineBreak(brk)
      ensures View() == NewPage(brk)
    {
      out, head, line, col, pending, dirty, home := "", 0, 0, 0, 0, false, 0;
      synced, commented, space, this.brk := true, false, map[], brk;
    }

    // A byte-order mark is no part of the first line.
    method Bom()
      requires |out| == head && Steady(View())
      modifies this`out, this`head
      ensures View() == old(View()).(out := old(out) + ['\U{feff}'], head := old(head) + 1)
    {
      out := out + ['\U{feff}'];
      head := head + 1;
    }

    method KeepLineSpace(space: map<nat, string>)
      modifies this`space
      ensures View() == old(View()).(space := space)
    {
      this.space := space;
    }

    method FlushPending()
      requires Steady(View())
      modifies this`out, this`pending
      ensures View() == old(View()).(out := old(out) + Padding(old(View())), pending := 0)
    {
      ghost var p := View();
      var source := SourceSpaceAt(col - pending, col);
      assert source == SourceSpace(p, p.col - p.pending, p.col);
      match source {
        case Some(text) => out := out + text;
        case None =>
          var k := 0;
          while k < pending
            invariant k <= pending == old(pending) && out == old(out) + Spaces(k)
          {
            assert Spaces(k + 1) == Spaces(k) + [' '];
            out := out + [' '];
            k := k + 1;
          }
      }
      pending := 0;
    }

    function SourceSpaceAt(a: nat, b: nat): Option<string>
      reads this
      ensures SourceSpaceAt(a, b) == SourceSpace(View(), a, b)
    {
      if !synced || b <= a || line !in space || |space[line]| < b then None
      else
        var text := space[line][a..b];
        if AllBlank(text) then Some(text) else None
    }

    method LineTail()
      requires Steady(View())
      modifies this`out, this`col, this`pending
      ensures out == old(out) + Tail(old(View()))
    {
      var from := col - pending;
      if line !in space || !synced || |space[line]| < from {
        return;
      }
      var tail := space[line][from..];
      if tail == "" || !AllBlank(tail) {
        return;
      }
      col := from + |tail|;
      pending := 0;
      out := out + tail;
    }

    method Push(s: string)
      requires Steady(View())
      modifies this
      ensures View() == Pushed(old(View()), s)
    {
      if s == "" {
        return;
      }
      FlushPending();
      if !dirty {
        home := col;
      }
      dirty := true;
      out := out + s;
      var i := 0;
      while i < |s|
        invariant i <= |s|
        invariant Follow(s[i..], Position(line, col)) == Follow(s, Position(old(line), old(col)))
        invariant View() == Pushed(old(View()), s).(line := line, col := col)
      {
        if s[i] == '\n' {
          line, col, i := line + 1, 0, i + 1;
        } else if s[i] == '\r' {
          i := if i + 1 < |s| && s[i + 1] == '\n' then i + 2 else i + 1;
          line, col := line + 1, 0;
        } else {
          col, i := col + 1, i + 1;
        }
      }
    }

    method Comment(text: string)
      requires Steady(View())
      modifies this
      ensures View() == Commented(old(View()), text)
    {
      Push(text);
      commented := true;
    }

    method PadTo(col: nat)
      modifies this`col, this`pending
      ensures View() == PaddedTo(old(View()), col)
    {
      if col > this.col {
        pending := pending + (col - this.col);
        this.col := col;
      }
    }

    method Space()
      modifies this`col, this`pending
      ensures View() == SpacedOut(old(View()))
    {
      if dirty {
        PadTo(col + 1);
      }
    }

    method FreshLine()
      requires Steady(View())
      modifies this
      ensures View() == Freshened(old(View()))
    {
      if dirty {
        LineTail();
        out := out + brk;
        line := line + 1;
        dirty := false;
        commented := false;
      }
      pending, col, home := 0, 0, 0;
    }

    method BreakWith(brk: string)
      requires Steady(View())
      modifies this
      ensures View() == Broken(old(View()), brk)
    {
      LineTail();
      out := out + brk;
      line := line + 1;
      col, pending, dirty, home, commented := 0, 0, false, 0, false;
    }

    method HardBreak()
      requires Steady(View())
      modifies this
      ensures View() == Broken(old(View()), brk)
    {
      BreakWith(brk);
    }

    method PushSeparation(s: string)
      requires Steady(View())
      modifies this
      ensures View() == Separated(old(View()), s)
    {
      hide Pushed, Broken, Steady, Separated, BreakOf, Tail, Padding;
      var rest := s;
      while ToBreak(rest) < |rest|
        invariant Steady(View())
        invariant Separated(View(), rest) == Separated(old(View()), s)
        decreases |rest|
      {
        var i := ToBreak(rest);
        var brk := BreakOf(rest[i..]);
        PieceSteady(View(), rest[..i]);
        SeparatedOnce(View(), rest);
        Push(rest[..i]);
        BreakSteady(View(), brk);
        BreakWith(brk);
        rest := rest[i + |brk|..];
      }
      SeparatedNone(View(), rest);
      Push(rest);
    }

    method BlankLines(n: nat)
      requires Steady(View())
      modifies this
      ensures View() == Blanked(old(View()), n)
    {
      FreshFollows(View());
      FreshLine();
      for k := 0 to n
        invariant Steady(View()) && View() == Blanked(old(View()), k)
      {
        BreakFollows(View(), brk);
        HardBreak();
      }
    }

    method At(pos: Option<Position>, sep: bool, echo: bool)
      modifies this`col, this`pending
      ensures View() == Aligned(old(View()), pos, sep, echo)
    {
      if sep {
        Space();
      }
      if pos.Some? && echo && synced && pos.value.line == line {
        PadTo(pos.value.col);
      }
    }

    method Column(pos: Position, fallback: nat, echo: bool)
      modifies this`col, this`pending, this`synced
      ensures View() == Columned(old(View()), pos, fallback, echo)
    {
      if echo {
        if line == pos.line {
          PadTo(pos.col);
          return;
        }
        synced := false;
      }
      if !dirty {
        PadTo(fallback);
      }
    }

    method Place(pos: Position, sep: bool, fallback: nat, echo: bool)
      requires Steady(View())
      modifies this
      ensures View() == Placed(old(View()), pos, sep, fallback, echo)
    {
      if commented || (echo && synced && pos.line > line) {
        FreshLine();
      } else {
        At(Some(pos), sep, echo);
      }
      Column(pos, fallback, echo);
    }

    method TakeMark() returns (m: Mark)
      ensures m == MarkOf(View())
    {
      m := Mark(|out|, line, col, pending, dirty, home, commented);
    }

    method Since(m: Mark) returns (text: string)
      requires m.len <= |out|
      ensures out == out[..m.len] + text
    {
      text := out[m.len..];
    }

    method Rewind(m: Mark)
      requires m.len <= |out|
      modifies this
      ensures View() == Rewound(old(View()), m)
    {
      out := out[..m.len];
      line, col, pending, dirty, home, commented := m.line, m.col, m.pending, m.dirty, m.home, m.commented;
    }

    // Carries out one operation.
    method Carry(a: Act)
      requires Steady(View())
      modifies this
      ensures View() == Do(old(View()), a)
    {
      match a {
        case Push(text) => Push(text);
        case Remark(text) => Comment(text);
        case PadTo(col) => PadTo(col);
        case Space => Space();
        case Fresh => FreshLine();
        case Hard => HardBreak();
        case Separate(text) => PushSeparation(text);
        case BlankLines(n) => BlankLines(n);
        case Put(pos, sep, fallback, echo) => Place(pos, sep, fallback, echo);
        case Align(pos, sep, echo) => At(pos, sep, echo);
        case Desync => synced := false;
      }
    }
  }
}
