// Comments and blank lines, and the run of them that waits for a slot
// (crates/yamluna-core/src/trivia.rs).
module Trivia {
  import opened Results

  datatype Trivium =
    | Comment(text: string, ownLine: bool, col: nat)
    | BlankLines(count: nat)
  {
    // A comment left of column `c`.
    predicate LeftOf(c: nat) {
      Comment? && col < c
    }

    predicate EndOfLine() {
      Comment? && !ownLine
    }
  }

  // The four slots of a node.
  datatype Slots = Slots(before: seq<Trivium>, eol: Option<Trivium>, inner: seq<Trivium>, after: seq<Trivium>)

  const NoTrivia := Slots([], None, [], [])

  // ------------------------------------------------------------------ where a run is cut

  function FirstLeft(p: seq<Trivium>, col: nat): (i: nat)
    ensures i <= |p|
  {
    if p == [] || p[0].LeftOf(col) then 0 else 1 + FirstLeft(p[1..], col)
  }

  // `cut` without the blank runs directly in front of it, as far back as `low`.
  function Unblank(p: seq<Trivium>, low: nat, cut: nat): (i: nat)
    requires low <= cut <= |p|
    ensures low <= i <= cut
  {
    if cut > low && p[cut - 1].BlankLines? then Unblank(p, low, cut - 1) else cut
  }

  // How much of the run belongs inside a block collection, with content at `col`, that closes here.
  function FromCut(p: seq<Trivium>, col: nat): (i: nat)
    ensures i <= |p|
  {
    Unblank(p, 0, FirstLeft(p, col))
  }

  // Behind the last of the first `n` trivia that is a comment left of `col` or ends a line.
  function BehindLast(p: seq<Trivium>, n: nat, col: nat): (i: nat)
    requires n <= |p|
    ensures i <= n
  {
    if n == 0 then 0
    else if p[n - 1].LeftOf(col) || p[n - 1].EndOfLine() then n
    else BehindLast(p, n - 1, col)
  }

  // Which part of the run belongs inside a block collection that opens at `col`.
  function ToStart(p: seq<Trivium>, col: nat): (i: nat)
    ensures i <= |p|
  {
    BehindLast(p, |p|, col)
  }

  function ToEnd(p: seq<Trivium>, col: nat): (i: nat)
    ensures ToStart(p, col) <= i <= |p|
  {
    Unblank(p, ToStart(p, col), |p|)
  }

  // How many trivia the run of blank lines at its very end is: one or none.
  function TrailingCut(p: seq<Trivium>): (i: nat)
    ensures i <= |p|
  {
    if p != [] && p[|p| - 1].BlankLines? then |p| - 1 else |p|
  }

  // ------------------------------------------------------------------ what the cuts mean

  lemma {:induction false} FirstLeftIs(p: seq<Trivium>, col: nat)
    ensures var i := FirstLeft(p, col);
            && (forall j | 0 <= j < i :: !p[j].LeftOf(col))
            && (i < |p| ==> p[i].LeftOf(col))
  {
    if p != [] && !p[0].LeftOf(col) {
      FirstLeftIs(p[1..], col);
      forall j | 0 <= j < FirstLeft(p, col) ensures !p[j].LeftOf(col) {
        if j > 0 { assert p[j] == p[1..][j - 1]; }
      }
    }
  }

  lemma {:induction false} UnblankIs(p: seq<Trivium>, low: nat, cut: nat)
    requires low <= cut <= |p|
    ensures var i := Unblank(p, low, cut);
            && (forall j | i <= j < cut :: p[j].BlankLines?)
            && (i > low ==> p[i - 1].Comment?)
    decreases cut
  {
    if cut > low && p[cut - 1].BlankLines? { UnblankIs(p, low, cut - 1); }
  }

  lemma {:induction false} UnblankAt(p: seq<Trivium>, low: nat, cut: nat, i: nat)
    requires low <= i <= cut <= |p| && (forall j | i <= j < cut :: p[j].BlankLines?) && (i > low ==> p[i - 1].Comment?)
    ensures Unblank(p, low, cut) == i
    decreases cut
  {
    if i < cut { UnblankAt(p, low, cut - 1, i); }
  }

  lemma {:induction false} UnblankBehind(p: seq<Trivium>, a: nat, cut: nat)
    requires a <= cut <= |p|
    ensures Unblank(p[a..], 0, cut - a) + a == Unblank(p, a, cut) >= Unblank(p, 0, cut)
    decreases cut
  {
    if cut > a {
      assert p[a..][cut - a - 1] == p[cut - 1];
      UnblankBehind(p, a, cut - 1);
    }
  }

  lemma {:induction false} BehindLastIs(p: seq<Trivium>, n: nat, col: nat)
    requires n <= |p|
    ensures var i := BehindLast(p, n, col);
            && (forall j | i <= j < n :: !p[j].LeftOf(col) && !p[j].EndOfLine())
            && (i > 0 ==> p[i - 1].LeftOf(col) || p[i - 1].EndOfLine())
  {
    if n > 0 && !p[n - 1].LeftOf(col) && !p[n - 1].EndOfLine() { BehindLastIs(p, n - 1, col); }
  }

  // From `i` on there is nothing but blank runs up to `k`, which is the end or a comment left of `col`.
  ghost predicate StopsAt(p: seq<Trivium>, col: nat, i: nat, k: nat) {
    && i <= k <= |p|
    && (forall j | i <= j < k :: p[j].BlankLines?)
    && (k == |p| || p[k].LeftOf(col))
  }

  // A closing collection takes comments no further left than its content, never a blank run at
  // the end, and stops only at blank runs in front of a comment further left or at the end.
  lemma FromCutIs(p: seq<Trivium>, col: nat, i: nat)
    requires i <= |p|
    ensures i == FromCut(p, col) <==>
            && (forall j | 0 <= j < i :: !p[j].LeftOf(col))
            && (i > 0 ==> p[i - 1].Comment?)
            && exists k: nat :: StopsAt(p, col, i, k)
  {
    FirstLeftIs(p, col);
    UnblankIs(p, 0, FirstLeft(p, col));
    assert StopsAt(p, col, FromCut(p, col), FirstLeft(p, col));
    if (forall j | 0 <= j < i :: !p[j].LeftOf(col)) && (i > 0 ==> p[i - 1].Comment?) && exists k: nat :: StopsAt(p, col, i, k) {
      var k: nat :| StopsAt(p, col, i, k);
      FirstLeftAt(p, col, k);
      UnblankAt(p, 0, k, i);
    }
  }

  // An opening collection takes the longest run that holds no end-of-line comment and nothing
  // left of its column, without the blank runs at its end.
  lemma ToCutIs(p: seq<Trivium>, col: nat)
    ensures var s, e := ToStart(p, col), ToEnd(p, col);
            && (forall j | s <= j < e :: !p[j].LeftOf(col) && !p[j].EndOfLine())
            && (s > 0 ==> p[s - 1].LeftOf(col) || p[s - 1].EndOfLine())
            && (e > s ==> p[e - 1].Comment?)
            && (forall j | e <= j < |p| :: p[j].BlankLines?)
  {
    BehindLastIs(p, |p|, col);
    UnblankIs(p, ToStart(p, col), |p|);
  }

  // Collections close deepest first: a comment goes to the first of them it is not left of, if
  // nothing in front of it was.
  lemma ClosingSplits(p: seq<Trivium>, deep: nat, shallow: nat)
    requires shallow <= deep
    ensures var a := FromCut(p, deep);
            var b := a + FromCut(p[a..], shallow);
            FromCut(p, shallow) <= b
            && (forall j | a <= j < b :: !p[j].LeftOf(shallow))
  {
    var a := FromCut(p, deep);
    var first := FirstLeft(p[a..], shallow);
    FirstLeftIs(p, deep);
    FirstLeftIs(p[a..], shallow);
    forall j | a <= j < a + first ensures !p[j].LeftOf(shallow) {
      assert p[j] == p[a..][j - a];
    }
    FirstLeftAt(p, shallow, a + first);
    UnblankBehind(p, a, a + first);
  }

  // ------------------------------------------------------------------ the run itself

  class Pending {
    var items: seq<Trivium>

    constructor ()
      ensures items == []
    {
      items := [];
    }

    method Push(t: Trivium)
      modifies this
      ensures items == old(items) + [t]
    {
      items := items + [t];
    }

    predicate IsEmpty()
      reads this
    {
      items == []
    }

    method TakeAll() returns (taken: seq<Trivium>)
      modifies this
      ensures taken == old(items) && items == []
    {
      taken := items;
      items := [];
    }

    method TakeFromCol(col: nat) returns (taken: seq<Trivium>)
      modifies this
      ensures var cut := FromCut(old(items), col); taken == old(items)[..cut] && items == old(items)[cut..]
    {
      var cut: nat := |items|;
      var i: nat := 0;
      while i < |items| && cut == |items|
        invariant i <= |items| && (cut == |items| || cut < i)
        invariant forall j | 0 <= j < i && j < cut :: !items[j].LeftOf(col)
        invariant cut < |items| ==> items[cut].LeftOf(col)
      {
        if items[i].LeftOf(col) {
          cut := i;
        }
        i := i + 1;
      }
      FirstLeftAt(items, col, cut);
      ghost var first := cut;
      while cut > 0 && items[cut - 1].BlankLines?
        invariant cut <= first && Unblank(items, 0, cut) == FromCut(items, col)
      {
        cut := cut - 1;
      }
      taken := items[..cut];
      items := items[cut..];
    }

    method TakeToCol(col: nat) returns (taken: seq<Trivium>)
      modifies this
      ensures var s, e := ToStart(old(items), col), ToEnd(old(items), col);
              taken == old(items)[s..e] && items == old(items)[..s] + old(items)[e..]
    {
      var start: nat := 0;
      var i: nat := 0;
      while i < |items|
        invariant i <= |items| && start <= i
        invariant forall j | start <= j < i :: !items[j].LeftOf(col)
        invariant start > 0 ==> items[start - 1].LeftOf(col)
      {
        if items[i].LeftOf(col) {
          start := i + 1;
        }
        i := i + 1;
      }
      var last: nat := |items|;
      while last > 0 && !items[last - 1].EndOfLine()
        invariant last <= |items|
        invariant forall j | last <= j < |items| :: !items[j].EndOfLine()
      {
        last := last - 1;
      }
      if last > start {
        start := last;
      }
      BehindLastAt(items, |items|, col, start);
      var end: nat := |items|;
      while end > start && items[end - 1].BlankLines?
        invariant start <= end <= |items| && Unblank(items, start, end) == ToEnd(items, col)
      {
        end := end - 1;
      }
      taken := items[start..end];
      items := items[..start] + items[end..];
    }

    method TakeTrailingBlanks() returns (taken: seq<Trivium>)
      modifies this
      ensures var cut := TrailingCut(old(items)); taken == old(items)[cut..] && items == old(items)[..cut]
    {
      if items != [] && items[|items| - 1].BlankLines? {
        taken := items[|items| - 1..];
        items := items[..|items| - 1];
      } else {
        taken := [];
      }
    }
  }

  lemma FirstLeftAt(p: seq<Trivium>, col: nat, i: nat)
    requires i <= |p| && (forall j | 0 <= j < i :: !p[j].LeftOf(col)) && (i < |p| ==> p[i].LeftOf(col))
    ensures FirstLeft(p, col) == i
  {
    FirstLeftIs(p, col);
  }

  lemma BehindLastAt(p: seq<Trivium>, n: nat, col: nat, i: nat)
    requires i <= n <= |p|
    requires forall j | i <= j < n :: !p[j].LeftOf(col) && !p[j].EndOfLine()
    requires i > 0 ==> p[i - 1].LeftOf(col) || p[i - 1].EndOfLine()
    ensures BehindLast(p, n, col) == i
  {
    BehindLastIs(p, n, col);
  }
}
