// The scanner's view of its input: the suffix of the text that is still unread
// (crates/yamluna-scanner/src/input.rs, crates/yamluna-scanner/src/input/str.rs).
// Reading past the end gives NUL, as `StrInput::peek_nth` does.
module Input {
  import opened CharTraits

  function PeekNth(s: string, n: nat): char {
    if n < |s| then s[n] else NUL
  }

  function Peek(s: string): char {
    PeekNth(s, 0)
  }

  function Drop(s: string, n: nat): string {
    if n <= |s| then s[n..] else []
  }

  predicate Next3Are(s: string, c: char) {
    PeekNth(s, 0) == c && PeekNth(s, 1) == c && PeekNth(s, 2) == c
  }

  predicate NextIsDocumentEnd(s: string) {
    Next3Are(s, '.') && IsBlankOrBreakz(PeekNth(s, 3))
  }

  predicate NextIsDocumentIndicator(s: string) {
    (Next3Are(s, '.') || Next3Are(s, '-')) && IsBlankOrBreakz(PeekNth(s, 3))
  }

  predicate NextCanBePlainScalar(s: string, inFlow: bool) {
    var nc := PeekNth(s, 1);
    if Peek(s) == ':' && (IsBlankOrBreakz(nc) || (inFlow && IsFlow(nc))) then false
    else !(inFlow && IsFlow(Peek(s)))
  }

  // Number of leading characters of `s` that are white space, tabs counting only when `tabs`.
  function LeadingWs(s: string, tabs: bool): (n: nat)
    ensures n <= |s|
  {
    if s != [] && (s[0] == ' ' || (tabs && s[0] == '\t')) then 1 + LeadingWs(s[1..], tabs) else 0
  }

  // Number of characters of `s` in front of the first line break or NUL.
  function LeadingNonBreakz(s: string): (n: nat)
    ensures n <= |s|
    ensures IsBreakz(PeekNth(s, n))
    ensures forall k :: 0 <= k < n ==> !IsBreakz(s[k])
  {
    if s != [] && !IsBreakz(s[0]) then 1 + LeadingNonBreakz(s[1..]) else 0
  }

  // What `skip_ws_to_eol` leaves behind: how many characters it ate, the comment among them
  // (empty when there is none), and which white space it met. `ok` is false for a `#` with no
  // white space in front of it.
  datatype EolSkip = EolSkip(count: nat, comment: string, ok: bool, tab: bool, ws: bool)

  function SkipWsToEol(s: string, tabs: bool): (r: EolSkip)
    ensures r.count <= |s|
    ensures r.ok && r.comment != [] ==> IsBreakz(PeekNth(s, r.count))
  {
    var n := LeadingWs(s, tabs);
    var tab := '\t' in s[..n];
    var ws := ' ' in s[..n];
    if PeekNth(s, n) == '#' then
      if n == 0 then EolSkip(0, [], false, false, false)
      else
        var k := LeadingNonBreakz(s[n..]);
        EolSkip(n + k, s[n..n + k], true, tab, ws)
    else EolSkip(n, [], true, tab, ws)
  }
}
