// The input of a string: the methods that work on bytes and whole runs of characters against the
// trait's own, which take one character at a time (crates/yamluna-scanner/src/input/str.rs,
// crates/yamluna-scanner/src/input.rs).
module StrInput {
  import opened CharTraits
  import opened Results
  import opened Input

  // ------------------------------------------------------------------ bytes

  type Byte = b: nat | b < 0x100

  // The UTF-8 form of a character.
  function Encoded(c: char): (bs: seq<Byte>)
    ensures 1 <= |bs| <= 4
  {
    var n := c as int;
    if n < 0x80 then [n]
    else if n < 0x800 then [0xC0 + n / 0x40, 0x80 + n % 0x40]
    else if n < 0x1_0000 then [0xE0 + n / 0x1000, 0x80 + n / 0x40 % 0x40, 0x80 + n % 0x40]
    else [0xF0 + n / 0x4_0000, 0x80 + n / 0x1000 % 0x40, 0x80 + n / 0x40 % 0x40, 0x80 + n % 0x40]
  }

  function Utf8(s: string): seq<Byte> {
    if s == "" then [] else Encoded(s[0]) + Utf8(s[1..])
  }

  // A byte cast to a character.
  function AsChar(b: Byte): char {
    b as char
  }

  predicate Ascii(c: char) {
    c < '\U{80}'
  }

  // Only ASCII characters have an ASCII byte in them, which is all there is of them.
  lemma EncodedAscii(c: char)
    ensures Ascii(c) ==> Encoded(c) == [c as int]
    ensures !Ascii(c) ==> |Encoded(c)| > 1 && forall b | b in Encoded(c) :: b >= 0x80
  {
  }

  lemma {:induction false} Utf8Join(a: string, b: string)
    ensures Utf8(a + b) == Utf8(a) + Utf8(b)
  {
    if a == "" {
      assert a + b == b;
    } else {
      assert (a + b)[1..] == a[1..] + b;
      Utf8Join(a[1..], b);
    }
  }

  // Behind ASCII characters, bytes and characters are counted alike.
  lemma {:induction false} AsciiPrefix(s: string, n: nat)
    requires n <= |s| && forall k | 0 <= k < n :: Ascii(s[k])
    ensures |Utf8(s)| == n + |Utf8(s[n..])| && Utf8(s)[n..] == Utf8(s[n..])
    ensures forall k | 0 <= k < n :: Utf8(s)[k] == s[k] as int
  {
    if n > 0 {
      EncodedAscii(s[0]);
      AsciiPrefix(s[1..], n - 1);
      assert s[1..][n - 1..] == s[n..];
      assert Utf8(s) == [s[0] as int] + Utf8(s[1..]);
    }
  }

  // The first byte of a string is its first character or belongs to no ASCII character.
  lemma FirstByte(s: string)
    ensures |Utf8(s)| == 0 <==> s == ""
    ensures s != "" ==> if Ascii(s[0]) then AsChar(Utf8(s)[0]) == s[0] else AsChar(Utf8(s)[0]) >= '\U{80}'
  {
    if s != "" {
      EncodedAscii(s[0]);
      assert Utf8(s)[0] == Encoded(s[0])[0];
      assert Encoded(s[0])[0] in Encoded(s[0]);
    }
  }

  // The byte behind `n` ASCII characters.
  lemma ByteAt(s: string, n: nat)
    requires n <= |s| && forall k | 0 <= k < n :: Ascii(s[k])
    ensures n < |Utf8(s)| <==> n < |s|
    ensures n < |s| ==> if Ascii(s[n]) then AsChar(Utf8(s)[n]) == s[n] else AsChar(Utf8(s)[n]) >= '\U{80}'
  {
    AsciiPrefix(s, n);
    FirstByte(s[n..]);
    assert n < |s| ==> Utf8(s)[n] == Utf8(s)[n..][0];
  }

  lemma {:induction false} Utf8Length(s: string)
    ensures |Utf8(s)| >= |s|
    ensures |Utf8(s)| == |s| <==> forall c | c in s :: Ascii(c)
  {
    if s != "" {
      EncodedAscii(s[0]);
      Utf8Length(s[1..]);
      assert s == [s[0]] + s[1..];
    }
  }

  // ------------------------------------------------------------------ tests on bytes

  // `next_is_blank`, `next_is_break`, `next_is_z` and their like, for a class of ASCII characters.
  predicate FirstByteIs(s: string, class_: char -> bool) {
    Utf8(s) != [] && class_(AsChar(Utf8(s)[0]))
  }

  // Testing the first byte is testing the character `peek` gives, for every class of ASCII
  // characters: those without NUL fail at the end of the text, those with NUL hold there.
  lemma FirstByteTest(s: string, class_: char -> bool)
    requires forall c | class_(c) :: Ascii(c)
    ensures !class_(NUL) ==> (FirstByteIs(s, class_) <==> class_(Peek(s)))
    ensures class_(NUL) ==> ((s == "" || FirstByteIs(s, class_)) <==> class_(Peek(s)))
  {
    FirstByte(s);
  }

  predicate ThreeBytes(s: string, c: char) {
    var bytes := Utf8(s);
    && |bytes| >= 3
    && (|bytes| == 3 || IsBlankOrBreakz(AsChar(bytes[3])))
    && AsChar(bytes[0]) == c && AsChar(bytes[1]) == c && AsChar(bytes[2]) == c
  }

  // `next_is_document_indicator` of a string: three equal bytes, `.` or `-`.
  predicate IsDocumentIndicator(s: string) {
    var bytes := Utf8(s);
    && |bytes| >= 3
    && (|bytes| == 3 || IsBlankOrBreakz(AsChar(bytes[3])))
    && (AsChar(bytes[0]) == '.' || AsChar(bytes[0]) == '-')
    && bytes[0] == bytes[1] && bytes[1] == bytes[2]
  }

  lemma {:induction false} LeadingBytes(s: string, c: char, n: nat)
    requires Ascii(c) && n <= |Utf8(s)| && forall k | 0 <= k < n :: Utf8(s)[k] == c as int
    ensures n <= |s| && forall k | 0 <= k < n :: s[k] == c
  {
    if n > 0 {
      FirstByte(s);
      EncodedAscii(s[0]);
      assert Utf8(s)[1..] == Utf8(s[1..]);
      LeadingBytes(s[1..], c, n - 1);
    }
  }

  // The byte tests for document markers are the character tests.
  lemma ThreeBytesTest(s: string, c: char)
    requires Ascii(c) && c != NUL
    ensures ThreeBytes(s, c) <==> Next3Are(s, c) && IsBlankOrBreakz(PeekNth(s, 3))
  {
    if Next3Are(s, c) {
      AsciiPrefix(s, 3);
      FirstByte(s[3..]);
      assert |s| > 3 ==> s[3..][0] == s[3] && Utf8(s)[3] == Utf8(s[3..])[0];
    } else if ThreeBytes(s, c) {
      LeadingBytes(s, c, 3);
    }
  }

  lemma DocumentMarkerTests(s: string)
    ensures ThreeBytes(s, '.') <==> NextIsDocumentEnd(s)
    ensures IsDocumentIndicator(s) <==> NextIsDocumentIndicator(s)
  {
    ThreeBytesTest(s, '.');
    ThreeBytesTest(s, '-');
  }

  // ------------------------------------------------------------------ loops

  predicate IsAlpha(c: char) {
    '0' <= c <= '9' || 'a' <= c <= 'z' || 'A' <= c <= 'Z' || c == '_' || c == '-'
  }

  // How many characters of a class a string starts with.
  function LeadingOf(s: string, class_: char -> bool): (n: nat)
    ensures n <= |s|
    ensures forall k | 0 <= k < n :: class_(s[k])
    ensures n < |s| ==> !class_(s[n])
  {
    if s != "" && class_(s[0]) then 1 + LeadingOf(s[1..], class_) else 0
  }

  // Where `n` characters of the class have been passed, the rest of them follow.
  lemma {:induction false} LeadingRest(s: string, class_: char -> bool, n: nat)
    requires n <= |s| && forall k | 0 <= k < n :: class_(s[k])
    ensures LeadingOf(s, class_) == n + LeadingOf(s[n..], class_)
  {
    if n > 0 {
      LeadingRest(s[1..], class_, n - 1);
      assert s[1..][n - 1..] == s[n..];
    }
  }

  predicate NonBreakz(c: char) {
    !IsBreakz(c)
  }

  lemma {:induction false} NonBreakzIs(s: string)
    ensures LeadingNonBreakz(s) == LeadingOf(s, NonBreakz)
  {
    if s != "" {
      NonBreakzIs(s[1..]);
    }
  }

  // The white space in front, character by character.
  lemma {:induction false} WsAt(s: string, tabs: bool, k: nat)
    requires k <= LeadingWs(s, tabs)
    ensures k < LeadingWs(s, tabs) <==> PeekNth(s, k) == ' ' || (tabs && PeekNth(s, k) == '\t')
  {
    if k > 0 {
      WsAt(s[1..], tabs, k - 1);
    }
  }

  lemma WsBefore(s: string, tabs: bool, k: nat)
    requires k <= LeadingWs(s, tabs)
    ensures k > 0 <==> ' ' in s[..k] || '\t' in s[..k]
  {
    if k > 0 {
      WsAt(s, tabs, 0);
      assert s[..k][0] == s[0];
    }
  }

  // The white space up to `count` has been passed.
  ghost predicate InWs(s: string, tabs: bool, count: nat, tab: bool, ws: bool) {
    && count <= LeadingWs(s, tabs)
    && tab == ('\t' in s[..count]) && ws == (' ' in s[..count])
  }

  lemma WsNone(s: string, tabs: bool)
    ensures InWs(s, tabs, 0, false, false)
  {
  }

  lemma WsMore(s: string, tabs: bool, count: nat, tab: bool, ws: bool)
    requires InWs(s, tabs, count, tab, ws)
    ensures PeekNth(s, count) == ' ' ==> InWs(s, tabs, count + 1, tab, true)
    ensures PeekNth(s, count) == '\t' && tabs ==> InWs(s, tabs, count + 1, true, ws)
    ensures PeekNth(s, count) != ' ' && !(PeekNth(s, count) == '\t' && tabs) ==> count == LeadingWs(s, tabs)
    ensures (tab || ws) <==> count > 0
  {
    WsAt(s, tabs, count);
    WsBefore(s, tabs, count);
    if count < |s| {
      assert s[..count + 1] == s[..count] + [s[count]];
    }
  }

  // What the comment parameter holds when `text` has been appended.
  function Plus(comment: Option<string>, text: string): Option<string> {
    if comment.Some? then Some(comment.value + text) else None
  }

  // What `skip_ws_to_eol` comes to: how many characters it passes, which white space they were, what
  // the comment parameter holds then and what text is left.
  ghost predicate SkipsWs(s: string, tabs: bool, comment: Option<string>, count: nat, r: Result<(bool, bool), ()>,
                          out: Option<string>, rest: string)
  {
    var e := Input.SkipWsToEol(s, tabs);
    && count == e.count && rest == Drop(s, e.count)
    && r == (if e.ok then Ok((e.tab, e.ws)) else Err(()))
    && out == Plus(comment, e.comment)
  }

  // The white space ends at `count`: without a comment that is all, and a `#` right away is an
  // error.
  lemma WsEnds(s: string, tabs: bool, count: nat, tab: bool, ws: bool, comment: Option<string>)
    requires InWs(s, tabs, count, tab, ws) && count == LeadingWs(s, tabs)
    ensures PeekNth(s, count) != '#' ==> SkipsWs(s, tabs, comment, count, Ok((tab, ws)), comment, Drop(s, count))
    ensures PeekNth(s, count) == '#' && count == 0 ==> SkipsWs(s, tabs, comment, 0, Err(()), comment, Drop(s, 0))
  {
    assert comment.Some? ==> comment.value + "" == comment.value;
  }

  // The comment `s` starts with.
  function Remark(s: string): string {
    if s == "" then "" else [s[0]] + s[1..][..LeadingOf(s[1..], NonBreakz)]
  }

  lemma RemarkIs(s: string)
    requires s != "" && NonBreakz(s[0])
    ensures Remark(s) == s[..LeadingNonBreakz(s)]
  {
    NonBreakzIs(s);
    assert Remark(s) == s[..1 + LeadingOf(s[1..], NonBreakz)];
  }

  lemma RemarkEnds(s: string, k: nat)
    requires k <= |s| && s != "" && NonBreakz(s[0])
    requires (forall j | 0 <= j < k :: NonBreakz(s[j])) && (k < |s| ==> IsBreakz(s[k]))
    ensures Remark(s) == s[..k]
  {
    RemarkIs(s);
    NonBreakzIs(s);
    LeadingRest(s, NonBreakz, k);
  }

  lemma CommentIs(s: string, tabs: bool, n: nat, tab: bool, ws: bool)
    requires InWs(s, tabs, n, tab, ws) && n == LeadingWs(s, tabs) && n > 0 && PeekNth(s, n) == '#'
    ensures var text := Remark(Drop(s, n));
            && text != "" && n + |text| <= |s| && IsBreakz(PeekNth(s, n + |text|))
            && Input.SkipWsToEol(s, tabs) == EolSkip(n + |text|, text, true, tab, ws)
  {
    hide Remark;
    RemarkIs(s[n..]);
    var k := LeadingNonBreakz(s[n..]);
    assert PeekNth(s[n..], k) == PeekNth(s, n + k);
    assert s[n..n + k] == s[n..][..k];
  }

  lemma CommentEnds(s: string, tabs: bool, n: nat, tab: bool, ws: bool, comment: Option<string>)
    requires InWs(s, tabs, n, tab, ws) && n == LeadingWs(s, tabs) && n > 0 && PeekNth(s, n) == '#'
    ensures var text := Remark(Drop(s, n));
            && text != "" && n + |text| <= |s| && IsBreakz(PeekNth(s, n + |text|))
            && Drop(Drop(s, n), |text|) == Drop(s, n + |text|)
            && SkipsWs(s, tabs, comment, n + |text|, Ok((tab, ws)), Plus(comment, text), Drop(s, n + |text|))
  {
    hide Remark, InWs, Input.SkipWsToEol, LeadingWs;
    CommentIs(s, tabs, n, tab, ws);
    DropTwice(s, n, |Remark(Drop(s, n))|);
  }

  lemma OneDropped(s: string)
    requires s != ""
    ensures Drop(s, 1) == s[1..] && Peek(s) == s[0]
  {
  }

  lemma DropTwice(s: string, a: nat, b: nat)
    ensures Drop(Drop(s, a), b) == Drop(s, a + b)
    ensures Peek(Drop(s, a)) == PeekNth(s, a)
    ensures PeekNth(s, a) != NUL ==> a < |s|
  {
    if a + b <= |s| {
      assert s[a..][b..] == s[a + b..];
    }
  }

  // Where the loop of `skip_ws_to_eol` stands, `rest` being unread: in the white space, or, once
  // `seen`, behind the comment.
  ghost predicate Standing(rest: string, s: string, tabs: bool, comment: Option<string>, count: nat, tab: bool, ws: bool,
                           out: Option<string>, seen: bool)
  {
    && rest == Drop(s, count) && count <= |s|
    && if seen then SkipsWs(s, tabs, comment, count, Ok((tab, ws)), out, rest) && IsBreakz(PeekNth(s, count))
       else InWs(s, tabs, count, tab, ws) && out == comment
  }

  // What the next character means there.
  lemma Facing(rest: string, s: string, tabs: bool, comment: Option<string>, count: nat, tab: bool, ws: bool,
               out: Option<string>, seen: bool)
    requires Standing(rest, s, tabs, comment, count, tab, ws, out, seen)
    ensures var c := Peek(rest);
            && rest == Drop(s, count) && (c != NUL ==> count < |s|)
            && (c == ' ' ==> !seen && Standing(Drop(rest, 1), s, tabs, comment, count + 1, tab, true, out, seen))
            && (c == '\t' && tabs ==> !seen && Standing(Drop(rest, 1), s, tabs, comment, count + 1, true, ws, out, seen))
            && (c == '#' ==> !seen && out == comment)
            && (c == '#' && (tab || ws) ==>
                  InWs(s, tabs, count, tab, ws) && count == LeadingWs(s, tabs) && count > 0 && PeekNth(s, count) == '#')
            && (c == '#' && !tab && !ws ==> count == 0 && SkipsWs(s, tabs, comment, 0, Err(()), out, rest))
            && (c != ' ' && !(c == '\t' && tabs) && c != '#' ==> SkipsWs(s, tabs, comment, count, Ok((tab, ws)), out, rest))
  {
    hide LeadingWs, Drop, InWs, SkipsWs, Peek, PeekNth;
    DropTwice(s, count, 1);
    if !seen {
      FacingWs(s, tabs, comment, count, tab, ws);
    }
  }

  lemma FacingWs(s: string, tabs: bool, comment: Option<string>, count: nat, tab: bool, ws: bool)
    requires InWs(s, tabs, count, tab, ws)
    ensures var c := PeekNth(s, count);
            && (c == ' ' ==> InWs(s, tabs, count + 1, tab, true))
            && (c == '\t' && tabs ==> InWs(s, tabs, count + 1, true, ws))
            && (c == '#' && (tab || ws) ==> count == LeadingWs(s, tabs) && count > 0)
            && (c == '#' && !tab && !ws ==> count == 0 && SkipsWs(s, tabs, comment, 0, Err(()), comment, Drop(s, 0)))
            && (c != ' ' && !(c == '\t' && tabs) && c != '#' ==>
                  SkipsWs(s, tabs, comment, count, Ok((tab, ws)), comment, Drop(s, count)))
  {
    hide LeadingWs, Drop, InWs, SkipsWs, PeekNth;
    WsMore(s, tabs, count, tab, ws);
    if count == LeadingWs(s, tabs) {
      WsEnds(s, tabs, count, tab, ws, comment);
    }
  }

  // Behind the comment.
  lemma CommentStands(rest: string, s: string, tabs: bool, n: nat, tab: bool, ws: bool, comment: Option<string>)
    requires InWs(s, tabs, n, tab, ws) && n == LeadingWs(s, tabs) && n > 0 && PeekNth(s, n) == '#'
    requires rest == Drop(s, n)
    ensures var text := Remark(rest);
            text != "" && Standing(Drop(rest, |text|), s, tabs, comment, n + |text|, tab, ws, Plus(comment, text), true)
  {
    hide LeadingWs, LeadingOf, Drop, InWs, SkipsWs, Remark, Plus, Peek, PeekNth;
    CommentEnds(s, tabs, n, tab, ws, comment);
  }

  lemma WsAscii(s: string, tabs: bool, count: nat, tab: bool, ws: bool)
    requires InWs(s, tabs, count, tab, ws)
    ensures count <= |s| && forall k | 0 <= k < count :: Ascii(s[k])
  {
    forall k | 0 <= k < count ensures Ascii(s[k]) {
      WsAt(s, tabs, k);
    }
  }

  // White space is as many bytes as characters, and a `#` behind it is one byte.
  lemma WsBytes(s: string, tabs: bool, n: nat, tab: bool, ws: bool)
    requires InWs(s, tabs, n, tab, ws)
    ensures n <= |s|
    ensures var rest := Drop(s, n);
            && |Utf8(s)| - |Utf8(rest)| == n
            && (Utf8(rest) == [] <==> rest == "")
            && (rest != "" ==> (AsChar(Utf8(rest)[0]) == '#' <==> rest[0] == '#'))
  {
    WsAscii(s, tabs, n, tab, ws);
    AsciiPrefix(s, n);
    FirstByte(s[n..]);
  }

  // The trait's methods, on top of `look_ch` and `skip`.
  class CharByChar {
    var buffer: string

    constructor (text: string)
      ensures buffer == text
    {
      buffer := text;
    }

    method LookCh() returns (c: char)
      ensures c == Peek(buffer)
    {
      c := Peek(buffer);
    }

    method Skip()
      modifies this
      ensures buffer == Drop(old(buffer), 1)
    {
      if buffer != "" {
        buffer := buffer[1..];
      }
    }

    method SkipWhile(class_: char -> bool, out: string) returns (count: nat, text: string)
      requires !class_(NUL)
      modifies this
      ensures count == LeadingOf(old(buffer), class_)
      ensures buffer == old(buffer)[count..] && text == out + old(buffer)[..count]
    {
      count, text := 0, out;
      var c := LookCh();
      while class_(c)
        invariant count <= |old(buffer)| && buffer == old(buffer)[count..] && c == Peek(buffer)
        invariant forall k | 0 <= k < count :: class_(old(buffer)[k])
        invariant text == out + old(buffer)[..count]
        decreases |buffer|
      {
        text := text + [c];
        Skip();
        count := count + 1;
        c := LookCh();
      }
      LeadingRest(old(buffer), class_, count);
    }

    // Skips a `#` and what follows it on the line, counting the characters behind the `#`.
    method TakeComment(comment: Option<string>) returns (more: nat, out: Option<string>)
      requires Peek(buffer) == '#'
      modifies this
      ensures var text := Remark(old(buffer));
              && 1 + more == |text| && buffer == Drop(old(buffer), |text|)
              && out == Plus(comment, text)
    {
      Skip();
      var text;
      more, text := SkipWhile(NonBreakz, "#");
      out := if comment.Some? then Some(comment.value + text) else None;
    }

    // Behind the white space, the comment.
    method SkipComment(ghost s: string, ghost tabs: bool, count: nat, ghost tab: bool, ghost ws: bool, comment: Option<string>)
      returns (after: nat, out: Option<string>)
      requires InWs(s, tabs, count, tab, ws) && count == LeadingWs(s, tabs) && count > 0 && PeekNth(s, count) == '#'
      requires buffer == Drop(s, count) && Peek(buffer) == '#'
      modifies this
      ensures after > count && Standing(buffer, s, tabs, comment, after, tab, ws, out, true)
    {
      hide *;
      CommentStands(buffer, s, tabs, count, tab, ws, comment);
      var more;
      more, out := TakeComment(comment);
      after := count + more + 1;
    }

    method SkipWsToEol(tabs: bool, comment: Option<string>)
      returns (count: nat, r: Result<(bool, bool), ()>, out: Option<string>)
      modifies this
      ensures SkipsWs(old(buffer), tabs, comment, count, r, out, buffer)
    {
      ghost var s := buffer;
      ghost var seen := false;
      var tab, ws := false, false;
      out := comment;
      count := 0;
      assert buffer == Drop(s, 0);
      WsNone(s, tabs);
      hide LeadingWs, Drop, Peek, PeekNth, InWs, SkipsWs;
      while true
        invariant count <= |s| && Standing(buffer, s, tabs, comment, count, tab, ws, out, seen)
        decreases |s| - count
      {
        var c := LookCh();
        Facing(buffer, s, tabs, comment, count, tab, ws, out, seen);
        if c == ' ' {
          ws := true;
          Skip();
        } else if c == '\t' && tabs {
          tab := true;
          Skip();
        } else if c == '#' && !tab && !ws {
          return count, Err(()), out;
        } else if c == '#' {
          count, out := SkipComment(s, tabs, count, tab, ws, out);
          seen := true;
          continue;
        } else {
          break;
        }
        count := count + 1;
      }
      r := Ok((tab, ws));
    }
  }

  // ------------------------------------------------------------------ a string's own loops

  // `&s[i..]` with `i` counted in bytes; None where the original panics.
  function FromByte(s: string, i: nat): Option<string> {
    if i == 0 then Some(s)
    else if s == "" || i < |Encoded(s[0])| then None
    else FromByte(s[1..], i - |Encoded(s[0])|)
  }

  lemma {:induction false} FromByteAt(a: string, b: string)
    ensures FromByte(a + b, |Utf8(a)|) == Some(b)
  {
    if a == "" {
      assert a + b == b;
    } else {
      assert (a + b)[1..] == a[1..] + b;
      FromByteAt(a[1..], b);
    }
  }

  // How many bytes lie between the start of `s` and its end `rest`, and the slice there.
  // Back over the bytes of the character that has just been read.
  lemma BackOver(s: string, n: nat)
    requires n < |s|
    ensures |Utf8(s)| - |Utf8(s[n + 1..])| - |Encoded(s[n])| == |Utf8(s[..n])|
  {
    BytesBetween(s, n);
    assert s[n..][1..] == s[n + 1..];
  }

  lemma BytesBetween(s: string, n: nat)
    requires n <= |s|
    ensures |Utf8(s)| - |Utf8(s[n..])| == |Utf8(s[..n])|
    ensures FromByte(s, |Utf8(s[..n])|) == Some(s[n..])
  {
    assert s[..n] + s[n..] == s;
    Utf8Join(s[..n], s[n..]);
    FromByteAt(s[..n], s[n..]);
  }

  class Str {
    var buffer: string

    constructor (text: string)
      ensures buffer == text
    {
      buffer := text;
    }

    method SkipWhileNonBreakz() returns (count: nat)
      modifies this
      ensures count == LeadingOf(old(buffer), NonBreakz) && buffer == old(buffer)[count..]
    {
      var rest := buffer;
      count := 0;
      while rest != ""
        invariant count <= |buffer| && rest == buffer[count..] && buffer == old(buffer)
        invariant forall k | 0 <= k < count :: NonBreakz(buffer[k])
        decreases |rest|
      {
        if IsBreakz(rest[0]) {
          break;
        }
        rest := rest[1..];
        count := count + 1;
      }
      LeadingRest(buffer, NonBreakz, count);
      buffer := rest;
    }

    // Counts bytes, and cuts the string at that byte.
    method SkipWhileBlank() returns (count: nat)
      modifies this
      ensures count == LeadingOf(old(buffer), IsBlank) && buffer == old(buffer)[count..]
    {
      var bytes := Utf8(buffer);
      var i := 0;
      while i < |bytes| && IsBlank(AsChar(bytes[i]))
        invariant buffer == old(buffer) && i <= |buffer| && i <= |bytes|
        invariant forall k | 0 <= k < i :: IsBlank(buffer[k])
      {
        ByteAt(buffer, i);
        i := i + 1;
      }
      ByteAt(buffer, i);
      BytesBetween(buffer, i);
      AsciiPrefix(buffer[..i], i);
      LeadingRest(buffer, IsBlank, i);
      buffer := FromByte(buffer, i).value;
      count := i;
    }

    // Steps over the first character that is not a letter and back over its bytes; the count
    // returned is in bytes.
    method FetchWhile(class_: char -> bool, out: string) returns (count: nat, text: string)
      modifies this
      ensures var n := LeadingOf(old(buffer), class_);
              && buffer == old(buffer)[n..] && text == out + old(buffer)[..n]
              && count == |Utf8(old(buffer)[..n])|
    {
      var rest := buffer;
      var stop: Option<char> := None;
      ghost var n := 0;
      while rest != ""
        invariant n <= |buffer| && rest == buffer[n..] && buffer == old(buffer) && stop == None
        invariant forall k | 0 <= k < n :: class_(buffer[k])
        decreases |rest|
      {
        var c := rest[0];
        rest := rest[1..];
        if !class_(c) {
          stop := Some(c);
          break;
        }
        n := n + 1;
      }
      LeadingRest(buffer, class_, n);
      BytesBetween(buffer, n);
      hide LeadingOf, Utf8;
      var remaining := rest;
      if stop.Some? {
        BackOver(buffer, n);
        var read := |Utf8(buffer)| - |Utf8(rest)|;
        remaining := FromByte(buffer, read - |Encoded(stop.value)|).value;
      }
      count := |Utf8(buffer)| - |Utf8(remaining)|;
      text := out + buffer[..|buffer| - |remaining|];
      buffer := remaining;
    }

    method FetchWhileIsAlpha(out: string) returns (count: nat, text: string)
      modifies this
      ensures count == LeadingOf(old(buffer), IsAlpha)
      ensures buffer == old(buffer)[count..] && text == out + old(buffer)[..count]
    {
      ghost var s := buffer;
      count, text := FetchWhile(IsAlpha, out);
      Utf8Length(s[..LeadingOf(s, IsAlpha)]);
    }

    method SkipWsToEol(tabs: bool, comment: Option<string>)
      returns (count: nat, r: Result<(bool, bool), ()>, out: Option<string>)
      modifies this
      ensures SkipsWs(old(buffer), tabs, comment, count, r, out, buffer)
    {
      ghost var s := buffer;
      ghost var i := 0;
      var rest := buffer;
      var tab, ws := false, false;
      assert rest == Drop(s, 0);
      WsNone(s, tabs);
      hide LeadingWs, LeadingOf, Drop, InWs, SkipsWs, Remark, Plus, Utf8;
      while rest != "" && (rest[0] == ' ' || (tabs && rest[0] == '\t'))
        invariant buffer == s && i <= |s| && rest == Drop(s, i) && InWs(s, tabs, i, tab, ws)
        decreases |rest|
      {
        WsMore(s, tabs, i, tab, ws);
        DropTwice(s, i, 1);
        OneDropped(rest);
        if rest[0] == ' ' {
          ws := true;
        } else {
          tab := true;
        }
        rest := rest[1..];
        i := i + 1;
      }
      DropTwice(s, i, 0);
      WsMore(s, tabs, i, tab, ws);
      WsEnds(s, tabs, i, tab, ws, comment);
      WsBytes(s, tabs, i, tab, ws);
      out := comment;
      count := |Utf8(buffer)| - |Utf8(rest)|;
      if rest != "" && AsChar(Utf8(rest)[0]) == '#' {
        if !tab && !ws {
          return count, Err(()), out;
        }
        CommentEnds(s, tabs, i, tab, ws, comment);
        var more;
        rest, more, out := PassComment(rest, comment);
        count := count + more;
      }
      buffer := rest;
      r := Ok((tab, ws));
    }

    // The inner loop: up to a line break or the end.
    method PassComment(start: string, comment: Option<string>) returns (rest: string, count: nat, out: Option<string>)
      requires start != "" && start[0] == '#'
      ensures var text := Remark(start);
              rest == Drop(start, |text|) && count == |text| && out == Plus(comment, text)
    {
      rest, count := start, 0;
      while rest != ""
        invariant count <= |start| && rest == start[count..]
        invariant forall j | 0 <= j < count :: NonBreakz(start[j])
        decreases |rest|
      {
        if IsBreakz(rest[0]) {
          break;
        }
        rest := rest[1..];
        count := count + 1;
      }
      RemarkEnds(start, count);
      out := if comment.Some? then Some(comment.value + start[..|start| - |rest|]) else None;
    }
  }

  // In `fetch_while_is_yaml_non_space` the count a string returns is the number of characters,
  // which is what the trait promises, exactly when they are all ASCII.
  lemma BytesAreCharacters(s: string, class_: char -> bool)
    ensures var run := s[..LeadingOf(s, class_)];
            |Utf8(run)| == LeadingOf(s, class_) <==> forall c | c in run :: Ascii(c)
  {
    Utf8Length(s[..LeadingOf(s, class_)]);
  }
}
