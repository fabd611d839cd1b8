// Tags and `%TAG` lines: how the emitter writes them and how the scanner reads them
// (crates/yamluna-core/src/emitter/mod.rs, `render_tag`; crates/yamluna-scanner/src/scanner.rs, `scan_tag`
// and its helpers).
module TagScan {
  import opened CharTraits
  import opened Input
  import opened Results
  import opened FlowScan
  import opened StrInput

  // ------------------------------------------------------------------ characters

  predicate IsAlpha(c: char) {
    IsDigit(c) || 'a' <= c <= 'z' || 'A' <= c <= 'Z' || c == '_' || c == '-'
  }

  predicate IsUriChar(c: char) {
    || IsAlpha(c) || c == '#' || c == ';' || c == '/' || c == '?' || c == ':' || c == '@' || c == '&' || c == '='
    || c == '+' || c == '$' || c == ',' || c == '.' || c == '!' || c == '~' || c == '*' || c == '\'' || c == '('
    || c == ')' || c == '[' || c == ']' || c == '%'
  }

  predicate IsTagChar(c: char) {
    IsUriChar(c) && !IsFlow(c) && c != '!'
  }

  predicate AllAlpha(s: string) {
    forall c | c in s :: IsAlpha(c)
  }

  predicate AllUri(s: string) {
    forall c | c in s :: IsUriChar(c)
  }

  // ------------------------------------------------------------------ writing

  // The digit `{:X}` writes for `n`.
  function UpperDigit(n: nat): (c: char)
    requires n < 16
    ensures IsHex(c) && AsHex(c) == n
  {
    if n < 10 then ('0' as int + n) as char else ('A' as int + n - 10) as char
  }

  predicate MustEscape(c: char) {
    c == '!' || IsFlow(c) || c == '%'
  }

  // The characters a suffix can have, escaped or as they are.
  predicate Spellable(c: char) {
    IsUriChar(c) || MustEscape(c)
  }

  predicate AllSpellable(s: string) {
    forall c | c in s :: Spellable(c)
  }

  function EscapedChar(c: char): (s: string)
    ensures s != ""
  {
    if MustEscape(c) then ['%', UpperDigit(c as int / 16), UpperDigit(c as int % 16)] else [c]
  }

  function EscapedTag(suffix: string): string {
    if suffix == "" then "" else EscapedChar(suffix[0]) + EscapedTag(suffix[1..])
  }

  function RenderTag(handle: string, suffix: string): string {
    if handle == "" then if suffix == "!" then "!" else "!<" + suffix + ">"
    else handle + EscapedTag(suffix)
  }

  // ------------------------------------------------------------------ reading

  datatype TagError =
    | ExpectedBang
    | ExpectedHandleEnd
    | BadPrefix
    | BadEscape
    | BadLeadByte
    | BadTrailByte
    | BadCodePoint
    | ExpectedAngle
    | ExpectedUri
    | NotSeparated

  // What was read, and where reading stopped.
  datatype Read = Read(value: string, end: Cursor)

  type ReadResult = Result<Read, TagError>

  datatype TagRead = TagRead(handle: string, suffix: string, end: Cursor)

  // `%` and two hexadecimal digits.
  function Octet(s: string): (b: Option<Byte>)
    ensures b.Some? ==> |s| >= 3
  {
    if Peek(s) == '%' && IsHex(PeekNth(s, 1)) && IsHex(PeekNth(s, 2)) then
      Some(16 * AsHex(PeekNth(s, 1)) + AsHex(PeekNth(s, 2)))
    else None
  }

  // How many octets a character has by its first, 0 when none begins with it.
  function Width(lead: Byte): (n: nat)
    ensures n <= 4
  {
    if lead < 0x80 then 1
    else if 0xC0 <= lead < 0xE0 then 2
    else if 0xE0 <= lead < 0xF0 then 3
    else if 0xF0 <= lead < 0xF8 then 4
    else 0
  }

  // `n` octets more, each shifted into the code as it is.
  function Trailing(s: string, n: nat, code: nat): (r: Result<nat, TagError>)
    ensures r.Ok? ==> |s| >= 3 * n
    decreases n
  {
    if n == 0 then Ok(code)
    else
      var b := Octet(s);
      if b.None? then Err(BadEscape)
      else if !(0x80 <= b.value < 0xC0) then Err(BadTrailByte)
      else Trailing(Drop(s, 3), n - 1, 0x100 * code + b.value)
  }

  lemma TrailingStep(s: string, n: nat, code: nat)
    ensures n == 0 ==> Trailing(s, n, code) == Ok(code)
    ensures n > 0 ==>
              var b := Octet(s);
              Trailing(s, n, code) ==
              if b.None? then Err(BadEscape)
              else if !(0x80 <= b.value < 0xC0) then Err(BadTrailByte)
              else Trailing(Drop(s, 3), n - 1, 0x100 * code + b.value)
  {
  }

  // The escaped character `s` starts with.
  function UriEscape(s: string): (r: Result<Escape, TagError>)
    ensures r.Ok? ==> 3 <= r.value.len <= |s|
  {
    var b := Octet(s);
    if b.None? then Err(BadEscape)
    else if Width(b.value) == 0 then Err(BadLeadByte)
    else
      match Trailing(Drop(s, 3), Width(b.value) - 1, b.value)
      case Err(e) => Err(e)
      case Ok(code) =>
        if IsScalarValue(code) then Ok(Escape(code as char, 3 * Width(b.value))) else Err(BadCodePoint)
  }

  lemma EscapeIs(s: string)
    ensures var b := Octet(s);
            UriEscape(s) ==
            if b.None? then Err(BadEscape)
            else if Width(b.value) == 0 then Err(BadLeadByte)
            else
              match Trailing(Drop(s, 3), Width(b.value) - 1, b.value)
              case Err(e) => Err(e)
              case Ok(code) =>
                if IsScalarValue(code) then Ok(Escape(code as char, 3 * Width(b.value))) else Err(BadCodePoint)
  {
  }

  predicate InRun(c: char, tag: bool) {
    if tag then IsTagChar(c) else IsUriChar(c)
  }

  // Characters of a URI or of a tag's suffix, as many as there are.
  function UriRun(c: Cursor, tag: bool, acc: string): ReadResult
    decreases |c.s|
  {
    var p := Peek(c.s);
    if !InRun(p, tag) then Ok(Read(acc, c))
    else if p == '%' then
      match UriEscape(c.s)
      case Err(e) => Err(e)
      case Ok(e) => UriRun(Skip(c, e.len), tag, acc + [e.c])
    else UriRun(Skip(c, 1), tag, acc + [p])
  }

  function LeadingAlpha(s: string): (n: nat)
    ensures n <= |s| && !IsAlpha(PeekNth(s, n))
    ensures forall k | 0 <= k < n :: IsAlpha(s[k])
  {
    if s != "" && IsAlpha(s[0]) then 1 + LeadingAlpha(s[1..]) else 0
  }

  function ScanHandle(c: Cursor, directive: bool): ReadResult {
    if Peek(c.s) != '!' then Err(ExpectedBang)
    else
      var n := LeadingAlpha(c.s[1..]);
      var d := Skip(c, n + 1);
      if Peek(d.s) == '!' then Ok(Read(c.s[..n + 2], Skip(c, n + 2)))
      else if directive && n > 0 then Err(ExpectedHandleEnd)
      else Ok(Read(c.s[..n + 1], d))
  }

  // A handle between two `!`, and not the primary one.
  predicate IsNamed(handle: string) {
    |handle| >= 2 && handle[0] == '!' && handle[|handle| - 1] == '!'
  }

  // The handle and the suffix, the check of what follows them still to come.
  function ScanParts(c: Cursor): Result<TagRead, TagError> {
    if PeekNth(c.s, 1) == '<' then
      match UriRun(Skip(c, 2), false, "")
      case Err(e) => Err(e)
      case Ok(uri) => if Peek(uri.end.s) == '>' then Ok(TagRead("", uri.value, Skip(uri.end, 1))) else Err(ExpectedAngle)
    else
      match ScanHandle(c, false)
      case Err(e) => Err(e)
      case Ok(head) =>
        if IsNamed(head.value) then
          match UriRun(head.end, true, "")
          case Err(e) => Err(e)
          case Ok(uri) => if uri.value == "" then Err(ExpectedUri) else Ok(TagRead(head.value, uri.value, uri.end))
        else
          match UriRun(head.end, true, if |head.value| > 1 then head.value[1..] else "")
          case Err(e) => Err(e)
          case Ok(uri) =>
            if uri.value == "" then Ok(TagRead("", "!", uri.end)) else Ok(TagRead("!", uri.value, uri.end))
  }

  // `scan_tag`, `c` standing on the `!`.
  function ScanTag(c: Cursor, flowLevel: nat): Result<TagRead, TagError> {
    match ScanParts(c)
    case Err(e) => Err(e)
    case Ok(tag) =>
      var p := Peek(tag.end.s);
      if IsBlankOrBreakz(p) || (flowLevel > 0 && IsFlow(p)) then Ok(tag) else Err(NotSeparated)
  }

  function ScanPrefix(c: Cursor): ReadResult {
    var p := Peek(c.s);
    if p != '!' && !IsTagChar(p) then Err(BadPrefix)
    else if p == '%' then
      match UriEscape(c.s)
      case Err(e) => Err(e)
      case Ok(e) => UriRun(Skip(c, e.len), false, [e.c])
    else UriRun(Skip(c, 1), false, [p])
  }

  // The handle and the prefix of a `%TAG` line, `c` standing behind the name of the directive.
  function ScanDirective(c: Cursor): Result<TagRead, TagError> {
    match ScanHandle(Skip(c, LeadingWs(c.s, true)), true)
    case Err(e) => Err(e)
    case Ok(head) =>
      match ScanPrefix(Skip(head.end, LeadingWs(head.end.s, true)))
      case Err(e) => Err(e)
      case Ok(prefix) =>
        if IsBlankOrBreakz(Peek(prefix.end.s)) then Ok(TagRead(head.value, prefix.value, prefix.end)) else Err(NotSeparated)
  }

  // ------------------------------------------------------------------ the loops

  // The fields of the scanner that reading a tag changes.
  class Scanner {
    var buffer: string
    var col: nat
    var line: nat
    var flowLevel: nat

    constructor (text: string, col: nat, line: nat, flowLevel: nat)
      ensures At() == Cursor(text, col, line) && this.flowLevel == flowLevel
    {
      buffer, this.col, this.line, this.flowLevel := text, col, line, flowLevel;
    }

    function At(): Cursor
      reads this`buffer, this`col, this`line
    {
      Cursor(buffer, col, line)
    }

    method SkipNNonBlank(count: nat)
      modifies this`buffer, this`col
      ensures At() == Skip(old(At()), count)
    {
      buffer := Drop(buffer, count);
      col := col + count;
    }

    method ScanUriEscapes() returns (r: Result<char, TagError>)
      modifies this`buffer, this`col
      ensures match UriEscape(old(buffer))
              case Err(e) => r == Err(e)
              case Ok(e) => r == Ok(e.c) && At() == Skip(old(At()), e.len)
    {
      hide Octet, Trailing, UriEscape, Width;
      EscapeIs(buffer);
      var first := Octet(buffer);
      if first.None? {
        return Err(BadEscape);
      }
      var width: nat := Width(first.value);
      if width == 0 {
        return Err(BadLeadByte);
      }
      ghost var whole := width;
      var code: nat := first.value;
      SkipNNonBlank(3);
      width := width - 1;
      while width > 0
        invariant width <= whole - 1 && 3 * (whole - width) <= |old(buffer)|
        invariant At() == Skip(old(At()), 3 * (whole - width))
        invariant Trailing(Drop(old(buffer), 3), whole - 1, first.value) == Trailing(buffer, width, code)
      {
        TrailingStep(buffer, width, code);
        var b := Octet(buffer);
        if b.None? {
          return Err(BadEscape);
        }
        if !(0x80 <= b.value < 0xC0) {
          return Err(BadTrailByte);
        }
        code := 0x100 * code + b.value;
        SkipNNonBlank(3);
        width := width - 1;
      }
      TrailingStep(buffer, 0, code);
      if IsScalarValue(code) {
        r := Ok(code as char);
      } else {
        r := Err(BadCodePoint);
      }
    }

    // The loop over the characters of a URI, or of a suffix.
    method ReadUri(tag: bool, str: string) returns (r: Result<string, TagError>)
      modifies this`buffer, this`col
      ensures match UriRun(old(At()), tag, str)
              case Err(e) => r == Err(e)
              case Ok(read) => r == Ok(read.value) && At() == read.end
    {
      var acc := str;
      while InRun(Peek(buffer), tag)
        invariant UriRun(old(At()), tag, str) == UriRun(At(), tag, acc)
        decreases |buffer|
      {
        if Peek(buffer) == '%' {
          var c := ScanUriEscapes();
          if c.Err? {
            return Err(c.error);
          }
          acc := acc + [c.value];
        } else {
          acc := acc + [Peek(buffer)];
          SkipNNonBlank(1);
        }
      }
      r := Ok(acc);
    }

    method ScanTagHandle(directive: bool) returns (r: Result<string, TagError>)
      modifies this`buffer, this`col
      ensures match ScanHandle(old(At()), directive)
              case Err(e) => r == Err(e)
              case Ok(read) => r == Ok(read.value) && At() == read.end
    {
      if Peek(buffer) != '!' {
        return Err(ExpectedBang);
      }
      ghost var whole := buffer;
      var text := [Peek(buffer)];
      SkipNNonBlank(1);
      var n := LeadingAlpha(buffer);
      text := text + buffer[..n];
      SkipNNonBlank(n);
      assert text == whole[..n + 1];
      if Peek(buffer) == '!' {
        text := text + ['!'];
        SkipNNonBlank(1);
        assert text == whole[..n + 2];
      } else if directive && text != "!" {
        return Err(ExpectedHandleEnd);
      }
      r := Ok(text);
    }

    method ScanVerbatimTag() returns (r: Result<TagRead, TagError>)
      requires PeekNth(buffer, 1) == '<'
      modifies this`buffer, this`col
      ensures match ScanParts(old(At()))
              case Err(e) => r == Err(e)
              case Ok(tag) => r == Ok(tag) && At() == tag.end
    {
      SkipNNonBlank(2);
      var uri := ReadUri(false, "");
      if uri.Err? {
        return Err(uri.error);
      }
      if Peek(buffer) != '>' {
        return Err(ExpectedAngle);
      }
      SkipNNonBlank(1);
      r := Ok(TagRead("", uri.value, At()));
    }

    // A tag that is not verbatim.
    method ScanShorthand() returns (r: Result<TagRead, TagError>)
      requires PeekNth(buffer, 1) != '<'
      modifies this`buffer, this`col
      ensures match ScanParts(old(At()))
              case Err(e) => r == Err(e)
              case Ok(tag) => r == Ok(tag) && At() == tag.end
    {
      var handle := ScanTagHandle(false);
      if handle.Err? {
        return Err(handle.error);
      }
      if |handle.value| >= 2 && handle.value[0] == '!' && handle.value[|handle.value| - 1] == '!' {
        var suffix := ReadUri(true, "");
        if suffix.Err? {
          return Err(suffix.error);
        }
        if suffix.value == "" {
          return Err(ExpectedUri);
        }
        return Ok(TagRead(handle.value, suffix.value, At()));
      }
      var suffix := ReadUri(true, if |handle.value| > 1 then handle.value[1..] else "");
      if suffix.Err? {
        return Err(suffix.error);
      }
      if suffix.value == "" {
        return Ok(TagRead("", "!", At()));
      }
      r := Ok(TagRead("!", suffix.value, At()));
    }

    method ScanTagToken() returns (r: Result<TagRead, TagError>)
      modifies this`buffer, this`col
      ensures match ScanTag(old(At()), flowLevel)
              case Err(e) => r == Err(e)
              case Ok(tag) => r == Ok(tag) && At() == tag.end
    {
      if PeekNth(buffer, 1) == '<' {
        r := ScanVerbatimTag();
      } else {
        r := ScanShorthand();
      }
      if r.Ok? && !(IsBlankOrBreakz(Peek(buffer)) || (flowLevel > 0 && IsFlow(Peek(buffer)))) {
        r := Err(NotSeparated);
      }
    }

    method ScanTagPrefix() returns (r: Result<string, TagError>)
      modifies this`buffer, this`col
      ensures match ScanPrefix(old(At()))
              case Err(e) => r == Err(e)
              case Ok(read) => r == Ok(read.value) && At() == read.end
    {
      var text := "";
      if Peek(buffer) == '!' {
        text := "!";
        SkipNNonBlank(1);
      } else if !IsTagChar(Peek(buffer)) {
        return Err(BadPrefix);
      } else if Peek(buffer) == '%' {
        var c := ScanUriEscapes();
        if c.Err? {
          return Err(c.error);
        }
        text := [c.value];
      } else {
        text := [Peek(buffer)];
        SkipNNonBlank(1);
      }
      r := ReadUri(false, text);
    }

    method ScanTagDirectiveValue() returns (r: Result<TagRead, TagError>)
      modifies this`buffer, this`col
      ensures match ScanDirective(old(At()))
              case Err(e) => r == Err(e)
              case Ok(tag) => r == Ok(tag) && At() == tag.end
    {
      SkipNNonBlank(LeadingWs(buffer, true));
      var handle := ScanTagHandle(true);
      if handle.Err? {
        return Err(handle.error);
      }
      SkipNNonBlank(LeadingWs(buffer, true));
      var prefix := ScanTagPrefix();
      if prefix.Err? {
        return Err(prefix.error);
      }
      if !IsBlankOrBreakz(Peek(buffer)) {
        return Err(NotSeparated);
      }
      r := Ok(TagRead(handle.value, prefix.value, At()));
    }
  }

  // ------------------------------------------------------------------ runs

  // A run reads what it is made of, and stops in front of anything else.
  lemma {:induction false} RunReads(c: Cursor, a: string, rest: string, tag: bool, acc: string)
    requires c.s == a + rest && !InRun(Peek(rest), tag)
    requires forall x | x in a :: InRun(x, tag) && x != '%'
    ensures UriRun(c, tag, acc) == Ok(Read(acc + a, Cursor(rest, c.col + |a|, c.line)))
    decreases |a|
  {
    if a == "" {
      assert c.s == rest && acc + a == acc;
    } else {
      assert c.s[1..] == a[1..] + rest;
      RunReads(Skip(c, 1), a[1..], rest, tag, acc + [a[0]]);
      assert (acc + [a[0]]) + a[1..] == acc + a;
    }
  }

  // And goes on behind what has no escapes in it.
  lemma {:induction false} RunPasses(c: Cursor, a: string, rest: string, tag: bool, acc: string)
    requires c.s == a + rest && forall x | x in a :: InRun(x, tag) && x != '%'
    ensures UriRun(c, tag, acc) == UriRun(Cursor(rest, c.col + |a|, c.line), tag, acc + a)
    decreases |a|
  {
    if a == "" {
      assert c.s == rest && acc + a == acc;
    } else {
      assert c.s[1..] == a[1..] + rest;
      RunPasses(Skip(c, 1), a[1..], rest, tag, acc + [a[0]]);
      assert (acc + [a[0]]) + a[1..] == acc + a;
    }
  }

  // ------------------------------------------------------------------ escapes

  // A text of escapes, in whatever case.
  predicate Spells(s: string, bs: seq<Byte>) {
    |s| == 3 * |bs| && forall i | 0 <= i < |bs| :: Octet(s[3 * i..3 * i + 3]) == Some(bs[i])
  }

  lemma OctetThere(s: string, rest: string, bs: seq<Byte>, i: nat)
    requires Spells(s, bs) && i < |bs|
    ensures Octet(Drop(s + rest, 3 * i)) == Some(bs[i])
  {
    var t := s[3 * i..3 * i + 3];
    var u := Drop(s + rest, 3 * i);
    assert u[0] == t[0] && u[1] == t[1] && u[2] == t[2];
  }

  // A character escaped as the octets of its UTF-8 form is read back if and only if it is ASCII:
  // the octets are put side by side, not decoded.
  lemma EscapeReadBack(c: char, s: string, rest: string)
    requires Spells(s, Encoded(c))
    ensures UriEscape(s + rest) == Ok(Escape(c, |s|)) <==> Ascii(c)
    ensures 0x80 <= c as int < 0x800 ==>
              var code := 0xC080 + c as int / 0x40 * 0x100 + c as int % 0x40;
              UriEscape(s + rest) == if IsScalarValue(code) then Ok(Escape(code as char, |s|)) else Err(BadCodePoint)
    ensures c as int >= 0x800 ==> UriEscape(s + rest) == Err(BadCodePoint)
  {
    var bs := Encoded(c);
    var text := s + rest;
    assert Drop(text, 0) == text;
    OctetThere(s, rest, bs, 0);
    if |bs| > 1 {
      OctetThere(s, rest, bs, 1);
      hide Octet, Drop, Spells, Encoded, UriEscape;
      if |bs| == 2 {
        EscapeOfTwo(text, bs[0], bs[1]);
        TwoOctets(c);
      } else {
        OctetThere(s, rest, bs, 2);
        if |bs| == 4 {
          OctetThere(s, rest, bs, 3);
        }
        MoreOctets(c);
        EscapeOfMore(text, bs);
      }
    }
  }

  lemma TwoOctets(c: char)
    requires |Encoded(c)| == 2
    ensures 0x80 <= c as int < 0x800 && Encoded(c) == [0xC0 + c as int / 0x40, 0x80 + c as int % 0x40]
    ensures var code := 0xC080 + c as int / 0x40 * 0x100 + c as int % 0x40; code != c as int
  {
  }

  lemma MoreOctets(c: char)
    requires |Encoded(c)| > 2
    ensures c as int >= 0x800 && Width(Encoded(c)[0]) == |Encoded(c)| && Encoded(c)[0] >= 0xE0
    ensures forall i | 1 <= i < |Encoded(c)| :: 0x80 <= Encoded(c)[i] < 0xC0
  {
  }

  lemma EscapeOfTwo(text: string, a: nat, b: nat)
    requires Octet(text) == Some(a) && Octet(Drop(text, 3)) == Some(b) && 0xC0 <= a < 0xE0 && 0x80 <= b < 0xC0
    ensures var code := 0x100 * a + b;
            UriEscape(text) == if IsScalarValue(code) then Ok(Escape(code as char, 6)) else Err(BadCodePoint)
  {
    hide Octet, IsScalarValue, Trailing;
    TrailingStep(Drop(text, 3), 1, a);
    TrailingStep(Drop(Drop(text, 3), 3), 0, 0x100 * a + b);
  }

  // More than two octets side by side are no code point.
  lemma EscapeOfMore(text: string, bs: seq<Byte>)
    requires 2 < |bs| <= 4 && Width(bs[0]) == |bs| && bs[0] >= 0xE0 && Octet(text) == Some(bs[0])
    requires forall i | 1 <= i < |bs| :: 0x80 <= bs[i] < 0xC0
    requires Octet(Drop(text, 3)) == Some(bs[1]) && Octet(Drop(text, 6)) == Some(bs[2])
    requires |bs| == 4 ==> Octet(Drop(text, 9)) == Some(bs[3])
    ensures UriEscape(text) == Err(BadCodePoint)
  {
    assert Drop(Drop(text, 3), 3) == Drop(text, 6) && Drop(Drop(text, 6), 3) == Drop(text, 9) && Drop(Drop(text, 9), 3) == Drop(text, 12);
    hide Octet, Drop, Trailing;
    var n: nat, a: nat := |bs|, bs[0];
    var two: nat := 0x100 * a + bs[1];
    var three: nat := 0x100 * two + bs[2];
    TrailingStep(Drop(text, 3), n - 1, bs[0]);
    TrailingStep(Drop(text, 6), n - 2, two);
    TrailingStep(Drop(text, 9), n - 3, three);
    if n == 4 {
      TrailingStep(Drop(text, 12), 0, 0x100 * three + bs[3]);
    }
  }

  // The run over an escaped suffix, up to the first character that no URI has.
  lemma {:induction false} RunUnescapes(c: Cursor, a: string, rest: string, tag: bool, acc: string)
    requires c.s == EscapedTag(a) + rest && AllSpellable(a) && !InRun(Peek(rest), tag)
    ensures UriRun(c, tag, acc) == Ok(Read(acc + a, Cursor(rest, c.col + |EscapedTag(a)|, c.line)))
    decreases |a|
  {
    hide UriEscape, Spellable, EscapedChar, InRun;
    if a == "" {
      assert c.s == rest && acc + a == acc;
    } else {
      var more := EscapedTag(a[1..]) + rest;
      var d := Cursor(more, c.col + |EscapedChar(a[0])|, c.line);
      assert EscapedTag(a) == EscapedChar(a[0]) + EscapedTag(a[1..]);
      assert c.s == EscapedChar(a[0]) + more;
      OneUnescaped(c, a[0], more, tag, acc);
      hide UriRun;
      RunUnescapes(d, a[1..], rest, tag, acc + [a[0]]);
      assert (acc + [a[0]]) + a[1..] == acc + a;
    }
  }

  lemma OneUnescaped(c: Cursor, x: char, rest: string, tag: bool, acc: string)
    requires c.s == EscapedChar(x) + rest && Spellable(x)
    ensures UriRun(c, tag, acc) == UriRun(Cursor(rest, c.col + |EscapedChar(x)|, c.line), tag, acc + [x])
  {
    if MustEscape(x) {
      assert Octet(c.s) == Some(x as int);
      assert c.s[3..] == rest;
    } else {
      assert c.s[1..] == rest;
    }
  }

  // ------------------------------------------------------------------ a tag comes back

  // The primary handle, or one with a name of letters, digits, `-` and `_`, or of nothing.
  predicate IsHandle(h: string) {
    h == "!" || (IsNamed(h) && AllAlpha(h[1..|h| - 1]))
  }

  // What may stand behind a tag.
  predicate Separated(rest: string, flowLevel: nat) {
    IsBlankOrBreakz(Peek(rest)) || (flowLevel > 0 && IsFlow(Peek(rest)))
  }

  // The tags whose text says what they are. Nothing is escaped in a verbatim tag.
  predicate Writable(handle: string, suffix: string) {
    if handle == "" then suffix == "!" || (AllUri(suffix) && '%' !in suffix)
    else AllSpellable(suffix) && suffix != ""
  }

  ghost predicate ComesBack(c: Cursor, handle: string, suffix: string, rest: string, flowLevel: nat) {
    ScanTag(c, flowLevel) == Ok(TagRead(handle, suffix, Cursor(rest, c.col + |RenderTag(handle, suffix)|, c.line)))
  }

  // Every tag, written by the emitter, is read back by the scanner if and only if its suffix is made
  // of the characters of URIs, and is not empty behind a handle.
  lemma RenderedTagComesBack(c: Cursor, handle: string, suffix: string, rest: string, flowLevel: nat)
    requires handle == "" || IsHandle(handle)
    requires c.s == RenderTag(handle, suffix) + rest && Separated(rest, flowLevel)
    ensures ComesBack(c, handle, suffix, rest, flowLevel) <==> Writable(handle, suffix)
  {
    hide ScanTag, ComesBack, UriRun, ScanParts, IsHandle, AllUri;
    if handle == "" && suffix == "!" {
      BangComesBack(c, rest, flowLevel);
    } else if handle == "" {
      VerbatimComesBack(c, suffix, rest, flowLevel);
    } else {
      ShorthandComesBack(c, handle, suffix, rest, flowLevel);
    }
  }

  lemma BangComesBack(c: Cursor, rest: string, flowLevel: nat)
    requires c.s == "!" + rest && Separated(rest, flowLevel)
    ensures ComesBack(c, "", "!", rest, flowLevel)
  {
    hide ScanParts;
    assert EscapedTag("") + rest == rest;
    PrimaryRead(c, "", rest);
  }

  lemma UmlautIsNotSpelled()
    ensures !Writable("!", "M\U{F6}we") && IsHandle("!") && Separated("\n", 0)
  {
    var name := "M\U{F6}we";
    assert name[1] in name;
  }

  // A name outside ASCII is written as it is, and refused.
  lemma UmlautIsRefused()
    ensures var c := Cursor(RenderTag("!", "M\U{F6}we") + "\n", 0, 1);
            !ComesBack(c, "!", "M\U{F6}we", "\n", 0)
  {
    UmlautIsNotSpelled();
    hide *;
    RenderedTagComesBack(Cursor(RenderTag("!", "M\U{F6}we") + "\n", 0, 1), "!", "M\U{F6}we", "\n", 0);
  }

  // As far as the characters of URIs go without an escape.
  function Smooth(s: string): (n: nat)
    ensures n <= |s| && AllUri(s[..n]) && '%' !in s[..n]
    ensures n < |s| ==> !IsUriChar(s[n]) || s[n] == '%'
  {
    if s == "" || !IsUriChar(s[0]) || s[0] == '%' then 0
    else
      assert forall n | 1 <= n <= |s| :: s[..n] == [s[0]] + s[1..][..n - 1];
      1 + Smooth(s[1..])
  }

  // As far as a suffix can be written.
  function Spelled(s: string): (n: nat)
    ensures n <= |s| && AllSpellable(s[..n]) && (n < |s| ==> !Spellable(s[n]))
  {
    if s == "" || !Spellable(s[0]) then 0
    else
      assert forall n | 1 <= n <= |s| :: s[..n] == [s[0]] + s[1..][..n - 1];
      1 + Spelled(s[1..])
  }

  lemma EscapeInRun(s: string, k: nat, tag: bool)
    requires UriEscape(s).Ok? && k < UriEscape(s).value.len
    ensures InRun(s[k], tag)
  {
    var b := Octet(s).value;
    var n := Width(b);
    hide Octet, IsScalarValue;
    if k < 3 {
      OctetInRun(s, k, tag);
    } else {
      TrailingInRun(Drop(s, 3), n - 1, b, k - 3, tag);
    }
  }

  lemma OctetInRun(s: string, k: nat, tag: bool)
    requires Octet(s).Some? && k < 3
    ensures InRun(s[k], tag)
  {
  }

  lemma {:induction false} TrailingInRun(s: string, n: nat, code: nat, k: nat, tag: bool)
    requires Trailing(s, n, code).Ok? && k < 3 * n
    ensures InRun(s[k], tag)
  {
    if k < 3 {
      OctetInRun(s, k, tag);
    } else {
      TrailingInRun(Drop(s, 3), n - 1, 0x100 * code + Octet(s).value, k - 3, tag);
    }
  }

  // No run yields more characters than it passes.
  lemma {:induction false} RunBound(c: Cursor, n: nat, tag: bool, acc: string)
    requires n < |c.s| && !InRun(c.s[n], tag)
    ensures UriRun(c, tag, acc).Ok? ==> |UriRun(c, tag, acc).value.value| <= |acc| + n
    decreases |c.s|
  {
    hide InRun, UriEscape, Smooth;
    if n > 0 && InRun(Peek(c.s), tag) {
      if Peek(c.s) == '%' {
        var e := UriEscape(c.s);
        if e.Ok? {
          if n < e.value.len {
            EscapeInRun(c.s, n, tag);
          }
          assert Skip(c, e.value.len).s[n - e.value.len] == c.s[n];
          RunBound(Skip(c, e.value.len), n - e.value.len, tag, acc + [e.value.c]);
        }
      } else {
        RunBound(Skip(c, 1), n - 1, tag, acc + [Peek(c.s)]);
      }
    }
  }

  // The run over a verbatim tag gives all of it, or something else.
  lemma VerbatimRun(d: Cursor, suffix: string, rest: string)
    requires d.s == suffix + (">" + rest)
    ensures var run := UriRun(d, false, "");
            if AllUri(suffix) && '%' !in suffix then run == Ok(Read(suffix, Cursor(">" + rest, d.col + |suffix|, d.line)))
            else run.Ok? ==> run.value.value != suffix
  {
    var k := Smooth(suffix);
    var a, b := suffix[..k], suffix[k..];
    assert suffix == a + b;
    assert d.s == a + (b + (">" + rest));
    hide UriRun, IsUriChar, AllUri;
    if k == |suffix| {
      assert a == suffix && b + (">" + rest) == ">" + rest;
      Angle();
      SmoothRun(d, a, ">" + rest);
    } else {
      assert suffix[k] == b[0];
      RoughRun(d, a, b, rest);
      if AllUri(suffix) && '%' !in suffix {
        NotAllUri(suffix, k);
      }
    }
  }

  // Where an escape, or what no URI has, stands in it, a run is shorter than its text.
  lemma RoughRun(d: Cursor, a: string, b: string, rest: string)
    requires d.s == a + (b + (">" + rest)) && AllUri(a) && '%' !in a && b != "" && (!IsUriChar(b[0]) || b[0] == '%')
    ensures UriRun(d, false, "").Ok? ==> |UriRun(d, false, "").value.value| < |a| + |b|
  {
    var tail := b + (">" + rest);
    hide UriRun, IsUriChar, AllUri;
    if b[0] == '%' {
      AllAre(a);
      RunPasses(d, a, tail, false, "");
      assert "" + a == a;
      PercentRun(Cursor(tail, d.col + |a|, d.line), a, b, rest);
    } else {
      SmoothRun(d, a, tail);
    }
  }

  lemma NotAllUri(s: string, k: nat)
    requires k < |s| && !IsUriChar(s[k])
    ensures !AllUri(s)
  {
    assert s[k] in s;
  }

  lemma AllAre(s: string)
    requires AllUri(s)
    ensures forall x | x in s :: IsUriChar(x)
  {
  }

  lemma SmoothRun(d: Cursor, a: string, tail: string)
    requires d.s == a + tail && AllUri(a) && '%' !in a && !IsUriChar(Peek(tail))
    ensures UriRun(d, false, "") == Ok(Read(a, Cursor(tail, d.col + |a|, d.line)))
  {
    hide UriRun, IsUriChar;
    RunReads(d, a, tail, false, "");
    assert "" + a == a;
  }

  lemma Angle()
    ensures !InRun('>', false) && !IsUriChar('>')
  {
  }

  // An escape makes a run shorter than its text.
  lemma PercentRun(e: Cursor, a: string, b: string, rest: string)
    requires e.s == b + (">" + rest) && b != "" && b[0] == '%'
    ensures UriRun(e, false, a).Ok? ==> |UriRun(e, false, a).value.value| < |a| + |b|
  {
    var esc := UriEscape(e.s);
    assert e.s[|b|] == '>';
    Angle();
    if esc.Ok? {
      if |b| < esc.value.len {
        EscapeInRun(e.s, |b|, false);
      }
      hide UriEscape, IsUriChar;
      assert Skip(e, esc.value.len).s[|b| - esc.value.len] == '>';
      RunBound(Skip(e, esc.value.len), |b| - esc.value.len, false, a + [esc.value.c]);
    }
  }

  lemma VerbatimComesBack(c: Cursor, suffix: string, rest: string, flowLevel: nat)
    requires suffix != "!" && c.s == RenderTag("", suffix) + rest && Separated(rest, flowLevel)
    ensures ComesBack(c, "", suffix, rest, flowLevel) <==> Writable("", suffix)
  {
    hide UriRun, AllUri;
    assert c.s == "!<" + (suffix + (">" + rest));
    assert c.s[2..] == suffix + (">" + rest);
    VerbatimRun(Skip(c, 2), suffix, rest);
    assert (">" + rest)[1..] == rest;
  }

  lemma {:induction false} EscapedJoin(a: string, b: string)
    ensures EscapedTag(a + b) == EscapedTag(a) + EscapedTag(b)
  {
    if a == "" {
      assert a + b == b;
    } else {
      assert (a + b)[1..] == a[1..] + b;
      EscapedJoin(a[1..], b);
    }
  }

  // The letters a suffix begins with are not escaped.
  lemma {:induction false} LettersAhead(a: string) returns (x: string, y: string)
    requires AllSpellable(a)
    ensures a == x + y && EscapedTag(a) == x + EscapedTag(y) && AllAlpha(x) && AllSpellable(y)
    ensures y != "" ==> EscapedTag(y) != "" && !IsAlpha(EscapedTag(y)[0]) && EscapedTag(y)[0] != '!'
  {
    x, y := "", a;
    if a == "" {
      assert x + y == a && EscapedTag(a) == x + EscapedTag(y);
    } else if IsAlpha(a[0]) {
      LetterOrNot(a[0]);
      x, y := LettersAhead(a[1..]);
      LetterInFront(a, x, y, EscapedTag(y));
      x := [a[0]] + x;
    } else {
      LetterOrNot(a[0]);
      assert x + y == a && x + EscapedTag(y) == EscapedTag(a);
    }
  }

  lemma LetterInFront(a: string, x: string, y: string, e: string)
    requires a != "" && IsAlpha(a[0]) && EscapedChar(a[0]) == [a[0]] && a[1..] == x + y && EscapedTag(a[1..]) == x + e && AllAlpha(x)
    ensures a == ([a[0]] + x) + y && EscapedTag(a) == ([a[0]] + x) + e && AllAlpha([a[0]] + x)
  {
    hide EscapedChar, IsAlpha;
    assert [a[0]] + (x + y) == a;
    assert [a[0]] + (x + e) == ([a[0]] + x) + e;
  }

  lemma LetterOrNot(x: char)
    ensures IsAlpha(x) ==> EscapedChar(x) == [x]
    ensures !IsAlpha(x) ==> !IsAlpha(EscapedChar(x)[0]) && EscapedChar(x)[0] != '!'
  {
  }

  lemma {:induction false} AlphaUpTo(body: string, rest: string)
    requires AllAlpha(body) && !IsAlpha(Peek(rest))
    ensures LeadingAlpha(body + rest) == |body|
  {
    if body == "" {
      assert body + rest == rest;
    } else {
      assert (body + rest)[1..] == body[1..] + rest;
      AlphaUpTo(body[1..], rest);
    }
  }

  lemma ShorthandComesBack(c: Cursor, handle: string, suffix: string, rest: string, flowLevel: nat)
    requires IsHandle(handle) && c.s == handle + EscapedTag(suffix) + rest && Separated(rest, flowLevel)
    ensures ComesBack(c, handle, suffix, rest, flowLevel) <==> Writable(handle, suffix)
  {
    var k := Spelled(suffix);
    var a, b := suffix[..k], suffix[k..];
    hide ScanParts, EscapedTag, IsTagChar, Spellable, AllSpellable;
    if k < |suffix| {
      NotAllSpellable(suffix, k);
    }
    CutAt(handle, suffix, k, rest);
    StopsThere(b, rest, flowLevel);
    var tail := EscapedTag(b) + rest;
    assert c.s == handle + (EscapedTag(a) + tail);
    ShorthandRead(c, handle, a, tail);
    hide *;
    ShorthandJudged(c, handle, suffix, a, tail, rest, flowLevel);
  }

  lemma ShorthandJudged(c: Cursor, handle: string, suffix: string, a: string, tail: string, rest: string, flowLevel: nat)
    requires IsHandle(handle) && Separated(rest, flowLevel)
    requires if AllSpellable(suffix) then a == suffix && tail == rest else a != suffix
    requires a != "" ==> ScanParts(c) == Ok(TagRead(handle, a, Cursor(tail, c.col + |handle| + |EscapedTag(a)|, c.line)))
    requires a == "" && ScanParts(c).Ok? ==> ScanParts(c).value.handle == ""
    ensures ComesBack(c, handle, suffix, rest, flowLevel) <==> Writable(handle, suffix)
  {
    hide ScanParts, EscapedTag, AllSpellable, Separated;
    if ScanParts(c).Ok? {
      TagEnds(c, ScanParts(c).value, flowLevel);
    } else {
      TagFails(c, flowLevel);
    }
    hide ScanTag;
  }

  // What is in front of the tail is read: all of it, or the tag is another.
  lemma ShorthandRead(c: Cursor, handle: string, a: string, tail: string)
    requires IsHandle(handle) && AllSpellable(a) && !IsTagChar(Peek(tail)) && Peek(tail) != '!'
    requires c.s == handle + (EscapedTag(a) + tail)
    ensures a != "" ==> ScanParts(c) == Ok(TagRead(handle, a, Cursor(tail, c.col + |handle| + |EscapedTag(a)|, c.line)))
    ensures a == "" && ScanParts(c).Ok? ==> ScanParts(c).value.handle == ""
  {
    hide ScanParts, EscapedTag, IsTagChar, AllSpellable;
    if a != "" {
      FirstEscaped(a, tail);
    }
    if handle == "!" {
      PrimaryRead(c, a, tail);
    } else {
      NamedRead(c, handle, a, tail);
    }
  }

  lemma FirstEscaped(a: string, tail: string)
    requires a != "" && AllSpellable(a)
    ensures Peek(EscapedTag(a) + tail) != '<'
  {
    assert Spellable(a[0]);
    assert (EscapedTag(a) + tail)[0] == EscapedChar(a[0])[0];
  }

  lemma TagEnds(c: Cursor, tag: TagRead, flowLevel: nat)
    requires ScanParts(c) == Ok(tag)
    ensures ScanTag(c, flowLevel) == if Separated(tag.end.s, flowLevel) then Ok(tag) else Err(NotSeparated)
  {
    hide ScanParts;
  }

  lemma TagFails(c: Cursor, flowLevel: nat)
    requires ScanParts(c).Err?
    ensures ScanTag(c, flowLevel).Err?
  {
    hide ScanParts;
  }

  lemma NotAllSpellable(s: string, k: nat)
    requires k < |s| && !Spellable(s[k])
    ensures !AllSpellable(s)
  {
    assert s[k] in s;
  }

  lemma CutAt(handle: string, suffix: string, k: nat, rest: string)
    requires k <= |suffix|
    ensures handle + EscapedTag(suffix) + rest == handle + (EscapedTag(suffix[..k]) + (EscapedTag(suffix[k..]) + rest))
    ensures k == |suffix| ==> suffix[..k] == suffix && suffix[k..] == ""
    ensures |EscapedTag(suffix)| == |EscapedTag(suffix[..k])| + |EscapedTag(suffix[k..])|
  {
    var a, b := suffix[..k], suffix[k..];
    assert suffix == a + b;
    EscapedJoin(a, b);
    hide EscapedTag;
    assert EscapedTag(suffix) + rest == EscapedTag(a) + (EscapedTag(b) + rest);
  }

  // No run goes on where the suffix holds what no URI has, or where it ends.
  lemma StopsThere(b: string, rest: string, flowLevel: nat)
    requires (b != "" ==> !Spellable(b[0])) && Separated(rest, flowLevel)
    ensures var tail := EscapedTag(b) + rest;
            !IsTagChar(Peek(tail)) && Peek(tail) != '!' && (b == "" ==> tail == rest)
  {
    if b == "" {
      NothingEscaped();
      hide EscapedTag;
      assert EscapedTag(b) + rest == rest;
      NoRun(Peek(rest));
    } else {
      FirstOf(b, rest);
      NoRun(b[0]);
    }
  }

  lemma NoRun(x: char)
    ensures IsBlankOrBreakz(x) || IsFlow(x) ==> !IsTagChar(x) && x != '!'
    ensures !Spellable(x) ==> !IsTagChar(x) && x != '!' && EscapedChar(x) == [x]
  {
  }

  lemma FirstOf(b: string, rest: string)
    requires b != ""
    ensures Peek(EscapedTag(b) + rest) == EscapedChar(b[0])[0]
  {
    hide EscapedChar;
    assert EscapedTag(b) == EscapedChar(b[0]) + EscapedTag(b[1..]);
  }

  lemma PrimaryRead(c: Cursor, a: string, tail: string)
    requires AllSpellable(a) && !IsTagChar(Peek(tail)) && Peek(tail) != '!' && c.s == "!" + (EscapedTag(a) + tail)
    ensures var end := Cursor(tail, c.col + 1 + |EscapedTag(a)|, c.line);
            if Peek(EscapedTag(a) + tail) == '<' then ScanParts(c).Ok? ==> ScanParts(c).value.handle == ""
            else ScanParts(c) == Ok(if a == "" then TagRead("", "!", end) else TagRead("!", a, end))
  {
    var text := EscapedTag(a) + tail;
    assert c.s[1..] == text;
    hide UriRun, IsTagChar, AllSpellable, EscapedTag, ScanParts;
    if Peek(text) == '<' {
      AngleParts(c);
    } else {
      PrimaryLetters(c, a, tail);
    }
  }

  lemma AngleParts(c: Cursor)
    requires c.s != "" && Peek(c.s[1..]) == '<'
    ensures ScanParts(c).Ok? ==> ScanParts(c).value.handle == ""
  {
    hide UriRun;
  }

  lemma PrimaryLetters(c: Cursor, a: string, tail: string)
    requires AllSpellable(a) && !IsTagChar(Peek(tail)) && Peek(tail) != '!'
    requires c.s == "!" + (EscapedTag(a) + tail) && Peek(EscapedTag(a) + tail) != '<'
    ensures var end := Cursor(tail, c.col + 1 + |EscapedTag(a)|, c.line);
            ScanParts(c) == Ok(if a == "" then TagRead("", "!", end) else TagRead("!", a, end))
  {
    AlphaIsTag(Peek(tail));
    hide UriRun, IsTagChar, IsAlpha, AllSpellable, EscapedTag, ScanParts, LeadingAlpha;
    var x, y := LettersAhead(a);
    var more := EscapedTag(y) + tail;
    assert c.s == "!" + (x + more);
    assert c.s[1..] == x + more;
    assert y == "" ==> EscapedTag(y) == "" by { NothingEscaped(); }
    assert y == "" ==> more == tail;
    AlphaUpTo(x, more);
    var d := Cursor(more, c.col + 1 + |x|, c.line);
    RunUnescapes(d, y, tail, true, x);
    PrimaryParts(c, x, more, a, Cursor(tail, c.col + 1 + |EscapedTag(a)|, c.line));
  }

  lemma NothingEscaped()
    ensures EscapedTag("") == ""
  {
  }

  lemma PrimaryParts(c: Cursor, x: string, more: string, a: string, e: Cursor)
    requires c.s == "!" + (x + more) && LeadingAlpha(x + more) == |x| && AllAlpha(x)
    requires Peek(x + more) != '<' && Peek(more) != '!'
    requires UriRun(Cursor(more, c.col + 1 + |x|, c.line), true, x) == Ok(Read(a, e))
    ensures ScanParts(c) == Ok(if a == "" then TagRead("", "!", e) else TagRead("!", a, e))
  {
    hide UriRun, LeadingAlpha;
    var n := |x|;
    assert c.s[1..] == x + more;
    assert c.s[n + 1..] == more;
    assert c.s[..n + 1] == "!" + x;
    var head := "!" + x;
    assert n > 0 ==> head[n] == x[n - 1] && IsAlpha(x[n - 1]);
    assert !IsNamed(head);
    assert head[1..] == x;
    assert n == 0 ==> x == "";
  }

  lemma AlphaIsTag(x: char)
    ensures IsAlpha(x) ==> IsTagChar(x)
  {
  }

  lemma NamedRead(c: Cursor, handle: string, a: string, tail: string)
    requires IsNamed(handle) && AllAlpha(handle[1..|handle| - 1])
    requires AllSpellable(a) && !IsTagChar(Peek(tail)) && c.s == handle + (EscapedTag(a) + tail)
    ensures ScanParts(c) == if a == "" then Err(ExpectedUri)
                            else Ok(TagRead(handle, a, Cursor(tail, c.col + |handle| + |EscapedTag(a)|, c.line)))
  {
    hide UriRun, IsTagChar;
    var body := handle[1..|handle| - 1];
    var text := EscapedTag(a) + tail;
    assert c.s[1..] == body + (['!'] + text);
    AlphaUpTo(body, ['!'] + text);
    assert c.s[..|handle|] == handle;
    assert c.s[|handle|..] == text;
    RunUnescapes(Skip(c, |handle|), a, tail, true, "");
    assert "" + a == a;
  }

  // ------------------------------------------------------------------ a line comes back

  // The prefixes that a `%TAG` line can say: nothing is escaped there.
  predicate PlainPrefix(p: string) {
    p != "" && (p[0] == '!' || IsTagChar(p[0])) && AllUri(p) && '%' !in p
  }

  // What the emitter writes behind `%TAG`.
  function RenderDirective(handle: string, prefix: string): string {
    " " + handle + " " + prefix
  }

  lemma DirectiveComesBack(c: Cursor, handle: string, prefix: string, rest: string)
    requires IsHandle(handle) && PlainPrefix(prefix) && IsBlankOrBreakz(Peek(rest))
    requires c.s == RenderDirective(handle, prefix) + rest
    ensures var end := Cursor(rest, c.col + |RenderDirective(handle, prefix)|, c.line);
            ScanDirective(c) == Ok(TagRead(handle, prefix, end))
  {
    LineText(handle, prefix, rest);
    hide *;
    LineSteps(c, handle, prefix, rest, handle + ([' '] + (prefix + rest)), [' '] + (prefix + rest), prefix + rest);
  }

  lemma LineSteps(c: Cursor, handle: string, prefix: string, rest: string, all: string, more: string, last: string)
    requires IsHandle(handle) && PlainPrefix(prefix) && IsBlankOrBreakz(Peek(rest))
    requires c.s == [' '] + all && all == handle + more && more == [' '] + last && last == prefix + rest
    requires !IsBlank(Peek(all)) && !IsBlank(Peek(last)) && Peek(more) == ' '
    ensures ScanDirective(c) == Ok(TagRead(handle, prefix, Cursor(rest, c.col + 2 + |handle| + |prefix|, c.line)))
  {
    hide *;
    var b := Cursor(all, c.col + 1, c.line);
    var a := Cursor(more, c.col + 1 + |handle|, c.line);
    OneSpace(c, all);
    LineHandle(b, handle, more);
    OneSpace(a, last);
    LinePrefix(Cursor(last, c.col + 2 + |handle|, c.line), prefix, rest);
    LineRead(c, b, a, handle, prefix, Cursor(rest, c.col + 2 + |handle| + |prefix|, c.line));
  }

  lemma LineText(handle: string, prefix: string, rest: string)
    requires IsHandle(handle) && PlainPrefix(prefix)
    ensures RenderDirective(handle, prefix) + rest == [' '] + (handle + ([' '] + (prefix + rest)))
    ensures |RenderDirective(handle, prefix)| == 2 + |handle| + |prefix|
    ensures !IsBlank(Peek(prefix + rest)) && !IsBlank(Peek(handle + ([' '] + (prefix + rest))))
    ensures Peek([' '] + (prefix + rest)) == ' '
  {
    NoBlank(prefix[0]);
    hide IsUriChar, AllUri, IsTagChar;
    assert (prefix + rest)[0] == prefix[0];
    assert (handle + ([' '] + (prefix + rest)))[0] == '!';
  }

  lemma OneSpace(c: Cursor, s: string)
    requires c.s == [' '] + s && !IsBlank(Peek(s))
    ensures Skip(c, LeadingWs(c.s, true)) == Cursor(s, c.col + 1, c.line)
  {
    assert c.s[1..] == s;
  }

  lemma LineRead(c: Cursor, b: Cursor, a: Cursor, handle: string, prefix: string, e: Cursor)
    requires Skip(c, LeadingWs(c.s, true)) == b && ScanHandle(b, true) == Ok(Read(handle, a))
    requires ScanPrefix(Skip(a, LeadingWs(a.s, true))) == Ok(Read(prefix, e)) && IsBlankOrBreakz(Peek(e.s))
    ensures ScanDirective(c) == Ok(TagRead(handle, prefix, e))
  {
    hide Skip, LeadingWs, ScanHandle, ScanPrefix;
  }

  lemma NoBlank(x: char)
    requires x == '!' || IsTagChar(x)
    ensures !IsBlank(x)
  {
  }

  lemma LineHandle(c: Cursor, handle: string, more: string)
    requires IsHandle(handle) && c.s == handle + more && Peek(more) == ' '
    ensures ScanHandle(c, true) == Ok(Read(handle, Cursor(more, c.col + |handle|, c.line)))
  {
    if handle == "!" {
      assert c.s[1..] == more;
      assert c.s[..1] == handle;
    } else {
      var body := handle[1..|handle| - 1];
      assert c.s[1..] == body + (['!'] + more);
      AlphaUpTo(body, ['!'] + more);
      assert c.s[..|handle|] == handle;
      assert c.s[|handle|..] == more;
    }
  }

  lemma LinePrefix(d: Cursor, prefix: string, rest: string)
    requires PlainPrefix(prefix) && IsBlankOrBreakz(Peek(rest)) && d.s == prefix + rest
    ensures ScanPrefix(d) == Ok(Read(prefix, Cursor(rest, d.col + |prefix|, d.line)))
  {
    assert !IsUriChar(Peek(rest));
    assert d.s[1..] == prefix[1..] + rest;
    RunReads(Skip(d, 1), prefix[1..], rest, false, [prefix[0]]);
    assert [prefix[0]] + prefix[1..] == prefix;
    hide IsUriChar, UriRun;
  }
}
