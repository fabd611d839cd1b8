// The scanner's scalar loops, over the fields they update
// (crates/yamluna-scanner/src/scanner.rs:617-724, 1008-1035, 1735-2509).
// Each method computes the function of the unread text that specifies it.
module ScalarScanner {
  import opened CharTraits
  import opened Input
  import opened Results
  import opened ScalarEmitter
  import opened FlowScan
  import opened PlainScan
  import opened BlockScan
  import Hex

  // `BUFFER_LEN` of crates/yamluna-scanner/src/input/str.rs: how far the scanner looks ahead.
  const BUFFER_LEN: nat := 128

  class Scanner {
    var buffer: string
    var col: nat
    var line: nat
    var indent: int
    var flowLevel: nat
    var leadingWhitespace: bool
    var bufLeadingBreak: string
    var bufTrailingBreaks: string
    var bufWhitespaces: string

    constructor (text: string, col: nat, line: nat, indent: int, flowLevel: nat, leadingWhitespace: bool)
      ensures At() == Cursor(text, col, line)
      ensures this.indent == indent && this.flowLevel == flowLevel
      ensures this.leadingWhitespace == leadingWhitespace
    {
      buffer, this.col, this.line := text, col, line;
      this.indent, this.flowLevel, this.leadingWhitespace := indent, flowLevel, leadingWhitespace;
      bufLeadingBreak, bufTrailingBreaks, bufWhitespaces := [], [], [];
    }

    function At(): Cursor
      reads this`buffer, this`col, this`line
    {
      Cursor(buffer, col, line)
    }

    // ---------------------------------------------------------------- moving on

    method SkipBlank()
      modifies this`buffer, this`col
      ensures At() == Skip(old(At()), 1)
    {
      buffer := Drop(buffer, 1);
      col := col + 1;
    }

    method SkipNNonBlank(count: nat)
      modifies this`buffer, this`col, this`leadingWhitespace
      ensures At() == Skip(old(At()), count)
      ensures !leadingWhitespace
    {
      buffer := Drop(buffer, count);
      col := col + count;
      leadingWhitespace := false;
    }

    method SkipNl()
      modifies this`buffer, this`col, this`line, this`leadingWhitespace
      ensures At() == Cursor(Drop(old(buffer), 1), 0, old(line) + 1)
      ensures leadingWhitespace
    {
      buffer := Drop(buffer, 1);
      col := 0;
      line := line + 1;
      leadingWhitespace := true;
    }

    // `skip_break`, and `skip_linebreak` where a break is known to follow.
    method SkipOneBreak()
      requires IsBreak(Peek(buffer))
      modifies this`buffer, this`col, this`line, this`leadingWhitespace
      ensures At() == SkipBreak(old(At()))
      ensures |buffer| < old(|buffer|) && leadingWhitespace
    {
      if Peek(buffer) == '\r' && PeekNth(buffer, 1) == '\n' {
        SkipBlank();
      }
      SkipNl();
    }

    method SkipToEol()
      returns (ok: bool)
      modifies this`buffer, this`col
      ensures var eol := SkipWsToEol(old(buffer), true);
              ok == eol.ok && At() == Skip(old(At()), eol.count)
    {
      var eol := SkipWsToEol(buffer, true);
      buffer := Drop(buffer, eol.count);
      col := col + eol.count;
      ok := eol.ok;
    }

    // ---------------------------------------------------------------- quoted scalars

    // What is left to do once a word of a quoted scalar has been read.
    static function Resume(c: Cursor, single: bool, indent: int, acc: string, lead: bool): ScanResult {
      if Peek(c.s) == (if single then '\'' else '"') then Ok(Scanned(acc, c))
      else FlowBlanks(c, single, indent, acc, lead, [], [], [])
    }

    method ResolveFlowScalarEscapeSequence() returns (r: Result<char, ScanError>)
      requires Peek(buffer) == '\\'
      modifies this`buffer, this`col, this`leadingWhitespace
      ensures match ResolveEscape(old(buffer))
              case Err(e) => r == Err(e)
              case Ok(e) => r == Ok(e.c) && At() == Skip(old(At()), e.len) && |buffer| < old(|buffer|)
    {
      var e := PeekNth(buffer, 1);
      var named := NamedEscapeValue(e);
      var codeLength := CodeLength(e);
      if named.None? && codeLength == 0 {
        return Err(UnknownEscape);
      }
      SkipNNonBlank(2);
      if named.Some? {
        return Ok(named.value);
      }
      var value := 0;
      for i := 0 to codeLength
        invariant |old(buffer)| >= 2 + i && buffer == old(buffer)[2..]
        invariant AllHex(old(buffer)[2..2 + i]) && value == Hex.Value(old(buffer)[2..2 + i])
      {
        var c := PeekNth(buffer, i);
        if !IsHex(c) {
          assert |old(buffer)| >= 2 + codeLength ==> old(buffer)[2..2 + codeLength][i] == c;
          return Err(ExpectedHex);
        }
        assert old(buffer)[2..2 + i + 1] == old(buffer)[2..2 + i] + [c];
        value := 16 * value + AsHex(c);
      }
      if !IsScalarValue(value) {
        return Err(InvalidCodePoint);
      }
      SkipNNonBlank(codeLength);
      r := Ok(value as char);
    }

    method ConsumeFlowScalarNonWhitespaceChars(single: bool, str: string)
      returns (r: Result<string, ScanError>, lead: bool)
      modifies this`buffer, this`col, this`line, this`leadingWhitespace
      ensures match r
              case Err(e) => FlowText(old(At()), single, indent, str) == Err(e)
              case Ok(acc) =>
                && FlowText(old(At()), single, indent, str) == Resume(At(), single, indent, acc, lead)
                && (buffer != old(buffer) ==> |buffer| < old(|buffer|))
                && (buffer == old(buffer) ==>
                      !lead && (IsBlankOrBreakz(Peek(buffer)) || Peek(buffer) == (if single then '\'' else '"')))
    {
      var acc := str;
      lead := false;
      while !IsBlankOrBreakz(Peek(buffer))
        invariant FlowText(old(At()), single, indent, str) == FlowText(At(), single, indent, acc)
        invariant (buffer == old(buffer) || |buffer| < old(|buffer|)) && !lead
        decreases |buffer|
      {
        var p := Peek(buffer);
        if single && p == '\'' {
          if PeekNth(buffer, 1) != '\'' {
            return Ok(acc), false;
          }
          acc := acc + ['\''];
          SkipNNonBlank(2);
        } else if !single && p == '"' {
          return Ok(acc), false;
        } else if !single && p == '\\' && IsBreak(PeekNth(buffer, 1)) {
          SkipNNonBlank(1);
          SkipOneBreak();
          return Ok(acc), true;
        } else if !single && p == '\\' {
          var c := ResolveFlowScalarEscapeSequence();
          if c.Err? {
            return Err(c.error), false;
          }
          acc := acc + [c.value];
        } else {
          acc := acc + [p];
          SkipNNonBlank(1);
        }
      }
      r := Ok(acc);
    }

    // Consumes white space and line breaks, and appends what they stand for.
    method ConsumeFlowBlanks(single: bool, str: string, lead: bool)
      returns (r: Result<string, ScanError>)
      modifies this`buffer, this`col, this`line, this`leadingWhitespace
      ensures match r
              case Err(e) => FlowBlanks(old(At()), single, indent, str, lead, [], [], []) == Err(e)
              case Ok(acc) =>
                && FlowBlanks(old(At()), single, indent, str, lead, [], [], []) == FlowLine(At(), single, indent, acc)
                && |buffer| <= old(|buffer|)
                && (IsBlankOrBreakz(Peek(old(buffer))) && !IsZ(Peek(old(buffer))) ==> |buffer| < old(|buffer|))
    {
      var leadingBlanks := lead;
      var leadingBreak, trailingBreaks, whitespaces := [], [], [];
      while IsBlank(Peek(buffer)) || IsBreak(Peek(buffer))
        invariant FlowBlanks(old(At()), single, indent, str, lead, [], [], [])
               == FlowBlanks(At(), single, indent, str, leadingBlanks, leadingBreak, trailingBreaks, whitespaces)
        invariant buffer == old(buffer) || |buffer| < old(|buffer|)
        decreases |buffer|
      {
        if IsBlank(Peek(buffer)) {
          if leadingBlanks {
            if Peek(buffer) == '\t' && col < indent {
              return Err(TabAsIndentation);
            }
          } else {
            whitespaces := whitespaces + [Peek(buffer)];
          }
          SkipBlank();
        } else if leadingBlanks {
          SkipOneBreak();
          trailingBreaks := trailingBreaks + ['\n'];
        } else {
          whitespaces := [];
          SkipOneBreak();
          leadingBreak := leadingBreak + ['\n'];
          leadingBlanks := true;
        }
      }
      if leadingBlanks {
        if leadingBreak == [] {
          r := Ok(str + trailingBreaks);
        } else if trailingBreaks == [] {
          r := Ok(str + [' ']);
        } else {
          r := Ok(str + trailingBreaks);
        }
      } else {
        r := Ok(str + whitespaces);
      }
    }

    // The outer loop: everything between the quotes.
    method ReadFlowScalarWords(single: bool) returns (r: Result<string, ScanError>)
      modifies this`buffer, this`col, this`line, this`leadingWhitespace
      ensures match FlowLine(old(At()), single, indent, [])
              case Err(e) => r == Err(e)
              case Ok(scanned) => r == Ok(scanned.value) && At() == scanned.end
    {
      var str := [];
      while true
        invariant FlowLine(old(At()), single, indent, []) == FlowLine(At(), single, indent, str)
        decreases |buffer|
      {
        if col == 0 && NextIsDocumentIndicator(buffer) {
          return Err(UnexpectedDocumentIndicator);
        }
        if IsZ(Peek(buffer)) {
          return Err(UnexpectedEndOfStream);
        }
        if col < indent {
          return Err(InvalidIndentation);
        }
        var word, lead := ConsumeFlowScalarNonWhitespaceChars(single, str);
        if word.Err? {
          return Err(word.error);
        }
        str := word.value;
        if Peek(buffer) == (if single then '\'' else '"') {
          return Ok(str);
        }
        var joined := ConsumeFlowBlanks(single, str, lead);
        if joined.Err? {
          return Err(joined.error);
        }
        str := joined.value;
      }
    }

    // The closing quote, and the check of what follows it.
    method FinishFlowScalar(str: string, startLine: nat) returns (r: Result<string, ScanError>)
      modifies this`buffer, this`col, this`leadingWhitespace
      ensures match FinishFlow(str, old(At()), startLine, flowLevel)
              case Err(e) => r == Err(e)
              case Ok(scanned) => r == Ok(scanned.value) && At() == scanned.end
    {
      SkipNNonBlank(1);
      var ok := SkipToEol();
      if !ok {
        return Err(CommentNeedsSpace);
      }
      var c := Peek(buffer);
      if (c == ',' || c == '}' || c == ']') && flowLevel > 0 {
        r := Ok(str);
      } else if IsBreakz(c) {
        r := Ok(str);
      } else if c == ':' && flowLevel == 0 && startLine == line {
        r := Ok(str);
      } else if c == ':' && flowLevel > 0 {
        r := Ok(str);
      } else {
        r := Err(InvalidTrailingContent);
      }
    }

    method ScanFlowScalar(single: bool) returns (r: Result<string, ScanError>)
      modifies this`buffer, this`col, this`line, this`leadingWhitespace
      ensures match ScanFlow(old(At()), single, indent, flowLevel)
              case Err(e) => r == Err(e)
              case Ok(scanned) => r == Ok(scanned.value) && At() == scanned.end
    {
      var startLine := line;
      SkipNNonBlank(1);
      r := ReadFlowScalarWords(single);
      if r.Ok? {
        r := FinishFlowScalar(r.value, startLine);
      }
    }

    // ---------------------------------------------------------------- plain scalars

    // The loop's variables as the specification bundles them.
    function PlainVars(str: string): PlainState
      reads this
    {
      PlainState(At(), leadingWhitespace, str, bufLeadingBreak, bufTrailingBreaks, bufWhitespaces)
    }

    // The white space collected so far becomes part of the value.
    method FlushPlainBuffers(str: string) returns (r: string)
      requires leadingWhitespace ==> bufWhitespaces == []
      requires !leadingWhitespace ==> bufLeadingBreak == [] && bufTrailingBreaks == []
      modifies this`leadingWhitespace, this`bufLeadingBreak, this`bufTrailingBreaks, this`bufWhitespaces
      ensures PlainVars(r) == Flushed(old(PlainVars(str)))
    {
      r := str;
      if leadingWhitespace {
        if bufLeadingBreak == [] {
          r := r + bufTrailingBreaks;
        } else if bufTrailingBreaks == [] {
          r := r + [' '];
        } else {
          r := r + bufTrailingBreaks;
        }
        bufTrailingBreaks := [];
        bufLeadingBreak := [];
        leadingWhitespace := false;
      } else if bufWhitespaces != [] {
        r := r + bufWhitespaces;
        bufWhitespaces := [];
      }
    }

    // A word, taken a look-ahead buffer at a time; the first character is known to be one.
    method ReadPlainWord(str: string) returns (r: string)
      requires InWord(buffer, flowLevel > 0)
      requires !leadingWhitespace
      modifies this`buffer, this`col, this`leadingWhitespace
      ensures PlainWord(old(PlainVars(str)), indent + 1, flowLevel > 0)
           == PlainAfter(PlainVars(r), indent + 1, flowLevel > 0)
      ensures |buffer| < old(|buffer|) && |r| > |str| && !leadingWhitespace
    {
      r := str + [Peek(buffer)];
      SkipNNonBlank(1);
      var end := false;
      while !end
        invariant PlainWord(old(PlainVars(str)), indent + 1, flowLevel > 0)
               == PlainWord(PlainVars(r), indent + 1, flowLevel > 0)
        invariant |buffer| < old(|buffer|) && |r| > |str| && !leadingWhitespace
        invariant end ==> !InWord(buffer, flowLevel > 0)
        decreases |buffer|, !end
      {
        var k := 0;
        ghost var before := |buffer|;
        while k < BUFFER_LEN - 1 && !end
          invariant 0 <= k <= BUFFER_LEN - 1
          invariant PlainWord(old(PlainVars(str)), indent + 1, flowLevel > 0)
                 == PlainWord(PlainVars(r), indent + 1, flowLevel > 0)
          invariant |buffer| + k <= before < old(|buffer|) && |r| > |str| && !leadingWhitespace
          invariant end ==> !InWord(buffer, flowLevel > 0)
          decreases BUFFER_LEN - k, !end
        {
          if IsBlankOrBreakz(Peek(buffer)) || !NextCanBePlainScalar(buffer, flowLevel > 0) {
            end := true;
          } else {
            r := r + [Peek(buffer)];
            SkipNNonBlank(1);
            k := k + 1;
          }
        }
      }
    }

    // White space of one buffer or the other, never of both.
    predicate PlainBuffersOk()
      reads this
    {
      && (leadingWhitespace ==> bufWhitespaces == [])
      && (!leadingWhitespace ==> bufLeadingBreak == [] && bufTrailingBreaks == [])
    }

    // One white space character or line break inside or behind a plain scalar.
    method ConsumePlainBlank(ghost str: string) returns (error: Option<ScanError>)
      requires PlainBuffersOk() && (IsBlank(Peek(buffer)) || IsBreak(Peek(buffer)))
      modifies this`buffer, this`col, this`line, this`leadingWhitespace
      modifies this`bufLeadingBreak, this`bufTrailingBreaks, this`bufWhitespaces
      ensures PlainBlanks(old(PlainVars(str)), indent + 1, flowLevel > 0)
           == if error.Some? then Err(error.value) else PlainBlanks(PlainVars(str), indent + 1, flowLevel > 0)
      ensures error.None? ==> PlainBuffersOk() && |buffer| < old(|buffer|)
    {
      error := None;
      if IsBlank(Peek(buffer)) {
        if !leadingWhitespace {
          bufWhitespaces := bufWhitespaces + [Peek(buffer)];
          SkipBlank();
        } else if col < indent + 1 && Peek(buffer) == '\t' {
          var ok := SkipToEol();
          if !ok {
            error := Some(CommentNeedsSpace);
          } else if !IsBreakz(Peek(buffer)) {
            error := Some(TabInPlainScalar);
          }
        } else {
          SkipBlank();
        }
      } else if leadingWhitespace {
        SkipOneBreak();
        bufTrailingBreaks := bufTrailingBreaks + ['\n'];
      } else {
        bufWhitespaces := [];
        SkipOneBreak();
        bufLeadingBreak := bufLeadingBreak + ['\n'];
      }
    }

    method ConsumePlainBlanks(ghost str: string) returns (error: Option<ScanError>)
      requires PlainBuffersOk()
      modifies this`buffer, this`col, this`line, this`leadingWhitespace
      modifies this`bufLeadingBreak, this`bufTrailingBreaks, this`bufWhitespaces
      ensures PlainBlanks(old(PlainVars(str)), indent + 1, flowLevel > 0)
           == if error.Some? then Err(error.value) else PlainBlanks(PlainVars(str), indent + 1, flowLevel > 0)
      ensures error.None? ==> PlainBuffersOk() && (buffer == old(buffer) || |buffer| < old(|buffer|))
      ensures error.None? ==> !IsBlank(Peek(buffer)) && !IsBreak(Peek(buffer))
    {
      error := None;
      hide PlainBlanks;
      while IsBlank(Peek(buffer)) || IsBreak(Peek(buffer))
        invariant PlainBlanks(old(PlainVars(str)), indent + 1, flowLevel > 0)
               == PlainBlanks(PlainVars(str), indent + 1, flowLevel > 0)
        invariant PlainBuffersOk() && (buffer == old(buffer) || |buffer| < old(|buffer|))
        invariant error.None?
        decreases |buffer|
      {
        error := ConsumePlainBlank(str);
        if error.Some? {
          return;
        }
      }
    }

    // One turn of the outer loop over the words of a plain scalar.
    method ReadPlainRound(str: string) returns (r: Result<string, ScanError>, done: bool)
      requires PlainBuffersOk()
      modifies this
      ensures indent == old(indent) && flowLevel == old(flowLevel)
      ensures PlainTop(old(PlainVars(str)), indent + 1, flowLevel > 0)
           == if r.Err? then Err(r.error)
              else if done then PlainEnd(PlainVars(r.value))
              else PlainTop(PlainVars(r.value), indent + 1, flowLevel > 0)
      ensures r.Ok? && !done ==> PlainBuffersOk() && |buffer| < old(|buffer|)
    {
      var flow := flowLevel > 0;
      if (col == 0 && NextIsDocumentIndicator(buffer)) || Peek(buffer) == '#' {
        return Ok(str), true;
      }
      if flow && Peek(buffer) == '-' && IsFlow(PeekNth(buffer, 1)) {
        return Err(DashBeforeFlowIndicator), true;
      }
      var acc := str;
      if !IsBlankOrBreakz(Peek(buffer)) && NextCanBePlainScalar(buffer, flow) {
        acc := FlushPlainBuffers(str);
        acc := ReadPlainWord(acc);
      }
      r, done := FinishPlainRound(acc);
    }

    method FinishPlainRound(str: string) returns (r: Result<string, ScanError>, done: bool)
      requires PlainBuffersOk()
      modifies this
      ensures indent == old(indent) && flowLevel == old(flowLevel)
      ensures PlainAfter(old(PlainVars(str)), indent + 1, flowLevel > 0)
           == if r.Err? then Err(r.error)
              else if done then PlainEnd(PlainVars(r.value))
              else PlainTop(PlainVars(r.value), indent + 1, flowLevel > 0)
      ensures r.Ok? && !done ==> PlainBuffersOk() && |buffer| < old(|buffer|)
    {
      r := Ok(str);
      if !(IsBlank(Peek(buffer)) || IsBreak(Peek(buffer))) {
        return r, true;
      }
      var error := ConsumePlainBlanks(str);
      if error.Some? {
        return Err(error.value), true;
      }
      done := flowLevel == 0 && col < indent + 1;
    }

    method ReadPlainWords() returns (r: Result<string, ScanError>)
      requires bufLeadingBreak == [] && bufTrailingBreaks == [] && bufWhitespaces == []
      modifies this
      ensures indent == old(indent) && flowLevel == old(flowLevel)
      ensures match PlainTop(old(PlainVars([])), indent + 1, flowLevel > 0)
              case Err(e) => r == Err(e)
              case Ok(scanned) => r == Ok(scanned.value) && At() == scanned.end
    {
      r := Ok([]);
      var done := false;
      hide PlainTop;
      while !done
        invariant r.Ok? && indent == old(indent) && flowLevel == old(flowLevel)
        invariant !done ==> PlainBuffersOk()
        invariant PlainTop(old(PlainVars([])), indent + 1, flowLevel > 0)
               == if done then PlainEnd(PlainVars(r.value)) else PlainTop(PlainVars(r.value), indent + 1, flowLevel > 0)
        decreases !done, |buffer|
      {
        r, done := ReadPlainRound(r.value);
        if r.Err? {
          return;
        }
      }
      if r.value == [] {
        r := Err(EmptyPlainScalar);
      }
    }

    method ScanPlainScalar() returns (r: Result<string, ScanError>)
      modifies this
      ensures indent == old(indent) && flowLevel == old(flowLevel)
      ensures match ScanPlain(old(At()), old(leadingWhitespace), indent, flowLevel > 0)
              case Err(e) => r == Err(e)
              case Ok(scanned) => r == Ok(scanned.value) && At() == scanned.end
    {
      if flowLevel > 0 && col < indent + 1 {
        return Err(InvalidIndentation);
      }
      bufWhitespaces, bufLeadingBreak, bufTrailingBreaks := [], [], [];
      r := ReadPlainWords();
    }

    // ---------------------------------------------------------------- block scalars

    method SkipBlockScalarIndent(indent: nat) returns (breaks: nat)
      modifies this`buffer, this`col, this`line, this`leadingWhitespace
      ensures Indented(breaks, At()) == SkipIndent(old(At()), indent)
    {
      breaks := 0;
      while true
        invariant var r := SkipIndent(At(), indent);
                  Indented(r.breaks + breaks, r.c) == SkipIndent(old(At()), indent)
        decreases |buffer|
      {
        ghost var before := buffer;
        while col < indent && Peek(buffer) == ' '
          invariant |buffer| <= |before|
          invariant var r := SkipIndent(At(), indent);
                    Indented(r.breaks + breaks, r.c) == SkipIndent(old(At()), indent)
          decreases |buffer|
        {
          SkipBlank();
        }
        if !IsBreak(Peek(buffer)) {
          return;
        }
        SkipOneBreak();
        breaks := breaks + 1;
      }
    }

    method SkipBlockScalarFirstLineIndent() returns (indent: nat, breaks: nat)
      requires this.indent >= -1
      modifies this`buffer, this`col, this`line, this`leadingWhitespace
      ensures var r := SkipFirstIndent(old(At()), 0);
              && breaks == r.breaks && At() == r.c
              && indent == FirstIndent(r.max, this.indent)
    {
      var maxIndent: nat := 0;
      breaks := 0;
      while true
        invariant var r := SkipFirstIndent(At(), maxIndent);
                  FirstIndented(r.max, r.breaks + breaks, r.c) == SkipFirstIndent(old(At()), 0)
        decreases |buffer|
      {
        ghost var before := buffer;
        while Peek(buffer) == ' '
          invariant |buffer| <= |before|
          invariant var r := SkipFirstIndent(At(), maxIndent);
                    FirstIndented(r.max, r.breaks + breaks, r.c) == SkipFirstIndent(old(At()), 0)
          decreases |buffer|
        {
          SkipBlank();
        }
        if col > maxIndent {
          maxIndent := col;
        }
        if !IsBreak(Peek(buffer)) {
          break;
        }
        SkipOneBreak();
        breaks := breaks + 1;
      }
      indent := Max(maxIndent, this.indent + 1);
      if this.indent > 0 {
        indent := Max(indent, 1);
      }
    }

    method ScanBlockScalarContentLine(str: string) returns (r: string)
      modifies this`buffer, this`col
      ensures var n := LeadingNonBreakz(old(buffer));
              r == str + old(buffer)[..n] && At() == Skip(old(At()), n)
    {
      r := str;
      while !IsBreakz(Peek(buffer))
        invariant var n := LeadingNonBreakz(buffer);
                  && r + buffer[..n] == str + old(buffer)[..LeadingNonBreakz(old(buffer))]
                  && Skip(At(), n) == Skip(old(At()), LeadingNonBreakz(old(buffer)))
        decreases |buffer|
      {
        r := r + [Peek(buffer)];
        SkipBlank();
      }
    }

    // The indicators behind the `|` or `>`, in either order.
    method ReadBlockHeader() returns (r: Result<Header, ScanError>)
      modifies this`buffer, this`col, this`leadingWhitespace
      ensures match ReadHeader(old(buffer))
              case Err(e) => r == Err(e)
              case Ok(h) => r == Ok(h) && At() == Skip(old(At()), h.len)
    {
      var chomping := Clip;
      var increment := 0;
      var len := 0;
      if Peek(buffer) == '+' || Peek(buffer) == '-' {
        chomping := ChompingOf(Peek(buffer));
        SkipNNonBlank(1);
        len := 1;
        if IsDigit(Peek(buffer)) {
          if Peek(buffer) == '0' {
            return Err(ZeroIndentIndicator);
          }
          increment := Peek(buffer) as int - '0' as int;
          SkipNNonBlank(1);
          len := 2;
        }
      } else if IsDigit(Peek(buffer)) {
        if Peek(buffer) == '0' {
          return Err(ZeroIndentIndicator);
        }
        increment := Peek(buffer) as int - '0' as int;
        SkipNNonBlank(1);
        len := 1;
        if Peek(buffer) == '+' || Peek(buffer) == '-' {
          chomping := ChompingOf(Peek(buffer));
          SkipNNonBlank(1);
          len := 2;
        }
      }
      r := Ok(Header(chomping, increment, len));
    }

    // The tail of the value: the last line's break and the empty lines behind it.
    method ChompBlock(indent: nat, chomping: Chomping, str: string, leadingBreak: string, breaks: nat)
      returns (r: string)
      requires leadingBreak == [] || leadingBreak == "\n"
      ensures Scanned(r, At()) == Chomp(At(), indent, chomping, str, leadingBreak == [], breaks)
    {
      r := str;
      if chomping != Strip {
        r := r + leadingBreak;
        if IsZ(Peek(buffer)) && col >= (if indent > 1 then indent else 1) {
          r := r + ['\n'];
        }
      }
      if chomping == Keep {
        r := r + Newlines(breaks);
      }
    }

    // One content line, and the white space up to where the next one may begin; `more` unless
    // the text is over.
    method ReadBlockLine(indent: nat, literal: bool, ghost chomping: Chomping, acc: string, leadingBreak: string,
                         leadingBreaks: nat, leadingBlank: bool)
      returns (str: string, more: bool, breaks: nat, blank: bool)
      requires leadingBreak == [] || leadingBreak == "\n"
      requires col == indent && !IsZ(Peek(buffer)) && !(indent == 0 && NextIsDocumentEnd(buffer))
      modifies this`buffer, this`col, this`line, this`leadingWhitespace
      ensures BlockLines(old(At()), indent, literal, chomping, acc, leadingBreak == [], leadingBreaks, leadingBlank)
           == if more then BlockLines(At(), indent, literal, chomping, str, false, breaks, blank)
              else Chomp(At(), indent, chomping, str, true, 0)
      ensures more ==> |buffer| < old(|buffer|)
      ensures !more ==> breaks == 0
    {
      hide SkipIndent, Chomp;
      blank := IsBlank(Peek(buffer));
      breaks := 0;
      if !literal && leadingBreak != [] && !leadingBlank && !blank {
        str := acc + if leadingBreaks == 0 then " " else Newlines(leadingBreaks);
      } else {
        str := acc + (leadingBreak + Newlines(leadingBreaks));
      }
      assert [] + Newlines(leadingBreaks) == Newlines(leadingBreaks);
      str := ScanBlockScalarContentLine(str);
      more := !IsZ(Peek(buffer));
      if more {
        SkipOneBreak();
        breaks := SkipBlockScalarIndent(indent);
      }
    }

    // The loop over content lines, and chomping.
    method ReadBlockLines(indent: nat, literal: bool, chomping: Chomping, leadingBreaks: nat)
      returns (r: string)
      modifies this`buffer, this`col, this`line, this`leadingWhitespace
      ensures Scanned(r, At()) == BlockLines(old(At()), indent, literal, chomping, [], true, leadingBreaks, false)
    {
      r := [];
      var leadingBreak := [];
      var breaks := leadingBreaks;
      var leadingBlank := false;
      var more := true;
      while more && col == indent && !IsZ(Peek(buffer)) && !(indent == 0 && NextIsDocumentEnd(buffer))
        invariant leadingBreak == [] || leadingBreak == "\n"
        invariant BlockLines(old(At()), indent, literal, chomping, [], true, leadingBreaks, false)
               == if more then BlockLines(At(), indent, literal, chomping, r, leadingBreak == [], breaks, leadingBlank)
                  else Chomp(At(), indent, chomping, r, leadingBreak == [], breaks)
        decreases more, |buffer|
      {
        r, more, breaks, leadingBlank :=
          ReadBlockLine(indent, literal, chomping, r, leadingBreak, breaks, leadingBlank);
        leadingBreak := if more then "\n" else [];
      }
      r := ChompBlock(indent, chomping, r, leadingBreak, breaks);
    }

    method ScanBlockScalar(literal: bool) returns (r: Result<string, ScanError>)
      requires indent >= -1
      modifies this`buffer, this`col, this`line, this`leadingWhitespace
      ensures match ScanBlock(old(At()), literal, indent)
              case Err(e) => r == Err(e)
              case Ok(scanned) => r == Ok(scanned.value) && At() == scanned.end
    {
      hide ReadHeader, ScanBlockRest;
      var startLine := line;
      SkipNNonBlank(1);
      var header := ReadBlockHeader();
      if header.Err? {
        return Err(header.error);
      }
      r := ReadBlockRest(literal, header.value, startLine);
    }

    method ReadBlockRest(literal: bool, header: Header, startLine: nat) returns (r: Result<string, ScanError>)
      requires indent >= -1
      modifies this`buffer, this`col, this`line, this`leadingWhitespace
      ensures match ScanBlockRest(old(At()), literal, indent, header, startLine)
              case Err(e) => r == Err(e)
              case Ok(scanned) => r == Ok(scanned.value) && At() == scanned.end
    {
      hide SkipWsToEol, ScanBlockBody;
      var ok := SkipToEol();
      if !ok {
        return Err(CommentNeedsSpace);
      }
      if !IsBreakz(Peek(buffer)) {
        return Err(ExpectedLineBreak);
      }
      var hasBreak := IsBreak(Peek(buffer));
      if hasBreak {
        SkipOneBreak();
      }
      if Peek(buffer) == '\t' {
        return Err(ContentStartsWithTab);
      }
      r := ReadBlockBody(literal, header, hasBreak, startLine);
    }

    method ReadBlockBody(literal: bool, header: Header, hasBreak: bool, startLine: nat)
      returns (r: Result<string, ScanError>)
      requires indent >= -1
      modifies this`buffer, this`col, this`line, this`leadingWhitespace
      ensures match ScanBlockBody(old(At()), literal, indent, header, hasBreak, startLine)
              case Err(e) => r == Err(e)
              case Ok(scanned) => r == Ok(scanned.value) && At() == scanned.end
    {
      hide SkipIndent, SkipFirstIndent, BlockLines;
      var blockIndent := 0;
      if header.increment > 0 {
        blockIndent := if indent >= 0 then indent + header.increment else header.increment;
      }
      var breaks;
      if blockIndent == 0 {
        blockIndent, breaks := SkipBlockScalarFirstLineIndent();
      } else {
        breaks := SkipBlockScalarIndent(blockIndent);
      }
      if IsZ(Peek(buffer)) {
        if header.chomping == Strip || line == startLine {
          r := Ok([]);
        } else if header.chomping == Keep && breaks > 0 {
          r := Ok(Newlines(breaks));
        } else {
          r := Ok(if hasBreak then "\n" else []);
        }
        return;
      }
      if col < blockIndent && col > indent {
        return Err(WronglyIndentedLine);
      }
      var value := ReadBlockLines(blockIndent, literal, header.chomping, breaks);
      r := Ok(value);
    }
  }
}
