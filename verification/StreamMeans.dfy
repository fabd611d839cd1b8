// Whole streams: the parser's run over what was written is what it means
// (crates/yamluna-scanner/src/parser.rs).
module StreamMeans {
  import opened Results
  import opened Events
  import opened ParserStep
  import opened ScalarEmitter
  import opened ParserSafety
  import opened ParserRun
  import opened ParserSurplus
  import opened Written
  import opened ParserMeans
  import opened JoinedPairs

  // The run of a meaning that reaches the end of the stream.
  function RunOf(mean: Meaning): Run {
    Run(mean.events, if mean.verdict.Err? then Some(mean.verdict.error) else None)
  }

  // ------------------------------------------------------------------ directives

  lemma {:induction false} DirectivesMean(m: Machine, ts: seq<Token>, tail: seq<Token>, tags: map<string, string>, seen: bool)
    requires AllDirectives(ts) && m.toks == ts + tail && tail != [] && !IsDirective(tail[0])
    requires seen <==> m.env.version.Some?
    ensures match MeanDirectives(ts, m.env.version, tags)
            case Err(e) => ReadDirectives(m, Directives(seen, tags)) == Err(e)
            case Ok((version, all)) =>
              ReadDirectives(m, Directives(seen, tags)) ==
              Ok(m.(toks := tail, env := m.env.(version := version, tags := m.env.tags + all)))
    decreases |ts|
  {
    if ts == [] {
      assert m.toks == tail;
      DirectivesEnd(m, Directives(seen, tags));
      assert m.env == m.env.(version := m.env.version);
    } else {
      SkipOne(m, ts[0], ts[1..] + tail);
      var k := m.Skip();
      if ts[0].VersionDirective? {
        if !seen {
          DirectivesMean(k.(env := k.env.(version := Some((ts[0].major, ts[0].minor)))), ts[1..], tail, tags, true);
        }
      } else if ts[0].TagDirective? {
        if ts[0].handle !in tags {
          DirectivesMean(k, ts[1..], tail, tags[ts[0].handle := ts[0].prefix], seen);
        }
      } else {
        DirectivesMean(k, ts[1..], tail, tags, seen);
      }
    }
  }

  // What processing a document's directives leaves.
  ghost predicate Directed(m: Machine, ts: seq<Token>, tail: seq<Token>)
    requires AllDirectives(ts)
  {
    match MeanDirectives(ts, None, map[])
    case Err(e) => ProcessDirectives(m) == Err(e)
    case Ok((version, tags)) =>
      ProcessDirectives(m) == Ok(m.(toks := tail, env := m.env.(version := version, tags := m.env.tags + tags)))
  }

  lemma ProcessMeans(m: Machine, ts: seq<Token>, tail: seq<Token>)
    requires AllDirectives(ts) && m.toks == ts + tail && tail != [] && !IsDirective(tail[0])
    ensures Directed(m, ts, tail)
  {
    DirectivesMean(m.(env := m.env.(version := None)), ts, tail, map[], false);
  }

  // ------------------------------------------------------------------ the start of a document

  predicate Between(k: Machine) {
    k.states == [] && k.env.nextAnchor >= 1 && (k.state.ImplicitDocumentStart? || k.state.DocumentStart?)
  }

  lemma StartSteps(d: Document, k: Machine, body: seq<Token>)
    requires Between(k) && DocumentFits(d, k.state.ImplicitDocumentStart?)
    requires k.toks == d.directives + (Opening(d) + body) && body != []
    requires !d.explicit ==> Opener(body[0])
    ensures match MeanDirectives(d.directives, None, map[])
            case Err(e) => Step(k) == Fail(e)
            case Ok((version, tags)) =>
              Step(k) == Emit(Event.DocumentStart(d.explicit), Entered(d, k, version, tags, body))
  {
    hide ReadDirectives, MeanDirectives, ProcessDirectives, Blocks;
    var first := k.toks[0];
    assert first == if d.directives != [] then d.directives[0] else (Opening(d) + body)[0];
    assert !first.DocumentEnd? && !first.StreamEnd?;
    assert SkipDocumentEnds(k) == k;
    ProcessMeans(k, d.directives, Opening(d) + body);
    if d.explicit {
      assert k.toks == d.directives + ([Token.DocumentStart] + body);
      if MeanDirectives(d.directives, None, map[]).Ok? {
        var (version, tags) := MeanDirectives(d.directives, None, map[]).value;
        var n := k.(toks := [Token.DocumentStart] + body, env := k.env.(version := version, tags := k.env.tags + tags));
        assert ProcessDirectives(k) == Ok(n);
        SkipOne(n.Push(State.DocumentEnd).Goto(State.DocumentContent), Token.DocumentStart, body);
      }
    } else {
      assert Opening(d) + body == body;
    }
  }

  // The machine inside a document that has just begun.
  function Entered(d: Document, k: Machine, version: Option<(nat, nat)>, tags: map<string, string>, body: seq<Token>): Machine {
    Machine(if d.explicit then State.DocumentContent else State.BlockNode, k.states + [State.DocumentEnd], body,
            k.env.(version := version, tags := k.env.tags + tags))
  }

  // ------------------------------------------------------------------ the root and the end of a document

  lemma RootMeans(n: Node, k: Machine, rest: seq<Token>)
    requires Inside(k) && Blocks(n, false) && rest != [] && EndsContent(rest[0]) && k.toks == Words(n) + rest
    requires k.state.DocumentContent? || (k.state.BlockNode? && !n.Missing?)
    ensures ReadAs(Continue(k), Clean(n), Mean(n, k.env, true), k.Pop().(toks := rest))
  {
    hide Resumables, Continue, Resume, OnNode, Words, Mean, Blocks, Finish, Machine.Valid, Nested, Surplus;
    ReadyAt(k);
    WordsOrTail(n, false, rest);
    if n.Missing? {
      ContinueIs(k, Emit(NullScalar(), k.Pop()));
      assert k.Pop() == k.Pop().(toks := rest);
      Back(k, rest);
      Emits(NullScalar(), k.Pop());
      NullMeans(k.env);
    } else {
      ContinueIs(k, OnNode(k, true, false));
      NodeMeans(n, k, rest, true, false);
    }
  }

  lemma NullMeans(env: Env)
    ensures Mean(Missing, env, true) == Single(NullScalar(), env)
  {
  }

  // The words of documents open and close as many brackets.
  lemma {:induction false} DocumentsEven(docs: seq<Document>)
    requires forall i | 0 <= i < |docs| :: AllDirectives(docs[i].directives)
    ensures Bal(DocumentWords(docs)) == 0
    decreases |docs|
  {
    if docs != [] {
      var d := docs[0];
      var rest := DocumentWords(docs[1..]);
      assert forall i | 0 <= i < |docs[1..]| :: docs[1..][i] == docs[i + 1];
      DocumentsEven(docs[1..]);
      EndsEven(d.ends, rest);
      WordsEven(d.root, Closing(d) + rest);
      OneEven(Opening(d), Words(d.root) + (Closing(d) + rest));
      DirectivesEven(d.directives, Opening(d) + (Words(d.root) + (Closing(d) + rest)));
    }
  }

  lemma {:induction false} DirectivesEven(ts: seq<Token>, rest: seq<Token>)
    requires AllDirectives(ts)
    ensures Bal(ts + rest) == Bal(rest)
    decreases |ts|
  {
    if ts == [] {
      assert ts + rest == rest;
    } else {
      assert ts + rest == [ts[0]] + (ts[1..] + rest);
      EvenFirst(ts[0], ts[1..] + rest);
      DirectivesEven(ts[1..], rest);
    }
  }

  // Nothing is left open between the documents of a stream.
  lemma {:induction false} NothingOpen(d: Document, docs: seq<Document>, k: Machine)
    requires forall i | 0 <= i < |docs| :: AllDirectives(docs[i].directives)
    requires k.state.DocumentEnd? && k.states == [] && k.toks == Closing(d) + DocumentWords(docs)
    ensures Surplus(k) == 0
  {
    DocumentsEven(docs);
    EndsEven(d.ends, DocumentWords(docs));
  }

  lemma {:induction false} EndsEven(n: nat, rest: seq<Token>)
    ensures Bal(Ends(n) + rest) == Bal(rest)
  {
    if n == 0 {
      assert Ends(n) + rest == rest;
    } else {
      EndsMore(n, rest);
      EvenFirst(Token.DocumentEnd, Ends(n - 1) + rest);
      EndsEven(n - 1, rest);
    }
  }

  lemma EndsMore(n: nat, rest: seq<Token>)
    requires n > 0
    ensures Ends(n) + rest == [Token.DocumentEnd] + (Ends(n - 1) + rest)
  {
  }

  // Further `...` are passed over.
  lemma {:induction false} EndsSkipped(k: Machine, n: nat, rest: seq<Token>)
    requires k.toks == Ends(n) + rest && rest != [] && !rest[0].DocumentEnd?
    ensures SkipDocumentEnds(k) == k.(toks := rest)
    decreases n
  {
    if n == 0 {
      assert k.toks == rest;
    } else {
      EndsMore(n, rest);
      SkipOne(k, Token.DocumentEnd, Ends(n - 1) + rest);
      EndsSkipped(k.Skip(), n - 1, rest);
    }
  }

  lemma EndsIdle(k: Machine, n: nat, rest: seq<Token>)
    requires Between(k) && k.toks == Ends(n) + rest && rest != [] && !rest[0].DocumentEnd?
    ensures Continue(k) == Continue(k.(toks := rest))
  {
    hide Continue, Resume;
    var k1 := k.(toks := rest);
    StartValid(k);
    StartValid(k1);
    EndsSkipped(k, n, rest);
    assert Step(k) == Step(k1);
    ContinueIs(k, Step(k));
    ContinueIs(k1, Step(k1));
  }

  // The state behind a document, by how it was closed.
  function Behind(d: Document): State {
    if d.ends > 0 then ImplicitDocumentStart else State.DocumentStart
  }

  lemma EndStep(k: Machine)
    requires k.Valid() && k.state.DocumentEnd? && k.toks != [] && !IsDirective(k.toks[0])
    ensures k.states == [] && k.env.nextAnchor >= 1
    ensures Step(k) == Emit(Event.DocumentEnd,
                            if k.toks[0].DocumentEnd? then Machine(ImplicitDocumentStart, [], k.toks[1..], Left(k.env))
                            else Machine(State.DocumentStart, [], k.toks, Left(k.env)))
  {
  }

  lemma CloseMeans(d: Document, k: Machine, rest: seq<Token>)
    requires k.Valid() && k.state.DocumentEnd? && rest != [] && !rest[0].DocumentEnd? && k.toks == Closing(d) + rest
    requires d.ends > 0 || rest[0].DocumentStart? || rest[0].StreamEnd?
    ensures Continue(k) == Continue(Machine(Behind(d), [], rest, Left(k.env))).After([Event.DocumentEnd])
    ensures Between(Machine(Behind(d), [], rest, Left(k.env)))
  {
    hide Resume, RunFrom, Continue, Ends, Step, Machine.Valid, Left;
    LeftNumbers(k.env);
    if d.ends > 0 {
      EndsMore(d.ends, rest);
      var more := Ends(d.ends - 1) + rest;
      assert k.toks[1..] == more;
      EndStep(k);
      var first := Machine(ImplicitDocumentStart, [], more, Left(k.env));
      StartValid(first);
      Continues(k, Event.DocumentEnd, first);
      EndsIdle(first, d.ends - 1, rest);
    } else {
      NoEnds(rest);
      EndStep(k);
      StartValid(Machine(State.DocumentStart, [], rest, Left(k.env)));
      Continues(k, Event.DocumentEnd, Machine(State.DocumentStart, [], rest, Left(k.env)));
    }
  }

  lemma LeftNumbers(env: Env)
    ensures Left(env).nextAnchor == env.nextAnchor
  {
  }

  lemma NoEnds(rest: seq<Token>)
    ensures Ends(0) + rest == rest
  {
  }

  lemma {:induction false} DocumentsBegin(docs: seq<Document>, free: bool)
    requires DocumentsFit(docs, free)
    ensures DocumentWords(docs) != [] && !DocumentWords(docs)[0].DocumentEnd?
    ensures !free ==> DocumentWords(docs)[0].DocumentStart? || DocumentWords(docs)[0].StreamEnd?
  {
    if docs != [] {
      var d := docs[0];
      var rest := Words(d.root) + (Closing(d) + DocumentWords(docs[1..]));
      DocumentsBegin(docs[1..], d.ends > 0);
      if !d.explicit {
        RootBegins(d, DocumentWords(docs[1..]));
      }
      HeadOf(Opening(d), rest);
      HeadOf(d.directives, Opening(d) + rest);
    }
  }

  lemma RootBegins(d: Document, tail: seq<Token>)
    requires DocumentFits(d, true) && !d.explicit && tail != []
    ensures var rest := Words(d.root) + (Closing(d) + tail); rest != [] && Opener(rest[0])
  {
    WordsBegin(d.root, false);
    HeadOf(Words(d.root), Closing(d) + tail);
  }

  // ------------------------------------------------------------------ documents

  // A document that has begun, and all that follows it.
  lemma {:induction false} BodyMeans(docs: seq<Document>, k: Machine)
    requires docs != [] && DocumentsFit(docs, true)
    requires Inside(k) && k.states == [State.DocumentEnd]
    requires k.state == if docs[0].explicit then State.DocumentContent else State.BlockNode
    requires k.toks == Words(docs[0].root) + (Closing(docs[0]) + DocumentWords(docs[1..]))
    requires forall i | 0 <= i < |docs| :: AllDirectives(docs[i].directives)
    ensures var d, root := docs[0], Mean(docs[0].root, k.env, true);
            if !Clean(d.root) then Continue(k).error.Some?
            else if root.verdict.Err? then Continue(k) == RunOf(root)
            else Continue(k) == Continue(Machine(Behind(d), [], DocumentWords(docs[1..]), Left(root.verdict.value)))
                                .After(root.events + [Event.DocumentEnd])
  {
    hide Resumables, Continue, Words, Mean, Blocks, Machine.Valid, DocumentWords, Clean, Surplus;
    var d := docs[0];
    var rest := Closing(d) + DocumentWords(docs[1..]);
    DocumentsBegin(docs[1..], d.ends > 0);
    HeadOf(Closing(d), DocumentWords(docs[1..]));
    RootMeans(d.root, k, rest);
    var root := Mean(d.root, k.env, true);
    assert forall i | 0 <= i < |docs[1..]| :: docs[1..][i] == docs[i + 1];
    NothingOpen(d, docs[1..], k.Pop().(toks := rest));
    if Clean(d.root) && root.verdict.Ok? {
      var ended := Machine(State.DocumentEnd, [], rest, root.verdict.value);
      assert k.Pop().(toks := rest, env := root.verdict.value) == ended;
      EndedValid(ended);
      CloseMeans(d, ended, DocumentWords(docs[1..]));
      var r := Continue(Machine(Behind(d), [], DocumentWords(docs[1..]), Left(root.verdict.value)));
      assert r.After([Event.DocumentEnd]).After(root.events) == r.After(root.events + [Event.DocumentEnd]) by {
        assert root.events + ([Event.DocumentEnd] + r.events) == root.events + [Event.DocumentEnd] + r.events;
      }
    }
  }

  lemma EndedValid(k: Machine)
    requires k.state.DocumentEnd? && k.states == [] && k.env.nextAnchor >= 1
    ensures k.Valid()
  {
  }

  lemma StartValid(k: Machine)
    requires Between(k)
    ensures Ready(k)
  {
  }

  lemma {:induction false} BodyBegins(docs: seq<Document>, free: bool)
    requires docs != [] && DocumentsFit(docs, free)
    ensures DocumentsFit(docs, true)
    ensures var body := Words(docs[0].root) + (Closing(docs[0]) + DocumentWords(docs[1..]));
            && body != [] && (!docs[0].explicit ==> Opener(body[0]))
            && DocumentWords(docs) == docs[0].directives + (Opening(docs[0]) + body)
  {
    hide Words, Blocks;
    var d := docs[0];
    DocumentsBegin(docs[1..], d.ends > 0);
    var tail := Closing(d) + DocumentWords(docs[1..]);
    HeadOf(Closing(d), DocumentWords(docs[1..]));
    HeadOf(Words(d.root), tail);
    WordsOrTail(d.root, false, tail);
  }

  // What a document means behind its start.
  function Root(d: Document, env: Env): Meaning {
    Mean(d.root, env, true)
  }

  lemma DocumentParts(d: Document, env: Env)
    requires AllDirectives(d.directives)
    ensures MeanDirectives(d.directives, None, map[]).Err? ==>
              MeanDocument(d, env, true) == Stop(MeanDirectives(d.directives, None, map[]).error)
    ensures MeanDirectives(d.directives, None, map[]).Ok? ==>
              var found := MeanDirectives(d.directives, None, map[]).value;
              var root := Root(d, env.(version := found.0, tags := env.tags + found.1));
              MeanDocument(d, env, true) ==
              if root.verdict.Err? then Prefix(Event.DocumentStart(d.explicit), root)
              else Meaning([Event.DocumentStart(d.explicit)] + (root.events + [Event.DocumentEnd]), Ok(Left(root.verdict.value)))
  {
    hide Mean, MeanDirectives;
  }

  lemma EnteredInside(d: Document, k: Machine, version: Option<(nat, nat)>, tags: map<string, string>, body: seq<Token>)
    requires Between(k)
    ensures var n := Entered(d, k, version, tags, body); Inside(n) && Ready(n) && n.states == [State.DocumentEnd]
  {
  }

  lemma {:induction false} DocumentBegins(docs: seq<Document>, k: Machine)
    requires docs != [] && DocumentsFit(docs, k.state.ImplicitDocumentStart?) && Between(k)
    requires k.toks == DocumentWords(docs)
    ensures var d, found := docs[0], MeanDirectives(docs[0].directives, None, map[]);
            var body := Words(d.root) + (Closing(d) + DocumentWords(docs[1..]));
            Continue(k) == match found
                           case Err(e) => Run([], Some(e))
                           case Ok((version, tags)) =>
                             Continue(Entered(d, k, version, tags, body)).After([Event.DocumentStart(d.explicit)])
  {
    hide Resumables, RunFrom, Words, Blocks, Machine.Valid, Step, MeanDirectives, DocumentWords, Continue, Inside;
    var d := docs[0];
    var body := Words(d.root) + (Closing(d) + DocumentWords(docs[1..]));
    StartValid(k);
    BodyBegins(docs, k.state.ImplicitDocumentStart?);
    StartSteps(d, k, body);
    ContinueIs(k, Step(k));
    if MeanDirectives(d.directives, None, map[]).Ok? {
      var (version, tags) := MeanDirectives(d.directives, None, map[]).value;
      EnteredInside(d, k, version, tags, body);
      Continues(k, Event.DocumentStart(d.explicit), Entered(d, k, version, tags, body));
    }
  }

  // One document: what it means, then the machine behind it.
  lemma {:induction false} DocumentMeans(docs: seq<Document>, k: Machine)
    requires docs != [] && DocumentsFit(docs, k.state.ImplicitDocumentStart?) && Between(k)
    requires k.toks == DocumentWords(docs)
    requires forall i | 0 <= i < |docs| :: AllDirectives(docs[i].directives)
    ensures var a := MeanDocument(docs[0], k.env, true);
            if !Clean(docs[0].root) then Continue(k).error.Some?
            else if a.verdict.Err? then Continue(k) == RunOf(a)
            else Continue(k) == Continue(Machine(Behind(docs[0]), [], DocumentWords(docs[1..]), a.verdict.value)).After(a.events)
  {
    hide Resumables, Words, Blocks, Machine.Valid, Step, MeanDirectives, DocumentWords, Continue, Mean, MeanDocument, Inside, Clean;
    var d := docs[0];
    var found := MeanDirectives(d.directives, None, map[]);
    BodyBegins(docs, k.state.ImplicitDocumentStart?);
    DocumentBegins(docs, k);
    DocumentParts(d, k.env);
    if found.Ok? {
      var (version, tags) := found.value;
      var body := Words(d.root) + (Closing(d) + DocumentWords(docs[1..]));
      var n := Entered(d, k, version, tags, body);
      EnteredInside(d, k, version, tags, body);
      BodyMeans(docs, n);
      Sequenced(d, n, docs[1..], Event.DocumentStart(d.explicit));
    }
  }

  lemma Sequenced(d: Document, n: Machine, rest: seq<Document>, start: Event)
    ensures var root := Root(d, n.env);
            root.verdict.Ok? ==>
              var r := Continue(Machine(Behind(d), [], DocumentWords(rest), Left(root.verdict.value)));
              r.After(root.events + [Event.DocumentEnd]).After([start]) == r.After([start] + (root.events + [Event.DocumentEnd]))
  {
    hide Continue, Mean, DocumentWords;
    var root := Root(d, n.env);
    if root.verdict.Ok? {
      var r := Continue(Machine(Behind(d), [], DocumentWords(rest), Left(root.verdict.value)));
      assert [start] + (root.events + [Event.DocumentEnd] + r.events) == [start] + (root.events + [Event.DocumentEnd]) + r.events;
    }
  }

  // ------------------------------------------------------------------ streams

  lemma {:induction false} FitDirectives(docs: seq<Document>, free: bool)
    requires DocumentsFit(docs, free)
    ensures forall i | 0 <= i < |docs| :: AllDirectives(docs[i].directives)
    decreases |docs|
  {
    if docs != [] {
      FitDirectives(docs[1..], docs[0].ends > 0);
      forall i | 0 <= i < |docs| ensures AllDirectives(docs[i].directives) {
        if i > 0 { assert docs[i] == docs[1..][i - 1]; }
      }
    }
  }

  lemma {:induction false} DocumentsMean(docs: seq<Document>, k: Machine)
    requires DocumentsFit(docs, k.state.ImplicitDocumentStart?) && Between(k) && k.toks == DocumentWords(docs)
    requires forall i | 0 <= i < |docs| :: AllDirectives(docs[i].directives)
    ensures if AllClean(docs) then Continue(k) == RunOf(MeanDocuments(docs, k.env, true)) else Continue(k).error.Some?
    decreases |docs|
  {
    hide Words, Blocks, Step, MeanDirectives, Continue, Mean, MeanDocument, Clean;
    StartValid(k);
    if docs == [] {
      StreamEndSteps(k);
      ContinueIs(k, Step(k));
    } else {
      DocumentMeans(docs, k);
      assert AllClean(docs) <==> Clean(docs[0].root) && AllClean(docs[1..]) by {
        FirstClean(docs);
      }
      var a := MeanDocument(docs[0], k.env, true);
      if a.verdict.Ok? {
        var next := Machine(Behind(docs[0]), [], DocumentWords(docs[1..]), a.verdict.value);
        DocumentsMean(docs[1..], next);
      }
    }
  }

  lemma StreamEndSteps(k: Machine)
    requires Between(k) && k.toks == [Token.StreamEnd]
    ensures Step(k).Emit? && Step(k).event == Event.StreamEnd
  {
    assert SkipDocumentEnds(k) == k;
  }

  lemma FirstClean(docs: seq<Document>)
    requires docs != []
    ensures AllClean(docs) <==> Clean(docs[0].root) && AllClean(docs[1..])
  {
    hide Clean;
    if Clean(docs[0].root) && AllClean(docs[1..]) {
      forall i | 0 <= i < |docs| ensures Clean(docs[i].root) {
        if i > 0 { assert docs[i] == docs[1..][i - 1]; }
      }
    }
    if AllClean(docs) {
      forall i | 0 <= i < |docs[1..]| ensures Clean(docs[1..][i].root) {
        assert docs[1..][i] == docs[i + 1];
      }
    }
  }

  // Over every stream of trees the parser's events and its error are those the stream means as the
  // parser takes it, as long as no flow sequence holds a pair that loses what stands behind it; a
  // stream that does is refused.
  lemma {:induction false} EveryStreamMeans(ends: nat, docs: seq<Document>, keepTags: bool, scanError: Option<string>)
    requires DocumentsFit(docs, true)
    ensures forall i | 0 <= i < |docs| :: AllDirectives(docs[i].directives)
    ensures var m := Fresh(StreamWords(ends, docs), keepTags, scanError);
            if AllClean(docs) then RunFrom(m, false) == RunOf(MeanStream(docs, m.env, true))
            else RunFrom(m, false).error.Some?
  {
    hide Words, Blocks, Continue, Mean, MeanDocument, RunFrom, Clean;
    FitDirectives(docs, true);
    var m := Fresh(StreamWords(ends, docs), keepTags, scanError);
    SkipOne(m, Token.StreamStart, Ends(ends) + DocumentWords(docs));
    var first := m.Goto(ImplicitDocumentStart).(toks := Ends(ends) + DocumentWords(docs));
    var next := m.Goto(ImplicitDocumentStart).(toks := DocumentWords(docs));
    Continues(m, Event.StreamStart, first);
    DocumentsBegin(docs, true);
    EndsIdle(first, ends, DocumentWords(docs));
    DocumentsMean(docs, next);
    SameRun(m);
  }

  // A stream is accepted exactly when it has a meaning and no pair of it loses what stands behind it;
  // and a stream that has a meaning is read as that meaning exactly when, besides, no two pairs of it
  // are taken for one. Each time two are, four events are missing.
  lemma StreamReadExactly(ends: nat, docs: seq<Document>, keepTags: bool, scanError: Option<string>)
    requires DocumentsFit(docs, true)
    ensures forall i | 0 <= i < |docs| :: AllDirectives(docs[i].directives)
    ensures var m := Fresh(StreamWords(ends, docs), keepTags, scanError);
            var run, mean := RunFrom(m, false), MeanStream(docs, m.env, false);
            && (run.error.None? <==> AllClean(docs) && mean.verdict.Ok?)
            && (mean.verdict.Ok? ==> (run == RunOf(mean) <==> AllClean(docs) && LostIn(docs) == 0))
            && (run.error.None? ==> |run.events| + 4 * LostIn(docs) == |mean.events|)
  {
    hide RunFrom, MeanStream, AllClean, DocumentsFit, LostIn;
    EveryStreamMeans(ends, docs, keepTags, scanError);
    StreamJoined(docs, Fresh(StreamWords(ends, docs), keepTags, scanError).env);
  }

  const Unnamed: Props := Props(None, None, false)

  // A document that is one flow sequence.
  function Brackets(cells: Cells): seq<Document> {
    [Document([], false, FlowSeq(Unnamed, cells), 0)]
  }

  // Flow sequences that mean something and are refused: `[? ]`, `[? , a]`, `[? : a]`, and `[{}, : a]`
  // as the scanner hands it over.
  predicate Refused(cells: Cells) {
    var a := Text(Unnamed, ScalarStyle.Plain, "a");
    || cells == Pair(KeyOnly, Missing, Missing, NoCells)
    || cells == Pair(KeyOnly, Missing, Missing, Item(a, NoCells))
    || cells == Pair(KeyAndValue, Missing, a, NoCells)
    || cells == Item(FlowMap(Unnamed, NoMembers), Pair(ValueOnly, Missing, a, NoCells))
  }

  lemma KeylessPairsAreLost(cells: Cells, keepTags: bool, scanError: Option<string>)
    requires Refused(cells)
    ensures var docs := Brackets(cells);
            var m := Fresh(StreamWords(0, docs), keepTags, scanError);
            && DocumentsFit(docs, true) && !AllClean(docs)
            && MeanStream(docs, m.env, false).verdict.Ok? && RunFrom(m, false).error.Some?
  {
    hide RunFrom, StreamWords, MeanStream;
    var docs := Brackets(cells);
    assert !Clean(docs[0].root);
    assert docs[1..] == [];
    var env := Fresh(StreamWords(0, docs), keepTags, scanError).env;
    EveryStreamMeans(0, docs, keepTags, scanError);
    OneDocument(docs[0].root, env, false);
    RefusedMeans(cells, RootEnv(env));
  }

  function RootEnv(env: Env): Env {
    env.(version := None, tags := env.tags + map[])
  }

  lemma RefusedMeans(cells: Cells, env: Env)
    requires Refused(cells)
    ensures Mean(FlowSeq(Unnamed, cells), env, false).verdict.Ok?
  {
    var a := Text(Unnamed, ScalarStyle.Plain, "a");
    assert Mean(a, env, false).verdict == Ok(env);
  }

  // What a stream of one bare document means.
  lemma OneDocument(n: Node, env: Env, joined: bool)
    ensures var root := Mean(n, RootEnv(env), joined);
            var mean := MeanStream([Document([], false, n, 0)], env, joined);
            && (root.verdict.Ok? <==> mean.verdict.Ok?)
            && (root.verdict.Ok? ==>
                  mean.events == [Event.StreamStart, Event.DocumentStart(false)] + root.events + [Event.DocumentEnd, Event.StreamEnd])
  {
    hide Mean;
    var d := Document([], false, n, 0);
    var root := Mean(n, RootEnv(env), joined);
    assert [d][1..] == [];
    assert MeanDirectives([], None, map[]) == Ok((None, map[]));
    if root.verdict.Ok? {
      var start, end := [Event.StreamStart, Event.DocumentStart(false)], [Event.DocumentEnd, Event.StreamEnd];
      assert MeanDocument(d, env, joined).events == [Event.DocumentStart(false)] + (root.events + [Event.DocumentEnd]);
      assert MeanDocuments([], Left(root.verdict.value), joined).events == [Event.StreamEnd];
      assert start + root.events + end
          == [Event.StreamStart] + ([Event.DocumentStart(false)] + (root.events + [Event.DocumentEnd]) + [Event.StreamEnd]);
    }
  }

  // The tokens of the first of them.
  lemma KeylessWords()
    ensures StreamWords(0, Brackets(Pair(KeyOnly, Missing, Missing, NoCells)))
            == [Token.StreamStart, FlowSequenceStart, Key, FlowSequenceEnd, Token.StreamEnd]
  {
    var n := FlowSeq(Unnamed, Pair(KeyOnly, Missing, Missing, NoCells));
    assert Words(n) == [FlowSequenceStart, Key, FlowSequenceEnd];
    assert DocumentWords([]) == [Token.StreamEnd];
    assert [Document([], false, n, 0)][1..] == [];
  }

  // And one that is read without an error and not as what it means: `[? , : a]` has two pairs, and one
  // of them is read.
  lemma TwoPairsReadAsOne(keepTags: bool, scanError: Option<string>)
    ensures var a := Text(Unnamed, ScalarStyle.Plain, "a");
            var docs := Brackets(Pair(KeyOnly, Missing, Missing, Pair(ValueOnly, Missing, a, NoCells)));
            var run := RunFrom(Fresh(StreamWords(0, docs), keepTags, scanError), false);
            && StreamWords(0, docs) == [Token.StreamStart, FlowSequenceStart, Key, FlowEntry, Value,
                                        Token.Scalar(ScalarStyle.Plain, "a"), FlowSequenceEnd, Token.StreamEnd]
            && run.error.None?
            && run.events == [Event.StreamStart, Event.DocumentStart(false), SequenceStart(NoAnchor, None, Flow),
                              MappingStart(NoAnchor, None, Flow), NullScalar(), Event.Scalar("a", ScalarStyle.Plain, NoAnchor, None),
                              MappingEnd, SequenceEnd, Event.DocumentEnd, Event.StreamEnd]
  {
    hide RunFrom, MeanStream;
    var a := Text(Unnamed, ScalarStyle.Plain, "a");
    var second := Pair(ValueOnly, Missing, a, NoCells);
    var n := FlowSeq(Unnamed, Pair(KeyOnly, Missing, Missing, second));
    var docs := Brackets(Pair(KeyOnly, Missing, Missing, second));
    assert Words(n) == [FlowSequenceStart, Key, FlowEntry, Value, Token.Scalar(ScalarStyle.Plain, "a"), FlowSequenceEnd];
    assert DocumentWords([]) == [Token.StreamEnd];
    assert docs[1..] == [];
    assert Clean(n);
    EveryStreamMeans(0, docs, keepTags, scanError);
    hide StreamWords;
    var env := Fresh(StreamWords(0, docs), keepTags, scanError).env;
    OneDocument(n, env, true);
    SecondIsRead(second, RootEnv(env));
  }

  lemma SecondIsRead(second: Cells, env: Env)
    requires second == Pair(ValueOnly, Missing, Text(Unnamed, ScalarStyle.Plain, "a"), NoCells)
    ensures Mean(FlowSeq(Unnamed, Pair(KeyOnly, Missing, Missing, second)), env, true)
         == Meaning([SequenceStart(NoAnchor, None, Flow), MappingStart(NoAnchor, None, Flow), NullScalar(),
                     Event.Scalar("a", ScalarStyle.Plain, NoAnchor, None), MappingEnd, SequenceEnd], Ok(env))
  {
    assert MeanPair(second, env, true) == Meaning([NullScalar(), Event.Scalar("a", ScalarStyle.Plain, NoAnchor, None), MappingEnd], Ok(env));
    assert MeanCells(second, env, true)
        == Meaning([MappingStart(NoAnchor, None, Flow), NullScalar(), Event.Scalar("a", ScalarStyle.Plain, NoAnchor, None), MappingEnd, SequenceEnd], Ok(env));
  }

  lemma SameRun(m: Machine)
    requires Ready(m)
    ensures Continue(m) == RunFrom(m, false)
  {
    hide RunFrom;
  }
}
