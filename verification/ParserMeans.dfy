// The parser reads what was written as what it means: over every written document the events and
// the error are those of the reference (crates/yamluna-scanner/src/parser.rs).
module ParserMeans {
  import opened Results
  import opened ScalarEmitter
  import opened Events
  import opened ParserStep
  import opened ParserSafety
  import opened ParserRun
  import opened ParserSurplus
  import opened Written

  // ------------------------------------------------------------------ runs and meanings

  predicate Ready(k: Machine) {
    k.Valid() && !k.state.End?
  }

  function Continue(k: Machine): Run {
    if Ready(k) then RunFrom(k, false) else Run([], None)
  }

  // The run that a meaning and the machine behind it make together.
  function Finish(mean: Meaning, k: Machine): Run {
    match mean.verdict
    case Ok(env) => Continue(k.(env := env)).After(mean.events)
    case Err(e) => Run(mean.events, Some(e))
  }

  // A machine inside a document.
  predicate Inside(m: Machine) {
    Stacked(m.states) && m.env.nextAnchor >= 1
  }

  lemma Back(m: Machine, toks: seq<Token>)
    requires Inside(m)
    ensures Ready(m.Pop().(toks := toks))
  {
    PopOwes(m);
    assert m.Pop().state == m.states[|m.states| - 1];
    if |m.states| > 1 {
      assert m.states[|m.states| - 1] == m.states[1..][|m.states| - 2];
    }
  }

  lemma Continues(k: Machine, e: Event, n: Machine)
    requires Ready(k) && Step(k) == Emit(e, n) && Ready(n) && !e.StreamEnd?
    ensures Continue(k) == Continue(n).After([e])
  {
    hide Step;
    ParseStep(k, false);
  }

  lemma Emits(e: Event, n: Machine)
    requires Ready(n) && !e.StreamEnd? && !e.DocumentStart?
    ensures Resume(Emit(e, n), false) == Continue(n).After([e])
    ensures Resume(Emit(e, n), false) == Finish(Single(e, n.env), n)
  {
    assert n == n.(env := n.env);
  }

  lemma ContinueIs(k: Machine, o: Outcome)
    requires Ready(k) && Step(k) == o
    ensures Continue(k) == Resume(o, false)
  {
    hide Step;
    ParseResumes(k, false);
  }

  // One meaning after another.
  lemma Chain(a: Meaning, b: Meaning, k: Machine, target: Machine)
    requires a.verdict.Ok? && Continue(k.(env := a.verdict.value)) == Finish(b, target)
    ensures Finish(a, k) == Finish(Append(a, b), target)
  {
    hide Continue;
    if b.verdict.Ok? {
      var r := Continue(target.(env := b.verdict.value));
      assert a.events + (b.events + r.events) == a.events + b.events + r.events;
    }
  }

  lemma Prefixed(e: Event, mean: Meaning, k: Machine)
    ensures Finish(mean, k).After([e]) == Finish(Prefix(e, mean), k)
  {
    hide Continue;
    if mean.verdict.Ok? {
      var r := Continue(k.(env := mean.verdict.value));
      assert [e] + (mean.events + r.events) == [e] + mean.events + r.events;
    }
  }

  // One meaning after another, unless the first stops.
  lemma ChainBoth(a: Meaning, b: Meaning, k: Machine, target: Machine)
    requires a.verdict.Ok? ==> Continue(k.(env := a.verdict.value)) == Finish(b, target)
    ensures Finish(a, k) == Finish(Both(a, b), target)
  {
    hide Continue;
    if a.verdict.Ok? {
      Chain(a, b, k, target);
    } else {
      Stopped(a, k, target);
    }
  }

  // A meaning brings its own anchors along.
  lemma FinishForgets(a: Meaning, k: Machine, env: Env)
    ensures Finish(a, k.(env := env)) == Finish(a, k)
  {
  }

  lemma Stopped(a: Meaning, k: Machine, target: Machine)
    requires a.verdict.Err?
    ensures Finish(a, k) == Finish(a, target)
  {
  }

  // Whether a run is the one a meaning and the machine behind it make together, `clean` being whether
  // what was written holds no trap; otherwise whether it fails, unless what follows makes up for a
  // bracket that was lost.
  ghost predicate ReadAs(run: Run, clean: bool, mean: Meaning, k: Machine) {
    if clean then run == Finish(mean, k) else Surplus(k) >= 0 ==> run.error.Some?
  }

  lemma ReadsForget(run: Run, clean: bool, a: Meaning, k: Machine, env: Env)
    ensures ReadAs(run, clean, a, k.(env := env)) == ReadAs(run, clean, a, k)
  {
    FinishForgets(a, k, env);
    hide Finish;
  }

  lemma ReadsPrefix(run: Run, clean: bool, e: Event, mean: Meaning, k: Machine)
    requires ReadAs(run, clean, mean, k)
    ensures ReadAs(run.After([e]), clean, Prefix(e, mean), k)
  {
    hide Finish, Surplus;
    Prefixed(e, mean, k);
  }

  // One meaning after another: what follows the first is read when the first is, and ends well.
  lemma ReadsBoth(run: Run, cleanA: bool, a: Meaning, k: Machine, cleanB: bool, b: Meaning, target: Machine)
    requires ReadAs(run, cleanA, a, k) && Surplus(k) == Surplus(target)
    requires a.verdict.Ok? ==> ReadAs(Continue(k.(env := a.verdict.value)), cleanB, b, target)
    ensures ReadAs(run, cleanA && cleanB, Both(a, b), target)
  {
    hide Continue, Surplus;
    if cleanA && cleanB {
      hide Finish;
      ChainBoth(a, b, k, target);
    }
  }

  // ------------------------------------------------------------------ tokens

  // A token that can stand behind a node.
  predicate Closer(t: Token) {
    || t.BlockEntry? || t.BlockEnd? || t.Key? || t.Value? || t.FlowEntry? || t.FlowSequenceEnd? || t.FlowMappingEnd?
    || EndsContent(t)
  }

  // A token a node can begin with.
  predicate Opener(t: Token) {
    || t.Alias? || t.Anchor? || t.Tag? || t.Scalar? || t.BlockSequenceStart? || t.BlockMappingStart?
    || t.FlowSequenceStart? || t.FlowMappingStart?
  }

  lemma WordsBegin(n: Node, inMapping: bool)
    requires !n.Missing? && Blocks(n, inMapping)
    ensures Words(n) != [] && (Opener(Words(n)[0]) || (n.Indentless? && Words(n)[0].BlockEntry?))
  {
    if !n.Reference? {
      var p := PropWords(n.props);
      if p == [] {
        assert n.props.anchor.None? && n.props.tag.None? by {
          PropsShow(n.props);
        }
        assert Words(n) == ContentWords(n);
      } else {
        assert Words(n)[0] == p[0];
      }
    }
  }

  lemma PropsShow(p: Props)
    ensures PropWords(p) == [] <==> p.anchor.None? && p.tag.None?
    ensures PropWords(p) != [] ==> PropWords(p)[0].Anchor? || PropWords(p)[0].Tag?
  {
  }

  lemma FlowsBlock(n: Node)
    requires Flows(n)
    ensures Blocks(n, false)
  {
  }

  // Reading one token.
  lemma SkipOne(k: Machine, t: Token, tail: seq<Token>)
    requires k.toks == [t] + tail
    ensures k.toks != [] && k.toks[0] == t && k.Skip() == k.(toks := tail)
  {
  }

  // ------------------------------------------------------------------ properties

  // What reading the properties `p` in front of `tail` gives.
  ghost predicate PropsRead(p: Props, m: Machine, tail: seq<Token>) {
    match MeanProps(p, m.env)
    case Err(e) => ReadProperties(m) == Err(e)
    case Ok((q, env)) => ReadProperties(m) == Ok((q, m.(toks := tail, env := env)))
  }

  // The parser resolves a tag to what it means.
  lemma TagResolved(tags: map<string, string>, handle: string, suffix: string)
    ensures ResolveTag(tags, handle, suffix) == MeanTag(tags, handle, suffix)
    ensures handle in tags ==> ResolveTag(tags, handle, suffix) == Ok(ResolvedTag(tags[handle], suffix))
    ensures "!!" !in tags ==> ResolveTag(tags, "!!", suffix) == Ok(ResolvedTag("tag:yaml.org,2002:", suffix))
    ensures ResolveTag(tags, handle, suffix) == Err(UndeclaredTagHandle) <==>
              handle !in tags && handle != "!!" && NamedHandle(handle)
    ensures handle !in tags && !NamedHandle(handle) ==>
              ResolveTag(tags, handle, suffix) == Ok(ResolvedTag(handle, suffix))
  {
  }

  lemma AnchorMeans(p: Props, m: Machine, tail: seq<Token>)
    requires p.anchor.Some? && p.tag.None? && m.toks == [Token.Anchor(p.anchor.value)] + tail && tail != [] && !tail[0].Tag?
    ensures PropsRead(p, m, tail)
  {
    SkipOne(m, Token.Anchor(p.anchor.value), tail);
  }

  lemma TagMeans(p: Props, m: Machine, tail: seq<Token>)
    requires p.anchor.None? && p.tag.Some? && m.toks == [Token.Tag(p.tag.value.0, p.tag.value.1)] + tail
    requires tail != [] && !tail[0].Anchor?
    ensures PropsRead(p, m, tail)
  {
    TagResolved(m.env.tags, p.tag.value.0, p.tag.value.1);
    hide ResolveTag, MeanTag;
    SkipOne(m, Token.Tag(p.tag.value.0, p.tag.value.1), tail);
  }

  lemma AnchorTagMeans(p: Props, m: Machine, tail: seq<Token>)
    requires p.anchor.Some? && p.tag.Some?
    requires m.toks == [Token.Anchor(p.anchor.value)] + ([Token.Tag(p.tag.value.0, p.tag.value.1)] + tail)
    ensures PropsRead(p, m, tail)
  {
    TagResolved(m.env.tags, p.tag.value.0, p.tag.value.1);
    hide ResolveTag, MeanTag;
    SkipOne(m, Token.Anchor(p.anchor.value), [Token.Tag(p.tag.value.0, p.tag.value.1)] + tail);
    SkipOne(Register(m.Skip(), p.anchor.value), Token.Tag(p.tag.value.0, p.tag.value.1), tail);
  }

  lemma TagAnchorMeans(p: Props, m: Machine, tail: seq<Token>)
    requires p.anchor.Some? && p.tag.Some?
    requires m.toks == [Token.Tag(p.tag.value.0, p.tag.value.1)] + ([Token.Anchor(p.anchor.value)] + tail)
    ensures PropsRead(p, m, tail)
  {
    TagResolved(m.env.tags, p.tag.value.0, p.tag.value.1);
    hide ResolveTag, MeanTag;
    SkipOne(m, Token.Tag(p.tag.value.0, p.tag.value.1), [Token.Anchor(p.anchor.value)] + tail);
    SkipOne(m.Skip(), Token.Anchor(p.anchor.value), tail);
  }

  lemma PropsMean(p: Props, m: Machine, tail: seq<Token>)
    requires m.toks == PropWords(p) + tail && tail != [] && !tail[0].Anchor? && !tail[0].Tag?
    ensures PropsRead(p, m, tail)
  {
    hide ReadProperties, MeanProps, PropsRead;
    if p.anchor.None? && p.tag.None? {
      assert PropWords(p) == [] && m.toks == tail;
      NoPropsMean(p, m);
    } else if p.anchor.None? {
      assert PropWords(p) == [Token.Tag(p.tag.value.0, p.tag.value.1)];
      TagMeans(p, m, tail);
    } else if p.tag.None? {
      assert PropWords(p) == [Token.Anchor(p.anchor.value)];
      AnchorMeans(p, m, tail);
    } else if p.tagFirst {
      assert PropWords(p) + tail == [Token.Tag(p.tag.value.0, p.tag.value.1)] + ([Token.Anchor(p.anchor.value)] + tail);
      TagAnchorMeans(p, m, tail);
    } else {
      assert PropWords(p) + tail == [Token.Anchor(p.anchor.value)] + ([Token.Tag(p.tag.value.0, p.tag.value.1)] + tail);
      AnchorTagMeans(p, m, tail);
    }
  }

  lemma NoPropsMean(p: Props, m: Machine)
    requires p.anchor.None? && p.tag.None? && m.toks != [] && !m.toks[0].Anchor? && !m.toks[0].Tag?
    ensures PropsRead(p, m, m.toks)
  {
    assert m == m.(toks := m.toks, env := m.env);
  }

  // ------------------------------------------------------------------ nodes

  // Where a node is read: its words are next, and what follows them can follow a node.
  predicate Stands(n: Node, words: seq<Token>, m: Machine, rest: seq<Token>, block: bool, indentless: bool) {
    && Inside(m) && m.toks == words + rest && rest != [] && Closer(rest[0])
    && (if block then Blocks(n, indentless) else Flows(n) && !indentless)
    && (indentless ==> EndsBlockNode(rest[0]))
  }

  lemma Stood(n: Node, indentless: bool)
    requires Flows(n) || Blocks(n, indentless)
    ensures Blocks(n, true)
  {
    if Flows(n) { FlowsBlock(n); }
  }

  lemma ContentBegins(n: Node, rest: seq<Token>)
    requires Blocks(n, true) && !n.Missing? && !n.Reference? && rest != [] && Closer(rest[0])
    ensures var words := ContentWords(n) + rest; words != [] && !words[0].Anchor? && !words[0].Tag? && !words[0].Alias?
  {
  }

  // The first token of a node decides that it is no alias.
  lemma NoAlias(n: Node, m: Machine, rest: seq<Token>)
    requires Blocks(n, true) && !n.Missing? && !n.Reference? && rest != [] && Closer(rest[0])
    requires m.toks == Words(n) + rest
    ensures m.toks != [] && !m.toks[0].Alias? && m.toks == PropWords(n.props) + (ContentWords(n) + rest)
  {
    hide PropWords, ContentWords, Blocks;
    PropsShow(n.props);
    ContentBegins(n, rest);
    Grouped(PropWords(n.props), ContentWords(n), rest);
    HeadOf(PropWords(n.props), ContentWords(n) + rest);
  }

  lemma HeadOf(a: seq<Token>, b: seq<Token>)
    requires b != []
    ensures a + b != [] && (a + b)[0] == if a == [] then b[0] else a[0]
  {
  }

  lemma PropsKeepNumbering(p: Props, env: Env)
    requires MeanProps(p, env).Ok?
    ensures MeanProps(p, env).value.1.nextAnchor >= env.nextAnchor
  {
  }

  lemma NodeMeans(n: Node, m: Machine, rest: seq<Token>, block: bool, indentless: bool)
    requires Stands(n, Words(n), m, rest, block, indentless) && !n.Missing?
    ensures ReadAs(Resume(OnNode(m, block, indentless), false), Clean(n),
                  Mean(n, m.env, true), m.Pop().(toks := rest))
    decreases n, 3
  {
    hide Resumables, OnNode, Resume, Machine.Valid, Words, Mean, Blocks, Flows, Finish, Clean, Surplus, ReadAs, MeanTag, ResolveTag, PropWords;
    var target := m.Pop().(toks := rest);
    if n.Reference? {
      ReferenceMeans(n, m, rest, block, indentless);
      ReadsSame(Resume(OnNode(m, block, indentless), false), n, m.env, target);
    } else {
      Stood(n, indentless);
      NoAlias(n, m, rest);
      ContentBegins(n, rest);
      PropsMean(n.props, m, ContentWords(n) + rest);
      PropertiesFirst(n, m, rest, block, indentless);
      if MeanProps(n.props, m.env).Err? {
        ReadsSame(Resume(OnNode(m, block, indentless), false), n, m.env, target);
      } else {
        var (q, env) := MeanProps(n.props, m.env).value;
        PropsKeepNumbering(n.props, m.env);
        if n.Bare? { BareOrNot(n, m.env, indentless); }
        ContentMeans(n, m.(toks := ContentWords(n) + rest, env := env), q, rest, block, indentless);
        ReadsForget(Resume(OnNode(m, block, indentless), false), Clean(n), MeanContent(n, q, env, true), m.Pop().(toks := rest), env);
      }
    }
  }

  // A run that is the node's meaning, the node being clean or the run having failed.
  lemma ReadsSame(run: Run, n: Node, env: Env, k: Machine)
    requires run == Finish(Mean(n, env, true), k) && (n.Reference? || run.error.Some?)
    ensures ReadAs(run, Clean(n), Mean(n, env, true), k)
  {
    hide Finish, Mean, Surplus;
  }

  lemma ReferenceMeans(n: Node, m: Machine, rest: seq<Token>, block: bool, indentless: bool)
    requires Inside(m) && n.Reference? && m.toks == Words(n) + rest
    ensures Resume(OnNode(m, block, indentless), false) == Finish(Mean(n, m.env, true), m.Pop().(toks := rest))
  {
    hide Resumables, ReadProperties, Machine.Valid, Continue;
    SkipOne(m, Token.Alias(n.name), rest);
    Back(m, rest);
    if n.name in m.env.anchors {
      Emits(Event.Alias(AnchorRef(m.env.anchors[n.name], Some(n.name))), m.Pop().(toks := rest));
    }
  }

  // Properties read first, then what they belong to.
  lemma PropertiesFirst(n: Node, m: Machine, rest: seq<Token>, block: bool, indentless: bool)
    requires m.states != [] && !n.Missing? && !n.Reference? && m.toks != [] && !m.toks[0].Alias?
    requires PropsRead(n.props, m, ContentWords(n) + rest)
    ensures MeanProps(n.props, m.env).Err? ==>
              && Resume(OnNode(m, block, indentless), false) == Run([], Some(MeanProps(n.props, m.env).error))
              && Finish(Mean(n, m.env, true), m.Pop().(toks := rest)) == Run([], Some(MeanProps(n.props, m.env).error))
    ensures MeanProps(n.props, m.env).Ok? ==>
              var q, env := MeanProps(n.props, m.env).value.0, MeanProps(n.props, m.env).value.1;
              && OnNode(m, block, indentless) ==
                 NodeContent(m.(toks := ContentWords(n) + rest, env := env), q, block, indentless)
              && Mean(n, m.env, true) == MeanContent(n, q, env, true)
  {
    hide NodeContent, ReadProperties, MeanContent, ContentWords, MeanProps;
  }

  lemma BareOrNot(n: Node, env: Env, indentless: bool)
    requires n.Bare? && env.nextAnchor >= 1 && (Flows(n) || Blocks(n, indentless)) && MeanProps(n.props, env).Ok?
    ensures var q := MeanProps(n.props, env).value.0; q.tag.Some? || q.anchor.id > 0
  {
  }

  // The part of a node behind its properties.
  lemma ContentMeans(n: Node, m: Machine, p: Properties, rest: seq<Token>, block: bool, indentless: bool)
    requires Stands(n, ContentWords(n), m, rest, block, indentless) && !n.Missing? && !n.Reference?
    requires n.Bare? ==> p.tag.Some? || p.anchor.id > 0
    ensures ReadAs(Resume(NodeContent(m, p, block, indentless), false), Clean(n),
                  MeanContent(n, p, m.env, true), m.Pop().(toks := rest))
    decreases n, 2
  {
    hide Resumables, RunFrom, Machine.Valid, Continue, Surplus;
    var target := m.Pop().(toks := rest);
    Back(m, rest);
    match n
    case Text(_, style, value) =>
      SkipOne(m, Token.Scalar(style, value), rest);
      Emits(Event.Scalar(value, style, p.anchor, p.tag), target);
    case Bare(_) =>
      assert m.toks == rest;
      Emits(Event.Scalar("", ScalarStyle.Plain, p.anchor, p.tag), target);
    case BlockSeq(_, items) => BlockSeqMeans(items, m, p, rest, indentless);
    case Indentless(_, items) => IndentlessMeans(items, m, p, rest);
    case BlockMap(_, entries) => BlockMapMeans(entries, m, p, rest, indentless);
    case FlowSeq(_, cells) => FlowSeqMeans(cells, m, p, rest, block, indentless);
    case FlowMap(_, members) => FlowMapMeans(members, m, p, rest, block, indentless);
  }

  // A node in a nested position.
  lemma NestedMeans(n: Node, k: Machine, back: State, rest: seq<Token>, block: bool, indentless: bool)
    requires Resumable(back) && Stands(n, Words(n), k, rest, block, indentless) && !n.Missing?
    ensures ReadAs(Resume(Nested(k, back, block, indentless), false), Clean(n),
                  Mean(n, k.env, true), k.(state := back, toks := rest))
    decreases n, 4
  {
    hide Resumables, RunFrom, Machine.Valid, Continue, OnNode, Words, Blocks, Flows;
    PushStacked(k, back);
    NodeMeans(n, k.Push(back), rest, block, indentless);
    assert k.Push(back).Pop() == k.Goto(back) by {
      assert k.Push(back).states[..|k.states|] == k.states;
    }
  }

  // The first token in a place for a node: the node's, or what follows when nothing is written.
  lemma WordsOrTail(n: Node, inMapping: bool, tail: seq<Token>)
    requires Blocks(n, inMapping) && tail != []
    ensures var words := Words(n) + tail;
            if n.Missing? then words == tail
            else words != [] && (Opener(words[0]) || (n.Indentless? && inMapping && words[0].BlockEntry?))
  {
    hide Words, Blocks, Flows;
    if n.Missing? {
      MissingWords(tail);
    } else {
      WordsBegin(n, inMapping);
      if n.Indentless? { IndentlessPlace(n, inMapping); }
    }
  }

  lemma MissingWords(tail: seq<Token>)
    ensures Words(Missing) + tail == tail
  {
  }

  lemma IndentlessPlace(n: Node, inMapping: bool)
    requires n.Indentless? && Blocks(n, inMapping)
    ensures inMapping
  {
  }

  // A place where a node may be left out: null, or the node.
  lemma PlacedMeans(n: Node, k: Machine, o: Outcome, back: State, tail: seq<Token>, block: bool, indentless: bool)
    requires Inside(k) && Resumable(back) && tail != [] && Closer(tail[0])
    requires if block then Blocks(n, indentless) else Flows(n) && !indentless
    requires indentless ==> EndsBlockNode(tail[0])
    requires o == if n.Missing? then Emit(NullScalar(), k.(state := back, toks := tail))
                  else Nested(k.(toks := Words(n) + tail), back, block, indentless)
    ensures ReadAs(Resume(o, false), Clean(n),
                  Mean(n, k.env, true), k.(state := back, toks := tail))
    decreases n, 5
  {
    hide Resumables, RunFrom, Continue, Machine.Valid, Nested, Blocks, Flows, Words, Resume;
    var target := k.(state := back, toks := tail);
    ReadyAt(target);
    if n.Missing? {
      Emits(NullScalar(), target);
    } else {
      NestedMeans(n, k.(toks := Words(n) + tail), back, tail, block, indentless);
    }
  }

  // The state a node is read in leaves no trace.
  lemma PropertiesForget(m: Machine, s: State)
    ensures match ReadProperties(m)
            case Err(e) => ReadProperties(m.Goto(s)) == Err(e)
            case Ok((p, n)) => ReadProperties(m.Goto(s)) == Ok((p, n.Goto(s)))
  {
    hide ResolveTag;
  }

  lemma ContentForgets(m: Machine, p: Properties, s: State, block: bool, indentless: bool)
    requires m.states != []
    ensures NodeContent(m.Goto(s), p, block, indentless) == NodeContent(m, p, block, indentless)
  {
    assert m.Goto(s).Pop() == m.Pop();
  }

  lemma OnNodeForgets(m: Machine, s: State, block: bool, indentless: bool)
    requires m.states != []
    ensures OnNode(m.Goto(s), block, indentless) == OnNode(m, block, indentless)
  {
    hide ReadProperties, NodeContent;
    PropertiesForget(m, s);
    assert m.Goto(s).Pop() == m.Pop();
    if ReadProperties(m).Ok? {
      var (p, n) := ReadProperties(m).value;
      ContentForgets(n, p, s, block, indentless);
    }
  }

  lemma NestedForgets(m: Machine, s: State, back: State, block: bool, indentless: bool)
    ensures Nested(m.Goto(s), back, block, indentless) == Nested(m, back, block, indentless)
  {
    hide OnNode;
    OnNodeForgets(m.Push(back), s, block, indentless);
    assert m.Goto(s).Push(back) == m.Push(back).Goto(s);
  }

  // Where a collection opens: nothing changes but the state.
  lemma Opened(m: Machine, e: Event, state: State, clean: bool, mean: Meaning, rest: seq<Token>)
    requires Inside(m) && !TopLevel(state) && !e.StreamEnd? && !e.DocumentStart?
    requires ReadAs(Continue(m.Goto(state)), clean, mean, m.Pop().(toks := rest))
    ensures ReadAs(Resume(Emit(e, m.Goto(state)), false), clean, Prefix(e, mean), m.Pop().(toks := rest))
  {
    hide Continue, Resumables, ReadAs;
    Emits(e, m.Goto(state));
    ReadsPrefix(Continue(m.Goto(state)), clean, e, mean, m.Pop().(toks := rest));
  }

  // No bracket is open between `k` and what it comes back to.
  lemma SameSurplus(k: Machine, rest: seq<Token>)
    requires Inside(k) && !OpensUnseen(k.state) && (if InSequence(k.state) then 1 else 0) + Bal(k.toks) == Bal(rest)
    ensures Surplus(k) == Surplus(k.Pop().(toks := rest))
  {
    PopSurplus(k.(toks := rest));
    assert k.(toks := rest).Pop() == k.Pop().(toks := rest);
  }

  lemma EndedEven(words: seq<Token>, end: Token, rest: seq<Token>)
    requires Even(end) && Bal(words + ([end] + rest)) == Bal([end] + rest)
    ensures Bal(words + ([end] + rest)) == Bal(rest)
  {
    EvenFirst(end, rest);
  }

  // ------------------------------------------------------------------ block sequences

  lemma BlockSeqMeans(items: Items, m: Machine, p: Properties, rest: seq<Token>, indentless: bool)
    requires Inside(m) && ItemsBlock(items) && rest != []
    requires m.toks == [BlockSequenceStart] + (ItemWords(items) + [BlockEnd]) + rest
    ensures ReadAs(Resume(NodeContent(m, p, true, indentless), false), CleanItems(items),
                  Prefix(SequenceStart(p.anchor, p.tag, Block), MeanItems(items, m.env, true)), m.Pop().(toks := rest))
    decreases items, 2
  {
    hide Resumables, RunFrom, Continue, Machine.Valid, Resume, ItemWords, MeanItems;
    var toks := ItemWords(items) + ([BlockEnd] + rest);
    assert m.toks == [BlockSequenceStart] + toks;
    SkipOne(m, BlockSequenceStart, toks);
    var next := m.(state := BlockSequenceEntry, toks := toks);
    FirstBlockEntry(m.Goto(BlockSequenceFirstEntry), next);
    BlockItemsMean(items, next, rest);
    Opened(m, SequenceStart(p.anchor, p.tag, Block), BlockSequenceFirstEntry, CleanItems(items), MeanItems(items, m.env, true), rest);
  }

  lemma FirstBlockEntry(first: Machine, next: Machine)
    requires Inside(first) && first.state.BlockSequenceFirstEntry? && first.toks != []
    requires next == first.Skip().Goto(BlockSequenceEntry)
    ensures Continue(first) == Continue(next)
  {
    hide RunFrom, Nested;
    var k := first.Skip();
    if k.toks != [] && k.toks[0].BlockEntry? {
      NestedForgets(k.Skip(), BlockSequenceEntry, BlockSequenceEntry, true, false);
      assert k.Skip().Goto(BlockSequenceEntry) == next.Skip();
    }
    ContinueIs(first, OnBlockSequenceEntry(first, true));
    ContinueIs(next, OnBlockSequenceEntry(next, false));
  }

  lemma {:induction false} BlockItemsMean(items: Items, k: Machine, rest: seq<Token>)
    requires Inside(k) && ItemsBlock(items) && rest != []
    requires k.state.BlockSequenceEntry? && k.toks == ItemWords(items) + ([BlockEnd] + rest)
    ensures ReadAs(Continue(k), CleanItems(items),
                  MeanItems(items, k.env, true), k.Pop().(toks := rest))
    decreases items, 1
  {
    hide Resumables, RunFrom, Continue, Resume, Machine.Valid, Nested, Words, Mean, Blocks, Flows, Finish, MeanItems;
    if items.NoItems? {
      NoItemsMean(k, rest);
      MeanItemsParts(items, k.env);
    } else {
      var tail := ItemWords(items.tail) + ([BlockEnd] + rest);
      assert k.toks == [BlockEntry] + (Words(items.head) + tail);
      ItemsClose(items.tail, rest);
      BlockItemMeans(items.head, k, tail);
      ItemsEven(items.tail, [BlockEnd] + rest);
      EndedEven(ItemWords(items.tail), BlockEnd, rest);
      var a := Mean(items.head, k.env, true);
      if a.verdict.Ok? {
        BlockItemsMean(items.tail, k.(toks := tail, env := a.verdict.value), rest);
      }
      ItemsChain(Continue(k), items, k, k.(toks := tail), rest);
    }
  }

  lemma NoItemsMean(k: Machine, rest: seq<Token>)
    requires Inside(k) && k.state.BlockSequenceEntry? && k.toks == [BlockEnd] + rest
    ensures Continue(k) == Finish(Single(SequenceEnd, k.env), k.Pop().(toks := rest))
  {
    hide Resumables, RunFrom, Continue, Resume, Machine.Valid, Nested, Finish;
    ReadyAt(k);
    SkipOne(k, BlockEnd, rest);
    Back(k, rest);
    ContinueIs(k, OnBlockSequenceEntry(k, false));
    Emits(SequenceEnd, k.Pop().(toks := rest));
  }

  lemma MeanItemsParts(items: Items, env: Env)
    ensures items.NoItems? ==> MeanItems(items, env, true) == Single(SequenceEnd, env)
    ensures items.Items? ==>
              var a := Mean(items.head, env, true);
              MeanItems(items, env, true) == Both(a, if a.verdict.Err? then a else MeanItems(items.tail, a.verdict.value, true))
  {
    hide Mean;
  }

  // The first item and the rest, read from `next` on.
  lemma ItemsChain(run: Run, items: Items, k: Machine, next: Machine, rest: seq<Token>)
    requires items.Items? && Inside(k) && next == k.(toks := next.toks) && Bal(next.toks) == Bal(rest)
    requires !InSequence(k.state) && !OpensUnseen(k.state)
    requires ReadAs(run, Clean(items.head), Mean(items.head, k.env, true), next)
    requires var a := Mean(items.head, k.env, true);
             a.verdict.Ok? ==>
               ReadAs(Continue(next.(env := a.verdict.value)), CleanItems(items.tail),
                     MeanItems(items.tail, a.verdict.value, true), k.(env := a.verdict.value).Pop().(toks := rest))
    ensures ReadAs(run, CleanItems(items), MeanItems(items, k.env, true), k.Pop().(toks := rest))
  {
    hide Continue, Mean, MeanItems, ReadAs, Surplus;
    var a := Mean(items.head, k.env, true);
    var b := if a.verdict.Err? then a else MeanItems(items.tail, a.verdict.value, true);
    var target := k.Pop().(toks := rest);
    MeanItemsParts(items, k.env);
    SameSurplus(next, rest);
    if a.verdict.Ok? {
      ReadsForget(Continue(next.(env := a.verdict.value)), CleanItems(items.tail), b, target, a.verdict.value);
    }
    ReadsBoth(run, Clean(items.head), a, next, CleanItems(items.tail), b, target);
  }

  lemma ReadyAt(k: Machine)
    requires Inside(k) && !TopLevel(k.state)
    ensures Ready(k)
  {
  }

  lemma ItemsClose(items: Items, rest: seq<Token>)
    ensures var tail := ItemWords(items) + ([BlockEnd] + rest); tail != [] && (tail[0].BlockEntry? || tail[0].BlockEnd?)
  {
  }

  lemma BlockEntrySteps(k: Machine, tail: seq<Token>)
    requires Ready(k) && Inside(k) && k.state.BlockSequenceEntry? && tail != [] && k.toks == [BlockEntry] + tail
    ensures Step(k) == if tail[0].BlockEntry? || tail[0].BlockEnd? then Emit(NullScalar(), k.(toks := tail))
                       else Nested(k.(toks := tail), BlockSequenceEntry, true, false)
  {
    hide Nested, Resumables;
    SkipOne(k, BlockEntry, tail);
  }

  // One entry of a block sequence, behind its `-`.
  lemma BlockItemMeans(n: Node, k: Machine, tail: seq<Token>)
    requires Inside(k) && k.state.BlockSequenceEntry? && Blocks(n, false)
    requires k.toks == [BlockEntry] + (Words(n) + tail)
    requires tail != [] && (tail[0].BlockEntry? || tail[0].BlockEnd?)
    ensures ReadAs(Continue(k), Clean(n),
                  Mean(n, k.env, true), k.(toks := tail))
    decreases n, 6
  {
    hide Resumables, Continue, Resume, Machine.Valid, Nested, Blocks, Flows, Step, Finish, Mean;
    ReadyAt(k);
    WordsOrTail(n, false, tail);
    BlockEntrySteps(k, Words(n) + tail);
    ContinueIs(k, Step(k));
    PlacedMeans(n, k, Step(k), BlockSequenceEntry, tail, true, false);
  }

  lemma IndentlessMeans(items: Items, m: Machine, p: Properties, rest: seq<Token>)
    requires Inside(m) && ItemsBlock(items) && items.Items? && rest != [] && EndsBlockNode(rest[0])
    requires m.toks == ItemWords(items) + rest
    ensures ReadAs(Resume(NodeContent(m, p, true, true), false), CleanItems(items),
                  Prefix(SequenceStart(p.anchor, p.tag, Block), MeanItems(items, m.env, true)), m.Pop().(toks := rest))
    decreases items, 2
  {
    hide Resumables, RunFrom, Continue, Machine.Valid, Resume, MeanItems;
    IndentlessItemsMean(items, m.Goto(State.IndentlessSequenceEntry), rest);
    Opened(m, SequenceStart(p.anchor, p.tag, Block), State.IndentlessSequenceEntry, CleanItems(items), MeanItems(items, m.env, true), rest);
  }

  lemma {:induction false} IndentlessItemsMean(items: Items, k: Machine, rest: seq<Token>)
    requires Inside(k) && ItemsBlock(items) && rest != [] && EndsBlockNode(rest[0])
    requires k.state.IndentlessSequenceEntry? && k.toks == ItemWords(items) + rest
    ensures ReadAs(Continue(k), CleanItems(items),
                  MeanItems(items, k.env, true), k.Pop().(toks := rest))
    decreases items, 1
  {
    hide Resumables, RunFrom, Continue, Resume, Machine.Valid, Nested, Words, Mean, Blocks, Flows, Finish, MeanItems;
    if items.NoItems? {
      assert k.toks == rest;
      NoMoreItemsMean(k, rest);
      MeanItemsParts(items, k.env);
    } else {
      var tail := ItemWords(items.tail) + rest;
      assert k.toks == [BlockEntry] + (Words(items.head) + tail);
      assert tail != [] && (tail[0].BlockEntry? || EndsBlockNode(tail[0]));
      IndentlessItemMeans(items.head, k, tail);
      ItemsEven(items.tail, rest);
      var a := Mean(items.head, k.env, true);
      if a.verdict.Ok? {
        IndentlessItemsMean(items.tail, k.(toks := tail, env := a.verdict.value), rest);
      }
      ItemsChain(Continue(k), items, k, k.(toks := tail), rest);
    }
  }

  lemma NoMoreItemsMean(k: Machine, rest: seq<Token>)
    requires Inside(k) && k.state.IndentlessSequenceEntry? && k.toks == rest && rest != [] && EndsBlockNode(rest[0])
    ensures Continue(k) == Finish(Single(SequenceEnd, k.env), k.Pop().(toks := rest))
  {
    hide Resumables, RunFrom, Continue, Resume, Machine.Valid, Nested, Finish;
    ReadyAt(k);
    Back(k, rest);
    ContinueIs(k, OnIndentlessSequenceEntry(k));
    Emits(SequenceEnd, k.Pop().(toks := rest));
  }

  lemma IndentlessSteps(k: Machine, tail: seq<Token>)
    requires Ready(k) && Inside(k) && k.state.IndentlessSequenceEntry? && tail != [] && k.toks == [BlockEntry] + tail
    ensures Step(k) == if tail[0].BlockEntry? || EndsBlockNode(tail[0]) then Emit(NullScalar(), k.(toks := tail))
                       else Nested(k.(toks := tail), State.IndentlessSequenceEntry, true, false)
  {
    hide Nested, Resumables;
    SkipOne(k, BlockEntry, tail);
  }

  lemma IndentlessItemMeans(n: Node, k: Machine, tail: seq<Token>)
    requires Inside(k) && k.state.IndentlessSequenceEntry? && Blocks(n, false)
    requires k.toks == [BlockEntry] + (Words(n) + tail)
    requires tail != [] && (tail[0].BlockEntry? || EndsBlockNode(tail[0]))
    ensures ReadAs(Continue(k), Clean(n),
                  Mean(n, k.env, true), k.(toks := tail))
    decreases n, 6
  {
    hide Resumables, Continue, Resume, Machine.Valid, Nested, Blocks, Flows, Step, Finish, Mean;
    ReadyAt(k);
    WordsOrTail(n, false, tail);
    IndentlessSteps(k, Words(n) + tail);
    ContinueIs(k, Step(k));
    PlacedMeans(n, k, Step(k), State.IndentlessSequenceEntry, tail, true, false);
  }

  // ------------------------------------------------------------------ block mappings

  // The key half and the value half of what was written, each behind its token.
  function KeyPart(half: Halves, key: seq<Token>): seq<Token> {
    if half.ValueOnly? then [] else [Key] + key
  }

  function ValuePart(half: Halves, value: seq<Token>): seq<Token> {
    if half.KeyOnly? then [] else [Value] + value
  }

  lemma ValueEven(half: Halves, n: Node, rest: seq<Token>)
    ensures Bal(ValuePart(half, Words(n)) + rest) == Bal(rest)
  {
    hide Words;
    if half.KeyOnly? {
      assert ValuePart(half, Words(n)) + rest == rest;
    } else {
      Grouped([Value], Words(n), rest);
      EvenFirst(Value, Words(n) + rest);
      WordsEven(n, rest);
    }
  }

  lemma HalvesParted(half: Halves, key: seq<Token>, value: seq<Token>, tail: seq<Token>)
    ensures HalfWords(half, key, value) + tail == KeyPart(half, key) + (ValuePart(half, value) + tail)
  {
    Grouped(KeyPart(half, key), ValuePart(half, value), tail);
    HalvesJoined(half, key, value);
  }

  lemma Grouped(a: seq<Token>, b: seq<Token>, c: seq<Token>)
    ensures a + b + c == a + (b + c)
  {
  }

  lemma HalvesJoined(half: Halves, key: seq<Token>, value: seq<Token>)
    ensures HalfWords(half, key, value) == KeyPart(half, key) + ValuePart(half, value)
  {
    if half.KeyAndValue? {
      Grouped([Key], key, [Value] + value);
    } else if half.KeyOnly? {
      assert [Key] + key + [] == [Key] + key;
    } else {
      assert [] + ([Value] + value) == [Value] + value;
    }
  }

  lemma BlockMapMeans(entries: Entries, m: Machine, p: Properties, rest: seq<Token>, indentless: bool)
    requires Inside(m) && EntriesBlock(entries) && rest != []
    requires m.toks == [BlockMappingStart] + (EntryWords(entries) + [BlockEnd]) + rest
    ensures ReadAs(Resume(NodeContent(m, p, true, indentless), false), CleanEntries(entries),
                  Prefix(MappingStart(p.anchor, p.tag, Block), MeanEntries(entries, m.env, true)), m.Pop().(toks := rest))
    decreases entries, 3
  {
    hide Resumables, RunFrom, Continue, Machine.Valid, Resume, EntryWords, MeanEntries;
    var toks := EntryWords(entries) + ([BlockEnd] + rest);
    assert m.toks == [BlockMappingStart] + toks;
    SkipOne(m, BlockMappingStart, toks);
    var next := m.(state := BlockMappingKey, toks := toks);
    FirstBlockKey(m.Goto(BlockMappingFirstKey), next);
    EntriesMean(entries, next, rest);
    Opened(m, MappingStart(p.anchor, p.tag, Block), BlockMappingFirstKey, CleanEntries(entries), MeanEntries(entries, m.env, true), rest);
  }

  lemma FirstBlockKey(first: Machine, next: Machine)
    requires Inside(first) && first.state.BlockMappingFirstKey? && first.toks != []
    requires next == first.Skip().Goto(BlockMappingKey)
    ensures Continue(first) == Continue(next)
  {
    hide RunFrom, Nested;
    var k := first.Skip();
    if k.toks != [] && k.toks[0].Key? {
      NestedForgets(k.Skip(), BlockMappingKey, BlockMappingValue, true, true);
      assert k.Skip().Goto(BlockMappingKey) == next.Skip();
    }
    ContinueIs(first, OnBlockMappingKey(first, true));
    ContinueIs(next, OnBlockMappingKey(next, false));
  }

  lemma EntriesClose(entries: Entries, rest: seq<Token>)
    ensures var tail := EntryWords(entries) + ([BlockEnd] + rest);
            && tail != [] && EndsBlockNode(tail[0])
            && (tail[0].Value? ==> entries.Entries? && entries.half.ValueOnly?)
  {
  }

  lemma EntriesMean(entries: Entries, k: Machine, rest: seq<Token>)
    requires Inside(k) && EntriesBlock(entries) && rest != []
    requires k.state.BlockMappingKey? && k.toks == EntryWords(entries) + ([BlockEnd] + rest)
    ensures ReadAs(Continue(k), CleanEntries(entries),
                  MeanEntries(entries, k.env, true), k.Pop().(toks := rest))
    decreases entries, 2
  {
    hide Resumables, RunFrom, Continue, Finish, Words, Mean, Blocks, HalfWords;
    if entries.NoEntries? {
      NoEntriesMean(k, rest);
    } else {
      EntryMeans(entries, k, rest);
    }
  }

  lemma NoEntriesMean(k: Machine, rest: seq<Token>)
    requires Inside(k) && k.state.BlockMappingKey? && k.toks == [BlockEnd] + rest
    ensures Continue(k) == Finish(Single(MappingEnd, k.env), k.Pop().(toks := rest))
  {
    hide Resumables, RunFrom, Continue, Resume, Machine.Valid, Nested, Finish;
    ReadyAt(k);
    SkipOne(k, BlockEnd, rest);
    Back(k, rest);
    ContinueIs(k, OnBlockMappingKey(k, false));
    Emits(MappingEnd, k.Pop().(toks := rest));
  }

  lemma EntryMeans(e: Entries, k: Machine, rest: seq<Token>)
    requires Inside(k) && EntriesBlock(e) && rest != [] && e.Entries?
    requires k.state.BlockMappingKey? && k.toks == EntryWords(e) + ([BlockEnd] + rest)
    ensures ReadAs(Continue(k), CleanEntries(e),
                  MeanEntries(e, k.env, true), k.Pop().(toks := rest))
    decreases e, 1
  {
    hide Resumables, Continue, Machine.Valid, Words, Blocks, Flows, HalfWords, KeyPart, Mean, MeanEntries, Finish, ReadAs,
      Surplus, Bal, EntryRest, Both;
    var tail := EntryWords(e.tail) + ([BlockEnd] + rest);
    var values := ValuePart(e.half, Words(e.value)) + tail;
    EntriesClose(e.tail, rest);
    HalvesParted(e.half, Words(e.key), Words(e.value), tail);
    assert k.toks == HalfWords(e.half, Words(e.key), Words(e.value)) + tail;
    BlockKeyMeans(e.half, e.key, k, values);
    var a := Mean(e.key, k.env, true);
    var kv := k.(state := BlockMappingValue, toks := values);
    var b := EntryRest(e, a);
    var target := k.Pop().(toks := rest);
    EntrySurplus(e, kv, tail, rest);
    if a.verdict.Ok? {
      EntryRestMeans(e, kv.(env := a.verdict.value), tail, rest, a);
      ReadsForget(Continue(kv.(env := a.verdict.value)), Clean(e.value) && CleanEntries(e.tail), b, target, a.verdict.value);
    }
    ReadsBoth(Continue(k), Clean(e.key), a, kv, Clean(e.value) && CleanEntries(e.tail), b, target);
    EntryParts(e, k.env);
  }

  // The value and the entries behind it close what they open.
  lemma EntrySurplus(e: Entries, kv: Machine, tail: seq<Token>, rest: seq<Token>)
    requires e.Entries? && EntriesBlock(e) && kv.state.BlockMappingValue? && Inside(kv)
    requires tail == EntryWords(e.tail) + ([BlockEnd] + rest) && kv.toks == ValuePart(e.half, Words(e.value)) + tail
    ensures Surplus(kv) == Surplus(kv.Pop().(toks := rest))
  {
    hide Machine.Valid, Words, EntryWords, Surplus, Blocks, ValuePart, Bal;
    EntriesEven(e.tail, [BlockEnd] + rest);
    EndedEven(EntryWords(e.tail), BlockEnd, rest);
    ValueEven(e.half, e.value, tail);
    SameSurplus(kv, rest);
  }

  // What an entry means behind its key.
  function EntryRest(e: Entries, a: Meaning): Meaning
    requires e.Entries?
  {
    if a.verdict.Err? then a
    else
      var b := Mean(e.value, a.verdict.value, true);
      Both(b, if b.verdict.Err? then b else MeanEntries(e.tail, b.verdict.value, true))
  }

  lemma EntryParts(e: Entries, env: Env)
    requires e.Entries?
    ensures MeanEntries(e, env, true) == Both(Mean(e.key, env, true), EntryRest(e, Mean(e.key, env, true)))
  {
    hide Mean;
  }

  lemma EntryRestMeans(e: Entries, k: Machine, tail: seq<Token>, rest: seq<Token>, a: Meaning)
    requires Inside(k) && EntriesBlock(e) && rest != [] && e.Entries?
    requires k.state.BlockMappingValue? && k.toks == ValuePart(e.half, Words(e.value)) + tail
    requires tail == EntryWords(e.tail) + ([BlockEnd] + rest) && a.verdict == Ok(k.env)
    ensures ReadAs(Continue(k), Clean(e.value) && CleanEntries(e.tail),
                  EntryRest(e, a), k.Pop().(toks := rest))
    decreases e, 0
  {
    hide Resumables, Continue, Machine.Valid, Words, Blocks, Flows, ValuePart, Mean, MeanEntries, Finish, EntryWords;
    EntriesClose(e.tail, rest);
    BlockValueMeans(e.half, e.value, k, tail);
    var b := Mean(e.value, k.env, true);
    var k2 := k.(state := BlockMappingKey, toks := tail);
    var target := k.Pop().(toks := rest);
    EntriesEven(e.tail, [BlockEnd] + rest);
    EndedEven(EntryWords(e.tail), BlockEnd, rest);
    SameSurplus(k2, rest);
    var c := if b.verdict.Err? then b else MeanEntries(e.tail, b.verdict.value, true);
    if b.verdict.Ok? {
      EntriesMean(e.tail, k2.(env := b.verdict.value), rest);
      ReadsForget(Continue(k2.(env := b.verdict.value)), CleanEntries(e.tail), c, target, b.verdict.value);
    }
    ReadsBoth(Continue(k), Clean(e.value), b, k2, CleanEntries(e.tail), c, target);
  }

  // A step onto a token, and what stands behind it.
  lemma BlockKeySteps(k: Machine, tail: seq<Token>)
    requires Ready(k) && Inside(k) && k.state.BlockMappingKey? && tail != [] && k.toks == [Key] + tail
    ensures Step(k) == if EndsBlockNode(tail[0]) then Emit(NullScalar(), k.(state := BlockMappingValue, toks := tail))
                       else Nested(k.(toks := tail), BlockMappingValue, true, true)
  {
    hide Nested, Resumables;
    SkipOne(k, Key, tail);
  }

  lemma BlockValueSteps(k: Machine, tail: seq<Token>)
    requires Ready(k) && Inside(k) && k.state.BlockMappingValue? && tail != [] && k.toks == [Value] + tail
    ensures Step(k) == if EndsBlockNode(tail[0]) then Emit(NullScalar(), k.(state := BlockMappingKey, toks := tail))
                       else Nested(k.(toks := tail), BlockMappingKey, true, true)
  {
    hide Nested, Resumables;
    SkipOne(k, Value, tail);
  }

  // Without the token there is no node: the mapping moves on to its other half.
  lemma NoHalfSteps(k: Machine)
    requires Ready(k) && Inside(k) && k.toks != []
    ensures k.state.BlockMappingKey? && k.toks[0].Value? ==> Step(k) == Emit(NullScalar(), k.Goto(BlockMappingValue))
    ensures k.state.BlockMappingValue? && !k.toks[0].Value? ==> Step(k) == Emit(NullScalar(), k.Goto(BlockMappingKey))
  {
    hide Nested, Resumables;
  }

  // A half of an entry whose token has been read: null, or the node behind the token.
  lemma HalfMeans(n: Node, k: Machine, back: State, tail: seq<Token>)
    requires Inside(k) && Ready(k) && Blocks(n, true) && tail != [] && EndsBlockNode(tail[0])
    requires back.BlockMappingKey? || back.BlockMappingValue?
    requires (Words(n) + tail) != []
    requires Step(k) == if EndsBlockNode((Words(n) + tail)[0]) then Emit(NullScalar(), k.(state := back, toks := Words(n) + tail))
                        else Nested(k.(toks := Words(n) + tail), back, true, true)
    ensures ReadAs(Continue(k), Clean(n),
                  Mean(n, k.env, true), k.(state := back, toks := tail))
    decreases n, 6
  {
    hide Resumables, Continue, Resume, Machine.Valid, Nested, Blocks, Flows, Step, Finish, Mean;
    ContinueIs(k, Step(k));
    WordsOrTail(n, true, tail);
    PlacedMeans(n, k, Step(k), back, tail, true, true);
  }

  lemma BlockKeyMeans(half: Halves, n: Node, k: Machine, tail: seq<Token>)
    requires Inside(k) && k.state.BlockMappingKey? && Blocks(n, true) && k.toks == KeyPart(half, Words(n)) + tail
    requires tail != [] && EndsBlockNode(tail[0]) && (half.ValueOnly? ==> n.Missing? && tail[0].Value?)
    ensures ReadAs(Continue(k), Clean(n),
                  Mean(n, k.env, true), k.(state := BlockMappingValue, toks := tail))
    decreases n, 7
  {
    hide Resumables, RunFrom, Continue, Resume, Machine.Valid, Nested, Blocks, Flows, Step, Words, Mean, Finish, Surplus;
    ReadyAt(k);
    if half.ValueOnly? {
      assert k.toks == tail;
      NoHalf(n, k, BlockMappingValue);
    } else {
      assert k.toks == [Key] + (Words(n) + tail);
      BlockKeySteps(k, Words(n) + tail);
      HalfMeans(n, k, BlockMappingValue, tail);
    }
  }

  lemma NoHalf(n: Node, k: Machine, back: State)
    requires Inside(k) && Ready(k) && n.Missing? && k.toks != []
    requires (k.state.BlockMappingKey? && k.toks[0].Value? && back.BlockMappingValue?)
          || (k.state.BlockMappingValue? && !k.toks[0].Value? && back.BlockMappingKey?)
    ensures Continue(k) == Finish(Mean(n, k.env, true), k.Goto(back))
  {
    hide Resumables, RunFrom, Continue, Resume, Machine.Valid, Step;
    NoHalfSteps(k);
    ContinueIs(k, Step(k));
    ReadyAt(k.Goto(back));
    Emits(NullScalar(), k.Goto(back));
  }

  lemma BlockValueMeans(half: Halves, n: Node, k: Machine, tail: seq<Token>)
    requires Inside(k) && k.state.BlockMappingValue? && Blocks(n, true) && k.toks == ValuePart(half, Words(n)) + tail
    requires tail != [] && EndsBlockNode(tail[0]) && (half.KeyOnly? ==> n.Missing? && !tail[0].Value?)
    ensures ReadAs(Continue(k), Clean(n),
                  Mean(n, k.env, true), k.(state := BlockMappingKey, toks := tail))
    decreases n, 7
  {
    hide Resumables, RunFrom, Continue, Resume, Machine.Valid, Nested, Blocks, Flows, Step, Words, Mean, Finish, Surplus;
    ReadyAt(k);
    if half.KeyOnly? {
      assert k.toks == tail;
      NoHalf(n, k, BlockMappingKey);
    } else {
      assert k.toks == [Value] + (Words(n) + tail);
      BlockValueSteps(k, Words(n) + tail);
      HalfMeans(n, k, BlockMappingKey, tail);
    }
  }

  // ------------------------------------------------------------------ flow mappings

  // What stands behind a member of a flow mapping.
  predicate MemberCloses(t: Token) {
    t.FlowEntry? || t.FlowMappingEnd?
  }

  lemma MembersClose(members: Members, rest: seq<Token>)
    ensures var tail := MemberWords(members) + ([FlowMappingEnd] + rest); tail != [] && MemberCloses(tail[0])
  {
  }

  lemma FlowMapMeans(members: Members, m: Machine, p: Properties, rest: seq<Token>, block: bool, indentless: bool)
    requires Inside(m) && MembersFlow(members) && !members.LastComma? && rest != []
    requires m.toks == [FlowMappingStart] + (FirstMemberWords(members) + [FlowMappingEnd]) + rest
    ensures ReadAs(Resume(NodeContent(m, p, block, indentless), false), CleanMembers(members),
                  Prefix(MappingStart(p.anchor, p.tag, Flow), MeanMembers(members, m.env, true)), m.Pop().(toks := rest))
    decreases members, 5
  {
    hide Resumables, RunFrom, Continue, Machine.Valid, Resume, FirstMemberWords, MeanMembers;
    var toks := FirstMemberWords(members) + ([FlowMappingEnd] + rest);
    assert m.toks == [FlowMappingStart] + toks;
    SkipOne(m, FlowMappingStart, toks);
    FirstMemberMeans(members, m.Goto(FlowMappingFirstKey), toks, rest);
    Opened(m, MappingStart(p.anchor, p.tag, Flow), FlowMappingFirstKey, CleanMembers(members), MeanMembers(members, m.env, true), rest);
  }

  lemma FirstMemberSteps(k: Machine, tail: seq<Token>)
    requires Inside(k) && k.state.FlowMappingFirstKey? && k.toks != [] && tail == k.toks[1..] && tail != []
    ensures Ready(k) && Step(k) == if tail[0].FlowMappingEnd? then Emit(MappingEnd, k.Pop().(toks := tail[1..]))
                                   else FlowMappingEntry(k.(toks := tail))
  {
    hide FlowMappingEntry, Resumables;
    ReadyAt(k);
  }

  lemma FirstMemberMeans(members: Members, k: Machine, toks: seq<Token>, rest: seq<Token>)
    requires Inside(k) && MembersFlow(members) && !members.LastComma? && rest != [] && k.state.FlowMappingFirstKey?
    requires k.toks == [FlowMappingStart] + toks && toks == FirstMemberWords(members) + ([FlowMappingEnd] + rest)
    ensures ReadAs(Continue(k), CleanMembers(members),
                  MeanMembers(members, k.env, true), k.Pop().(toks := rest))
    decreases members, 4
  {
    hide Resumables, Continue, Machine.Valid, Resume, Step, FlowMappingEntry, RunFrom;
    FirstMemberSteps(k, toks);
    ContinueIs(k, Step(k));
    if members.NoMembers? {
      assert toks == [FlowMappingEnd] + rest;
      Back(k, rest);
      Emits(MappingEnd, k.Pop().(toks := rest));
    } else {
      MemberBegins(members, rest);
      MemberMeans(members, k.(toks := toks), rest);
    }
  }

  // The words of one member of a flow mapping.
  function OneMember(members: Members): seq<Token>
    requires members.Lone? || members.Member?
  {
    if members.Lone? then Words(members.key) else HalfWords(members.half, Words(members.key), Words(members.value))
  }

  lemma MemberBegins(members: Members, rest: seq<Token>)
    requires MembersFlow(members) && (members.Lone? || members.Member?)
    ensures var tail := MemberWords(members.tail) + ([FlowMappingEnd] + rest);
            && FirstMemberWords(members) + ([FlowMappingEnd] + rest) == OneMember(members) + tail
            && MemberWords(members) + ([FlowMappingEnd] + rest) == [FlowEntry] + (OneMember(members) + tail)
            && OneMember(members) != [] && !OneMember(members)[0].FlowMappingEnd?
  {
    hide HalfWords, Words;
    var one, tail, end := OneMember(members), MemberWords(members.tail), [FlowMappingEnd] + rest;
    OneMemberBegins(members);
    Grouped(one, tail, end);
    Grouped([FlowEntry], one + tail, end);
  }

  lemma OneMemberBegins(members: Members)
    requires MembersFlow(members) && (members.Lone? || members.Member?)
    ensures OneMember(members) != [] && !OneMember(members)[0].FlowMappingEnd?
  {
    hide HalfWords, Words;
    if members.Lone? {
      FlowsBlock(members.key);
      WordsBegin(members.key, false);
    } else {
      HalfBegins(members.half, Words(members.key), Words(members.value));
    }
  }

  lemma HalfBegins(half: Halves, key: seq<Token>, value: seq<Token>)
    ensures var w := HalfWords(half, key, value); w != [] && (w[0].Key? || w[0].Value?)
  {
  }

  lemma NextMemberSteps(k: Machine, tail: seq<Token>)
    requires Inside(k) && k.state.FlowMappingKey? && k.toks != [] && tail == k.toks[1..]
    ensures Ready(k)
    ensures k.toks[0].FlowMappingEnd? ==> Step(k) == Emit(MappingEnd, k.Pop().(toks := tail))
    ensures k.toks[0].FlowEntry? ==> Step(k) == FlowMappingEntry(k.(toks := tail))
  {
    hide FlowMappingEntry, Resumables;
    ReadyAt(k);
  }

  lemma MembersMean(members: Members, k: Machine, rest: seq<Token>)
    requires Inside(k) && MembersFlow(members) && rest != []
    requires k.state.FlowMappingKey? && k.toks == MemberWords(members) + ([FlowMappingEnd] + rest)
    ensures ReadAs(Continue(k), CleanMembers(members),
                  MeanMembers(members, k.env, true), k.Pop().(toks := rest))
    decreases members, 4
  {
    hide Resumables, Continue, Machine.Valid, Resume, Step, FlowMappingEntry, RunFrom;
    NextMemberSteps(k, k.toks[1..]);
    ContinueIs(k, Step(k));
    Back(k, rest);
    if members.NoMembers? {
      SkipOne(k, FlowMappingEnd, rest);
      Emits(MappingEnd, k.Pop().(toks := rest));
    } else if members.LastComma? {
      SkipOne(k, FlowEntry, [FlowMappingEnd] + rest);
      LastCommaSteps(k.Skip(), rest);
      Emits(MappingEnd, k.Pop().(toks := rest));
    } else {
      MemberBegins(members, rest);
      var tail := MemberWords(members.tail) + ([FlowMappingEnd] + rest);
      SkipOne(k, FlowEntry, OneMember(members) + tail);
      MemberMeans(members, k.Skip(), rest);
    }
  }

  lemma LastCommaSteps(k: Machine, rest: seq<Token>)
    requires k.states != [] && k.toks == [FlowMappingEnd] + rest
    ensures FlowMappingEntry(k) == Emit(MappingEnd, k.Pop().(toks := rest))
  {
    SkipOne(k, FlowMappingEnd, rest);
  }

  // One member and those behind it.
  lemma MemberMeans(members: Members, k: Machine, rest: seq<Token>)
    requires Inside(k) && MembersFlow(members) && rest != [] && (members.Lone? || members.Member?)
    requires k.toks == OneMember(members) + (MemberWords(members.tail) + ([FlowMappingEnd] + rest))
    ensures ReadAs(Resume(FlowMappingEntry(k), false), CleanMembers(members),
                  MeanMembers(members, k.env, true), k.Pop().(toks := rest))
    decreases members, 3
  {
    hide Resumables, Continue, Machine.Valid, Resume, Step, FlowMappingEntry, RunFrom, Mean, Words, MemberWords, Finish, MeanMembers,
      ReadAs, Surplus, Bal, Flows;
    var tail := MemberWords(members.tail) + ([FlowMappingEnd] + rest);
    MembersClose(members.tail, rest);
    if members.Lone? {
      LoneMeans(members, k, tail, rest);
    } else {
      PairedMeans(members, k, tail, rest);
    }
  }

  // A key and a value, and the members behind them.
  lemma PairedMeans(members: Members, k: Machine, tail: seq<Token>, rest: seq<Token>)
    requires Inside(k) && MembersFlow(members) && rest != [] && members.Member?
    requires tail == MemberWords(members.tail) + ([FlowMappingEnd] + rest) && tail != [] && MemberCloses(tail[0])
    requires k.toks == OneMember(members) + tail
    ensures ReadAs(Resume(FlowMappingEntry(k), false), CleanMembers(members),
                  MeanMembers(members, k.env, true), k.Pop().(toks := rest))
    decreases members, 2
  {
    hide Resumables, Continue, Machine.Valid, Resume, Step, FlowMappingEntry, RunFrom, Mean, Words, MemberWords, Finish, MeanMembers,
      ReadAs, Surplus, Bal, Flows, MemberRest, Both;
    var values := ValuePart(members.half, Words(members.value)) + tail;
    HalvesParted(members.half, Words(members.key), Words(members.value), tail);
    FlowKeyMeans(members.half, members.key, k, values);
    var a := Mean(members.key, k.env, true);
    var kv := k.(state := FlowMappingValue, toks := values);
    var b := MemberRest(members, a);
    var target := k.Pop().(toks := rest);
    var cleanB := Clean(members.value) && CleanMembers(members.tail);
    PairedEven(members, kv, tail, rest);
    if a.verdict.Ok? {
      MemberRestMeans(members, kv.(env := a.verdict.value), tail, rest, a);
      ReadsForget(Continue(kv.(env := a.verdict.value)), cleanB, b, target, a.verdict.value);
    }
    ReadsBoth(Resume(FlowMappingEntry(k), false), Clean(members.key), a, kv, cleanB, b, target);
    MemberParts(members, k.env);
  }

  // The value and the members behind it close what they open.
  lemma PairedEven(members: Members, kv: Machine, tail: seq<Token>, rest: seq<Token>)
    requires members.Member? && MembersFlow(members) && kv.state.FlowMappingValue? && Inside(kv)
    requires tail == MemberWords(members.tail) + ([FlowMappingEnd] + rest)
    requires kv.toks == ValuePart(members.half, Words(members.value)) + tail
    ensures Surplus(kv) == Surplus(kv.Pop().(toks := rest))
  {
    hide Machine.Valid, Words, MemberWords, Surplus, Flows, ValuePart, Bal;
    MembersEven(members.tail, [FlowMappingEnd] + rest);
    EndedEven(MemberWords(members.tail), FlowMappingEnd, rest);
    ValueEven(members.half, members.value, tail);
    SameSurplus(kv, rest);
  }

  function MemberRest(m: Members, a: Meaning): Meaning
    requires m.Member?
  {
    if a.verdict.Err? then a
    else
      var b := Mean(m.value, a.verdict.value, true);
      Both(b, if b.verdict.Err? then b else MeanMembers(m.tail, b.verdict.value, true))
  }

  lemma MemberParts(m: Members, env: Env)
    requires m.Member?
    ensures MeanMembers(m, env, true) == Both(Mean(m.key, env, true), MemberRest(m, Mean(m.key, env, true)))
  {
    hide Mean;
  }

  lemma MemberRestMeans(m: Members, k: Machine, tail: seq<Token>, rest: seq<Token>, a: Meaning)
    requires Inside(k) && MembersFlow(m) && rest != [] && m.Member?
    requires k.state.FlowMappingValue? && k.toks == ValuePart(m.half, Words(m.value)) + tail
    requires tail == MemberWords(m.tail) + ([FlowMappingEnd] + rest) && a.verdict == Ok(k.env)
    ensures ReadAs(Continue(k), Clean(m.value) && CleanMembers(m.tail),
                  MemberRest(m, a), k.Pop().(toks := rest))
    decreases m, 1
  {
    hide Resumables, Continue, Machine.Valid, Words, Flows, ValuePart, Mean, MeanMembers, Finish, MemberWords;
    MembersClose(m.tail, rest);
    FlowValueMeans(m.half, m.value, k, tail);
    var b := Mean(m.value, k.env, true);
    var k2 := k.(state := FlowMappingKey, toks := tail);
    var target := k.Pop().(toks := rest);
    MembersEven(m.tail, [FlowMappingEnd] + rest);
    EndedEven(MemberWords(m.tail), FlowMappingEnd, rest);
    SameSurplus(k2, rest);
    var c := if b.verdict.Err? then b else MeanMembers(m.tail, b.verdict.value, true);
    if b.verdict.Ok? {
      MembersMean(m.tail, k2.(env := b.verdict.value), rest);
      ReadsForget(Continue(k2.(env := b.verdict.value)), CleanMembers(m.tail), c, target, b.verdict.value);
    }
    ReadsBoth(Continue(k), Clean(m.value), b, k2, CleanMembers(m.tail), c, target);
  }

  lemma FlowMemberSteps(k: Machine)
    requires Inside(k) && k.toks != []
    ensures k.toks[0].Key? && |k.toks| > 1 ==>
              FlowMappingEntry(k) ==
              if k.toks[1].Value? || MemberCloses(k.toks[1]) then Emit(NullScalar(), k.Skip().Goto(FlowMappingValue))
              else Nested(k.Skip(), FlowMappingValue, false, false)
    ensures k.toks[0].Value? ==> FlowMappingEntry(k) == Emit(NullScalar(), k.Goto(FlowMappingValue))
    ensures Opener(k.toks[0]) ==> FlowMappingEntry(k) == Nested(k, FlowMappingEmptyValue, false, false)
  {
    hide Nested, Resumables;
  }

  lemma FlowKeyMeans(half: Halves, n: Node, k: Machine, tail: seq<Token>)
    requires Inside(k) && Flows(n) && k.toks == KeyPart(half, Words(n)) + tail
    requires tail != [] && (tail[0].Value? || MemberCloses(tail[0])) && (half.ValueOnly? ==> n.Missing? && tail[0].Value?)
    ensures ReadAs(Resume(FlowMappingEntry(k), false), Clean(n),
                  Mean(n, k.env, true), k.(state := FlowMappingValue, toks := tail))
    decreases n, 7
  {
    hide Resumables, Continue, Resume, Machine.Valid, Nested, Flows, FlowMappingEntry, Words, Finish, Mean;
    FlowMemberSteps(k);
    FlowsBlock(n);
    if half.ValueOnly? {
      assert k.toks == tail;
      assert k.Goto(FlowMappingValue) == k.(state := FlowMappingValue, toks := tail);
    } else {
      assert k.toks == [Key] + (Words(n) + tail);
      SkipOne(k, Key, Words(n) + tail);
      WordsOrTail(n, false, tail);
    }
    PlacedMeans(n, k, FlowMappingEntry(k), FlowMappingValue, tail, false, false);
  }

  lemma FlowValueSteps(k: Machine)
    requires Inside(k) && k.toks != [] && k.state.FlowMappingValue?
    ensures Ready(k)
    ensures k.toks[0].Value? && |k.toks| > 1 ==>
              Step(k) == if MemberCloses(k.toks[1]) then Emit(NullScalar(), k.Skip().Goto(FlowMappingKey))
                         else Nested(k.Skip(), FlowMappingKey, false, false)
    ensures !k.toks[0].Value? ==> Step(k) == Emit(NullScalar(), k.Goto(FlowMappingKey))
  {
    hide Nested, Resumables;
    ReadyAt(k);
  }

  lemma FlowValueMeans(half: Halves, n: Node, k: Machine, tail: seq<Token>)
    requires Inside(k) && Flows(n) && k.state.FlowMappingValue? && k.toks == ValuePart(half, Words(n)) + tail
    requires tail != [] && MemberCloses(tail[0]) && (half.KeyOnly? ==> n.Missing?)
    ensures ReadAs(Continue(k), Clean(n),
                  Mean(n, k.env, true), k.(state := FlowMappingKey, toks := tail))
    decreases n, 7
  {
    hide Resumables, Continue, Resume, Machine.Valid, Nested, Flows, Step, Words, Finish, Mean;
    FlowsBlock(n);
    if half.KeyOnly? {
      assert k.toks == tail;
      assert k.Goto(FlowMappingKey) == k.(state := FlowMappingKey, toks := tail);
    } else {
      assert k.toks == [Value] + (Words(n) + tail);
      SkipOne(k, Value, Words(n) + tail);
      WordsOrTail(n, false, tail);
    }
    FlowValueSteps(k);
    ContinueIs(k, Step(k));
    PlacedMeans(n, k, Step(k), FlowMappingKey, tail, false, false);
  }

  // A member that is only a node gets a null value.
  lemma LoneMeans(m: Members, k: Machine, tail: seq<Token>, rest: seq<Token>)
    requires Inside(k) && MembersFlow(m) && rest != [] && m.Lone?
    requires k.toks == Words(m.key) + tail && tail == MemberWords(m.tail) + ([FlowMappingEnd] + rest)
    ensures ReadAs(Resume(FlowMappingEntry(k), false), CleanMembers(m),
                  MeanMembers(m, k.env, true), k.Pop().(toks := rest))
    decreases m, 2
  {
    hide Resumables, Continue, Machine.Valid, Resume, Step, FlowMappingEntry, RunFrom, Mean, Words, MemberWords, Finish, Flows,
      Nested;
    MembersClose(m.tail, rest);
    FlowsBlock(m.key);
    WordsOrTail(m.key, false, tail);
    FlowMemberSteps(k);
    assert k == k.(toks := Words(m.key) + tail);
    PlacedMeans(m.key, k, FlowMappingEntry(k), FlowMappingEmptyValue, tail, false, false);
    var a := Mean(m.key, k.env, true);
    var k1 := k.(state := FlowMappingEmptyValue, toks := tail);
    var target := k.Pop().(toks := rest);
    MembersEven(m.tail, [FlowMappingEnd] + rest);
    EndedEven(MemberWords(m.tail), FlowMappingEnd, rest);
    SameSurplus(k1, rest);
    var b := if a.verdict.Err? then a else Prefix(NullScalar(), MeanMembers(m.tail, a.verdict.value, true));
    if a.verdict.Ok? {
      NullValueMeans(m.tail, k1.(env := a.verdict.value), rest);
      ReadsForget(Continue(k1.(env := a.verdict.value)), CleanMembers(m.tail), b, target, a.verdict.value);
    }
    ReadsBoth(Resume(FlowMappingEntry(k), false), Clean(m.key), a, k1, CleanMembers(m.tail), b, target);
    LoneParts(m, k.env);
  }

  lemma NullValueMeans(members: Members, k: Machine, rest: seq<Token>)
    requires Inside(k) && MembersFlow(members) && rest != [] && k.state.FlowMappingEmptyValue?
    requires k.toks == MemberWords(members) + ([FlowMappingEnd] + rest)
    ensures ReadAs(Continue(k), CleanMembers(members),
                  Prefix(NullScalar(), MeanMembers(members, k.env, true)), k.Pop().(toks := rest))
    decreases members, 5
  {
    hide Resumables, Continue, Machine.Valid, Resume, RunFrom, MemberWords, Finish, MeanMembers, Nested;
    MembersClose(members, rest);
    ReadyAt(k);
    var next := k.Goto(FlowMappingKey);
    ReadyAt(next);
    Continues(k, NullScalar(), next);
    MembersMean(members, next, rest);
    ReadsPrefix(Continue(next), CleanMembers(members), NullScalar(), MeanMembers(members, k.env, true), k.Pop().(toks := rest));
  }

  lemma LoneParts(m: Members, env: Env)
    requires m.Lone?
    ensures var a := Mean(m.key, env, true);
            MeanMembers(m, env, true) == Both(a, if a.verdict.Err? then a else Prefix(NullScalar(), MeanMembers(m.tail, a.verdict.value, true)))
  {
    hide Mean;
  }

  // ------------------------------------------------------------------ flow sequences

  predicate CellCloses(t: Token) {
    t.FlowEntry? || t.FlowSequenceEnd?
  }

  lemma CellsClose(cells: Cells, rest: seq<Token>)
    ensures var tail := CellWords(cells) + ([FlowSequenceEnd] + rest); tail != [] && CellCloses(tail[0])
  {
  }

  lemma FlowSeqMeans(cells: Cells, m: Machine, p: Properties, rest: seq<Token>, block: bool, indentless: bool)
    requires Inside(m) && CellsFlow(cells) && !cells.Comma? && rest != []
    requires m.toks == [FlowSequenceStart] + (FirstCellWords(cells) + [FlowSequenceEnd]) + rest
    ensures ReadAs(Resume(NodeContent(m, p, block, indentless), false), CleanCells(cells),
                  Prefix(SequenceStart(p.anchor, p.tag, Flow), MeanCells(cells, m.env, true)), m.Pop().(toks := rest))
    decreases cells, 8
  {
    hide Resumables, RunFrom, Continue, Machine.Valid, Resume, FirstCellWords, MeanCells;
    var toks := FirstCellWords(cells) + ([FlowSequenceEnd] + rest);
    assert m.toks == [FlowSequenceStart] + toks;
    SkipOne(m, FlowSequenceStart, toks);
    FirstCellMeans(cells, m.Goto(FlowSequenceFirstEntry), toks, rest);
    Opened(m, SequenceStart(p.anchor, p.tag, Flow), FlowSequenceFirstEntry, CleanCells(cells), MeanCells(cells, m.env, true), rest);
  }

  lemma FirstCellSteps(k: Machine, tail: seq<Token>)
    requires Inside(k) && k.state.FlowSequenceFirstEntry? && k.toks != [] && tail == k.toks[1..] && tail != []
    ensures Ready(k) && Step(k) == if tail[0].FlowSequenceEnd? then Emit(SequenceEnd, k.Pop().(toks := tail[1..]))
                                   else FlowSequenceItem(k.(toks := tail))
  {
    hide FlowSequenceItem, Resumables;
    ReadyAt(k);
  }

  // The words of one cell.
  function OneCell(cells: Cells): seq<Token>
    requires cells.Item? || cells.Pair?
  {
    if cells.Item? then Words(cells.item) else HalfWords(cells.half, Words(cells.key), Words(cells.value))
  }

  lemma CellBegins(cells: Cells, rest: seq<Token>)
    requires CellsFlow(cells) && (cells.Item? || cells.Pair?)
    ensures var tail := CellWords(cells.tail) + ([FlowSequenceEnd] + rest);
            && FirstCellWords(cells) + ([FlowSequenceEnd] + rest) == OneCell(cells) + tail
            && CellWords(cells) + ([FlowSequenceEnd] + rest) == [FlowEntry] + (OneCell(cells) + tail)
            && OneCell(cells) != [] && !OneCell(cells)[0].FlowSequenceEnd?
  {
    hide HalfWords, Words;
    var one, tail, end := OneCell(cells), CellWords(cells.tail), [FlowSequenceEnd] + rest;
    OneCellBegins(cells);
    Grouped(one, tail, end);
    Grouped([FlowEntry], one + tail, end);
  }

  lemma OneCellBegins(cells: Cells)
    requires CellsFlow(cells) && (cells.Item? || cells.Pair?)
    ensures OneCell(cells) != [] && !OneCell(cells)[0].FlowSequenceEnd?
  {
    hide HalfWords, Words;
    if cells.Item? {
      FlowsBlock(cells.item);
      WordsBegin(cells.item, false);
    } else {
      HalfBegins(cells.half, Words(cells.key), Words(cells.value));
    }
  }

  lemma FirstCellMeans(cells: Cells, k: Machine, toks: seq<Token>, rest: seq<Token>)
    requires Inside(k) && CellsFlow(cells) && !cells.Comma? && rest != [] && k.state.FlowSequenceFirstEntry?
    requires k.toks == [FlowSequenceStart] + toks && toks == FirstCellWords(cells) + ([FlowSequenceEnd] + rest)
    ensures ReadAs(Continue(k), CleanCells(cells),
                  MeanCells(cells, k.env, true), k.Pop().(toks := rest))
    decreases cells, 7
  {
    hide Resumables, Continue, Machine.Valid, Resume, Step, FlowSequenceItem, RunFrom;
    FirstCellSteps(k, toks);
    ContinueIs(k, Step(k));
    if cells.NoCells? {
      assert toks == [FlowSequenceEnd] + rest;
      Back(k, rest);
      Emits(SequenceEnd, k.Pop().(toks := rest));
    } else {
      CellBegins(cells, rest);
      CellMeans(cells, k.(toks := toks), rest);
    }
  }

  lemma NextCellSteps(k: Machine, tail: seq<Token>)
    requires Inside(k) && k.state.FlowSequenceEntry? && k.toks != [] && tail == k.toks[1..]
    ensures Ready(k)
    ensures k.toks[0].FlowSequenceEnd? ==> Step(k) == Emit(SequenceEnd, k.Pop().(toks := tail))
    ensures k.toks[0].FlowEntry? ==> Step(k) == FlowSequenceItem(k.(toks := tail))
    ensures !CellCloses(k.toks[0]) ==> Step(k) == Fail(ExpectedFlowSequenceEnd)
  {
    hide FlowSequenceItem, Resumables;
    ReadyAt(k);
  }

  lemma CellsMean(cells: Cells, k: Machine, rest: seq<Token>)
    requires Inside(k) && CellsFlow(cells) && rest != []
    requires k.state.FlowSequenceEntry? && k.toks == CellWords(cells) + ([FlowSequenceEnd] + rest)
    ensures ReadAs(Continue(k), CleanCells(cells),
                  MeanCells(cells, k.env, true), k.Pop().(toks := rest))
    decreases cells, 7
  {
    hide Resumables, Continue, Machine.Valid, Resume, Step, FlowSequenceItem, RunFrom;
    NextCellSteps(k, k.toks[1..]);
    ContinueIs(k, Step(k));
    Back(k, rest);
    if cells.NoCells? {
      SkipOne(k, FlowSequenceEnd, rest);
      Emits(SequenceEnd, k.Pop().(toks := rest));
    } else if cells.Comma? {
      SkipOne(k, FlowEntry, [FlowSequenceEnd] + rest);
      CommaSteps(k.Skip(), rest);
      Emits(SequenceEnd, k.Pop().(toks := rest));
    } else {
      CellBegins(cells, rest);
      var tail := CellWords(cells.tail) + ([FlowSequenceEnd] + rest);
      SkipOne(k, FlowEntry, OneCell(cells) + tail);
      CellMeans(cells, k.Skip(), rest);
    }
  }

  lemma CommaSteps(k: Machine, rest: seq<Token>)
    requires k.states != [] && k.toks == [FlowSequenceEnd] + rest
    ensures FlowSequenceItem(k) == Emit(SequenceEnd, k.Pop().(toks := rest))
  {
    SkipOne(k, FlowSequenceEnd, rest);
  }

  lemma CellSteps(k: Machine)
    requires Inside(k) && k.toks != []
    ensures k.toks[0].Key? ==>
              FlowSequenceItem(k) == Emit(MappingStart(NoAnchor, None, Flow), k.Skip().Goto(FlowSequenceEntryMappingKey))
    ensures Opener(k.toks[0]) ==> FlowSequenceItem(k) == Nested(k, FlowSequenceEntry, false, false)
  {
    hide Nested, Resumables;
  }

  // One cell and those behind it.
  lemma CellMeans(cells: Cells, k: Machine, rest: seq<Token>)
    requires Inside(k) && CellsFlow(cells) && rest != [] && (cells.Item? || cells.Pair?)
    requires k.toks == OneCell(cells) + (CellWords(cells.tail) + ([FlowSequenceEnd] + rest))
    ensures ReadAs(Resume(FlowSequenceItem(k), false), CleanCells(cells),
                  MeanCells(cells, k.env, true), k.Pop().(toks := rest))
    decreases cells, 6
  {
    hide Resumables, Continue, Machine.Valid, Resume, Step, FlowSequenceItem, RunFrom, Mean, Words, CellWords, ReadAs, HalfWords,
      Flows, MeanPair, Surplus, Bal;
    var tail := CellWords(cells.tail) + ([FlowSequenceEnd] + rest);
    CellsClose(cells.tail, rest);
    if cells.Pair? && LastKey(cells) {
      LastKeyMeans(cells, k, rest);
    } else if Joins(cells) {
      JoinMeans(cells, k, rest);
      var next := cells.tail;
      CellsClose(next.tail, rest);
      JoinParts(cells, k.env);
      ThenCells(Resume(FlowSequenceItem(k), false), Clean(next.value), OneMeaning(next, k.env), next.tail, k, rest);
    } else if cells.Item? {
      ItemMeans(cells, k, tail);
      CellParts(cells, k.env);
      ThenCells(Resume(FlowSequenceItem(k), false), Clean(cells.item), OneMeaning(cells, k.env), cells.tail, k, rest);
    } else {
      PairMeans(cells, k, rest);
      CellParts(cells, k.env);
      ThenCells(Resume(FlowSequenceItem(k), false), CleanPair(cells), OneMeaning(cells, k.env), cells.tail, k, rest);
    }
  }

  // What has been read, and the cells behind it.
  lemma ThenCells(run: Run, clean: bool, a: Meaning, cells: Cells, k: Machine, rest: seq<Token>)
    requires Inside(k) && CellsFlow(cells) && rest != [] && (a.verdict.Ok? ==> a.verdict.value.nextAnchor >= k.env.nextAnchor)
    requires ReadAs(run, clean, a, k.(state := FlowSequenceEntry, toks := CellWords(cells) + ([FlowSequenceEnd] + rest)))
    ensures ReadAs(run, clean && CleanCells(cells),
                   Both(a, if a.verdict.Err? then a else MeanCells(cells, a.verdict.value, true)), k.Pop().(toks := rest))
    decreases cells, 8
  {
    hide Resumables, Continue, Machine.Valid, Resume, Step, RunFrom, CellWords, ReadAs, CellsFlow, Surplus, Bal, CleanCells, MeanCells;
    var target := k.Pop().(toks := rest);
    var k1 := k.(state := FlowSequenceEntry, toks := CellWords(cells) + ([FlowSequenceEnd] + rest));
    var b := if a.verdict.Err? then a else MeanCells(cells, a.verdict.value, true);
    CellsEven(cells, [FlowSequenceEnd] + rest);
    ClosedBal(rest);
    SameSurplus(k1, rest);
    if a.verdict.Ok? {
      CellsMean(cells, k1.(env := a.verdict.value), rest);
      ReadsForget(Continue(k1.(env := a.verdict.value)), CleanCells(cells), b, target, a.verdict.value);
    }
    ReadsBoth(run, clean, a, k1, CleanCells(cells), b, target);
  }

  // Two pairs taken for one: the second, as if the first were not there.
  lemma JoinParts(cells: Cells, env: Env)
    requires Joins(cells)
    ensures var a := OneMeaning(cells.tail, env);
            MeanCells(cells, env, true) == Both(a, if a.verdict.Err? then a else MeanCells(cells.tail.tail, a.verdict.value, true))
    ensures CleanCells(cells) <==> Clean(cells.tail.value) && CleanCells(cells.tail.tail)
  {
    hide Mean, MeanPair, Clean;
  }

  lemma JoinWords(cells: Cells, tail: seq<Token>)
    requires Joins(cells) && CellsFlow(cells)
    ensures OneCell(cells) + (CellWords(cells.tail) + tail)
         == [Key] + ([FlowEntry] + (ValuePart(ValueOnly, Words(cells.tail.value)) + (CellWords(cells.tail.tail) + tail)))
  {
    hide Words;
    var v, w := Words(cells.tail.value), CellWords(cells.tail.tail);
    MissingWords([]);
    assert OneCell(cells) == [Key];
    assert [FlowEntry] + (([Value] + v) + w) + tail == [FlowEntry] + (([Value] + v) + (w + tail));
  }

  // The `,` is taken for the key, and the value behind it read.
  lemma JoinMeans(cells: Cells, k: Machine, rest: seq<Token>)
    requires Inside(k) && CellsFlow(cells) && Joins(cells) && rest != []
    requires k.toks == OneCell(cells) + (CellWords(cells.tail) + ([FlowSequenceEnd] + rest))
    ensures ReadAs(Resume(FlowSequenceItem(k), false), Clean(cells.tail.value), OneMeaning(cells.tail, k.env),
                   k.(state := FlowSequenceEntry, toks := CellWords(cells.tail.tail) + ([FlowSequenceEnd] + rest)))
    decreases cells, 5
  {
    hide Resumables, Continue, Machine.Valid, Resume, Step, FlowSequenceItem, RunFrom, Mean, Words, ReadAs, Flows, MeanPair, CellWords,
         OneCell, Clean, Surplus, ValuePart;
    var next := cells.tail;
    var tail := CellWords(next.tail) + ([FlowSequenceEnd] + rest);
    var values := ValuePart(ValueOnly, Words(next.value)) + tail;
    var target := k.(state := FlowSequenceEntry, toks := tail);
    var a := Single(NullScalar(), k.env);
    JoinWords(cells, [FlowSequenceEnd] + rest);
    CellsClose(next.tail, rest);
    SkipOne(k, Key, [FlowEntry] + values);
    CellSteps(k);
    var k1 := k.(state := FlowSequenceEntryMappingKey, toks := [FlowEntry] + values);
    SkipOne(k1, FlowEntry, values);
    PairKeySteps(k1);
    var kv := k.(state := FlowSequenceEntryMappingValue, toks := values);
    ValueBegins(next.value, tail);
    ReadyAt(kv);
    Emits(MappingStart(NoAnchor, None, Flow), k1);
    Continues(k1, NullScalar(), kv);
    PairRestMeans(next, kv, tail, a);
    JoinMean(next, k.env);
    ReadsPrefix(Continue(kv), Clean(next.value), NullScalar(), PairRest(next, a), target);
    ReadsPrefix(Continue(k1), Clean(next.value), MappingStart(NoAnchor, None, Flow), Prefix(NullScalar(), PairRest(next, a)), target);
  }

  lemma ValueBegins(n: Node, tail: seq<Token>)
    ensures ValuePart(ValueOnly, Words(n)) + tail != []
  {
  }

  lemma JoinMean(c: Cells, env: Env)
    requires c.Pair? && c.key.Missing?
    ensures OneMeaning(c, env) ==
            Prefix(MappingStart(NoAnchor, None, Flow), Prefix(NullScalar(), PairRest(c, Single(NullScalar(), env))))
  {
    PairParts(c, env);
    NullMean(env);
  }

  lemma NullMean(env: Env)
    ensures Mean(Missing, env, true) == Single(NullScalar(), env)
  {
  }

  lemma ClosedBal(rest: seq<Token>)
    ensures Bal([FlowSequenceEnd] + rest) == Bal(rest) - 1
  {
    assert ([FlowSequenceEnd] + rest)[1..] == rest;
  }

  lemma CellParts(cells: Cells, env: Env)
    requires (cells.Item? || cells.Pair?) && !Joins(cells)
    ensures var a := OneMeaning(cells, env);
            MeanCells(cells, env, true) == Both(a, if a.verdict.Err? then a else MeanCells(cells.tail, a.verdict.value, true))
  {
    hide Mean, MeanPair;
  }

  // What one cell means.
  function OneMeaning(cells: Cells, env: Env): (r: Meaning)
    requires cells.Item? || cells.Pair?
    ensures r.verdict.Ok? ==> r.verdict.value.nextAnchor >= env.nextAnchor
  {
    if cells.Item? then Mean(cells.item, env, true) else Prefix(MappingStart(NoAnchor, None, Flow), MeanPair(cells, env, true))
  }

  lemma ItemMeans(cells: Cells, k: Machine, tail: seq<Token>)
    requires Inside(k) && CellsFlow(cells) && cells.Item?
    requires k.toks == Words(cells.item) + tail && tail != [] && CellCloses(tail[0])
    ensures ReadAs(Resume(FlowSequenceItem(k), false), Clean(cells.item),
                  Mean(cells.item, k.env, true), k.(state := FlowSequenceEntry, toks := tail))
    decreases cells, 5
  {
    hide Resumables, Continue, Machine.Valid, Resume, Step, FlowSequenceItem, RunFrom, Mean, Words, Finish, Flows, Nested;
    FlowsBlock(cells.item);
    WordsOrTail(cells.item, false, tail);
    CellSteps(k);
    assert k == k.(toks := Words(cells.item) + tail);
    PlacedMeans(cells.item, k, FlowSequenceItem(k), FlowSequenceEntry, tail, false, false);
  }

  // ------------------------------------------------------------------ single pairs

  // A pair that has no key and ends the sequence but for a `,`: the `,` is taken for the key, and
  // nothing is lost.
  predicate LastKey(c: Cells) {
    c.Pair? && c.key.Missing? && c.half.KeyOnly? && c.tail.Comma?
  }

  // A `:` with no key and no `?` stands where an item is wanted, and is none.
  lemma ColonRefused(k: Machine, toks: seq<Token>)
    requires Inside(k) && k.toks == [Value] + toks
    ensures Resume(FlowSequenceItem(k), false) == Run([], Some(ExpectedNodeContent))
  {
    hide Resumables;
  }

  lemma PairMeans(c: Cells, k: Machine, rest: seq<Token>)
    requires Inside(k) && CellsFlow(c) && c.Pair? && !LastKey(c) && !Joins(c) && rest != []
    requires k.toks == HalfWords(c.half, Words(c.key), Words(c.value)) + (CellWords(c.tail) + ([FlowSequenceEnd] + rest))
    ensures ReadAs(Resume(FlowSequenceItem(k), false), CleanPair(c),
                  Prefix(MappingStart(NoAnchor, None, Flow), MeanPair(c, k.env, true)),
                  k.(state := FlowSequenceEntry, toks := CellWords(c.tail) + ([FlowSequenceEnd] + rest)))
    decreases c, 5
  {
    hide Resumables, Continue, Machine.Valid, Resume, Step, FlowSequenceItem, RunFrom, Words, ReadAs, Flows, MeanPair, CellWords,
         Clean, Surplus;
    var tail := CellWords(c.tail) + ([FlowSequenceEnd] + rest);
    var target := k.(state := FlowSequenceEntry, toks := tail);
    CellsClose(c.tail, rest);
    var values := ValuePart(c.half, Words(c.value)) + tail;
    HalvesParted(c.half, Words(c.key), Words(c.value), tail);
    if c.half.ValueOnly? {
      KeylessColon(c, k, tail);
      RefusedReads(Resume(FlowSequenceItem(k), false), Prefix(MappingStart(NoAnchor, None, Flow), MeanPair(c, k.env, true)), target);
      return;
    }
    assert k.toks == [Key] + (Words(c.key) + values);
    SkipOne(k, Key, Words(c.key) + values);
    CellSteps(k);
    var k1 := k.(state := FlowSequenceEntryMappingKey, toks := Words(c.key) + values);
    ReadyAt(k1);
    Emits(MappingStart(NoAnchor, None, Flow), k1);
    if c.key.Missing? {
      KeylessMeans(c, k1, rest);
    } else {
      PairHalves(c, k1, tail);
    }
    ReadsPrefix(Continue(k1), CleanPair(c), MappingStart(NoAnchor, None, Flow), MeanPair(c, k.env, true), target);
  }

  lemma RefusedReads(run: Run, mean: Meaning, k: Machine)
    requires run.error.Some?
    ensures ReadAs(run, false, mean, k)
  {
  }

  lemma KeylessColon(c: Cells, k: Machine, tail: seq<Token>)
    requires Inside(k) && c.Pair? && c.half.ValueOnly? && k.toks == HalfWords(c.half, Words(c.key), Words(c.value)) + tail
    ensures !CleanPair(c) && Resume(FlowSequenceItem(k), false).error.Some?
  {
    hide Resume, FlowSequenceItem, Resumables, Words;
    assert k.toks == [Value] + (Words(c.value) + tail);
    ColonRefused(k, Words(c.value) + tail);
  }

  // A pair with a `?` and no key.
  lemma KeylessMeans(c: Cells, k: Machine, rest: seq<Token>)
    requires Inside(k) && CellsFlow(c) && c.Pair? && !LastKey(c) && !Joins(c) && c.key.Missing? && !c.half.ValueOnly? && rest != []
    requires k.state.FlowSequenceEntryMappingKey?
    requires k.toks == Words(c.key) + (ValuePart(c.half, Words(c.value)) + (CellWords(c.tail) + ([FlowSequenceEnd] + rest)))
    ensures ReadAs(Continue(k), CleanPair(c), MeanPair(c, k.env, true),
                  k.(state := FlowSequenceEntry, toks := CellWords(c.tail) + ([FlowSequenceEnd] + rest)))
  {
    hide Resumables, Continue, Machine.Valid, RunFrom, Words, Flows, MeanPair, CellWords, Finish, Surplus;
    var tail := CellWords(c.tail) + ([FlowSequenceEnd] + rest);
    CellsClose(c.tail, rest);
    MissingWords(ValuePart(c.half, Words(c.value)) + tail);
    if c.half.KeyOnly? {
      assert k.toks == tail;
      if c.tail.NoCells? {
        NoCellWords(rest);
        LostBracket(k, rest);
      } else {
        LostComma(c, k, rest);
      }
    } else if c.value.Missing? {
      NoPairMeans(c, k, tail);
    } else {
      LostValue(c, k, tail);
    }
  }

  lemma PairKeySteps(k: Machine)
    requires Inside(k) && k.toks != [] && k.state.FlowSequenceEntryMappingKey?
    ensures Ready(k)
    ensures Step(k) == if k.toks[0].Value? || CellCloses(k.toks[0]) then
                         Emit(NullScalar(), k.Skip().Goto(FlowSequenceEntryMappingValue))
                       else Nested(k, FlowSequenceEntryMappingValue, false, false)
  {
    hide Nested, Resumables;
    ReadyAt(k);
  }

  lemma PairValueSteps(k: Machine)
    requires Inside(k) && k.toks != [] && k.state.FlowSequenceEntryMappingValue?
    ensures Ready(k)
    ensures k.toks[0].Value? && |k.toks| > 1 ==>
              Step(k) == if CellCloses(k.toks[1]) then Emit(NullScalar(), k.Skip().Goto(FlowSequenceEntryMappingEnd))
                         else Nested(k.Skip(), FlowSequenceEntryMappingEnd, false, false)
    ensures !k.toks[0].Value? ==> Step(k) == Emit(NullScalar(), k.Goto(FlowSequenceEntryMappingEnd))
  {
    hide Nested, Resumables;
    ReadyAt(k);
  }

  // The end of a pair takes no token.
  lemma PairEndMeans(k: Machine)
    requires Inside(k) && k.state.FlowSequenceEntryMappingEnd?
    ensures Continue(k) == Finish(Single(MappingEnd, k.env), k.Goto(FlowSequenceEntry))
    ensures Continue(k) == Continue(k.Goto(FlowSequenceEntry)).After([MappingEnd])
  {
    hide Resumables, Resume, RunFrom, Continue;
    ReadyAt(k);
    var next := k.Goto(FlowSequenceEntry);
    ReadyAt(next);
    Continues(k, MappingEnd, next);
    assert next == next.(env := k.env);
  }

  // A value written without a key: the parser reads neither, and stops.
  lemma LostValue(c: Cells, k: Machine, tail: seq<Token>)
    requires Inside(k) && CellsFlow(c) && c.Pair? && c.key.Missing? && !c.value.Missing?
    requires k.state.FlowSequenceEntryMappingKey?
    requires k.toks == Words(c.key) + (ValuePart(c.half, Words(c.value)) + tail)
    ensures Continue(k) == Run([NullScalar(), NullScalar(), MappingEnd], Some(ExpectedFlowSequenceEnd))
  {
    hide Resumables, Continue, Machine.Valid, Resume, Step, Words, Flows, RunFrom;
    var toks := Words(c.value) + tail;
    MissingWords(ValuePart(c.half, Words(c.value)) + tail);
    assert k.toks == [Value] + toks;
    SkipOne(k, Value, toks);
    FlowsBlock(c.value);
    WordsBegin(c.value, false);
    PairKeySteps(k);
    var k1 := k.(state := FlowSequenceEntryMappingValue, toks := toks);
    PairValueSteps(k1);
    var k2 := k1.Goto(FlowSequenceEntryMappingEnd);
    ReadyAt(k2);
    var k3 := k2.Goto(FlowSequenceEntry);
    NextCellSteps(k3, toks[1..]);
    Continues(k, NullScalar(), k1);
    Continues(k1, NullScalar(), k2);
    PairEndMeans(k2);
    ContinueIs(k3, Step(k3));
    FailsAt(ExpectedFlowSequenceEnd);
  }

  lemma NoCellWords(rest: seq<Token>)
    ensures CellWords(NoCells) + ([FlowSequenceEnd] + rest) == [FlowSequenceEnd] + rest
  {
  }

  // What a cell begins with.
  lemma CellFirst(cells: Cells)
    requires CellsFlow(cells) && (cells.Item? || (cells.Pair? && !cells.half.ValueOnly?))
    ensures OneCell(cells) != [] && (Opener(OneCell(cells)[0]) || OneCell(cells)[0].Key?)
  {
    hide Words;
    if cells.Item? {
      FlowsBlock(cells.item);
      WordsBegin(cells.item, false);
    }
  }

  // A `?` in front of a `,`: the `,` is taken for the key, and the parser stops at what follows it.
  lemma LostComma(c: Cells, k: Machine, rest: seq<Token>)
    requires Inside(k) && CellsFlow(c) && c.Pair? && (c.tail.Item? || (c.tail.Pair? && !c.tail.half.ValueOnly?))
    requires k.state.FlowSequenceEntryMappingKey? && k.toks == CellWords(c.tail) + ([FlowSequenceEnd] + rest)
    ensures Continue(k) == Run([NullScalar(), NullScalar(), MappingEnd], Some(ExpectedFlowSequenceEnd))
  {
    hide Resumables, Continue, Machine.Valid, Resume, Step, Words, Flows, RunFrom, OneCell, HalfWords;
    CellBegins(c.tail, rest);
    CellFirst(c.tail);
    var toks := OneCell(c.tail) + (CellWords(c.tail.tail) + ([FlowSequenceEnd] + rest));
    SkipOne(k, FlowEntry, toks);
    HeadOf(OneCell(c.tail), CellWords(c.tail.tail) + ([FlowSequenceEnd] + rest));
    PairKeySteps(k);
    NullAndStop(k, toks);
  }

  // A key read as null, and nothing where a value, a `,` or a `]` is wanted.
  lemma NullAndStop(k: Machine, toks: seq<Token>)
    requires Inside(k) && k.state.FlowSequenceEntryMappingKey? && Ready(k)
    requires toks != [] && !toks[0].Value? && !CellCloses(toks[0])
    requires Step(k) == Emit(NullScalar(), k.(state := FlowSequenceEntryMappingValue, toks := toks))
    ensures Continue(k) == Run([NullScalar(), NullScalar(), MappingEnd], Some(ExpectedFlowSequenceEnd))
  {
    hide Resumables, Continue, Machine.Valid, Resume, Step, RunFrom;
    var k1 := k.(state := FlowSequenceEntryMappingValue, toks := toks);
    PairValueSteps(k1);
    var k2 := k1.Goto(FlowSequenceEntryMappingEnd);
    ReadyAt(k2);
    var k3 := k2.Goto(FlowSequenceEntry);
    NextCellSteps(k3, toks[1..]);
    Continues(k, NullScalar(), k1);
    Continues(k1, NullScalar(), k2);
    PairEndMeans(k2);
    ContinueIs(k3, Step(k3));
    FailsAt(ExpectedFlowSequenceEnd);
  }

  // A `?` in front of the `]`: the bracket is taken for the key, and the sequence is never closed.
  lemma LostBracket(k: Machine, rest: seq<Token>)
    requires Inside(k) && k.state.FlowSequenceEntryMappingKey? && k.toks == [FlowSequenceEnd] + rest
    ensures Surplus(k.Goto(FlowSequenceEntry)) >= 0 ==> Continue(k).error.Some?
  {
    hide Resumables, Continue, Machine.Valid, RunFrom;
    assert Surplus(k.Goto(FlowSequenceEntry)) == Surplus(k);
    hide Surplus;
    PairKeySurplus(k);
    PairKeySteps(k);
    var next := k.Skip().Goto(FlowSequenceEntryMappingValue);
    hide Step;
    ReadyAt(next);
    Continues(k, NullScalar(), next);
    if Surplus(k) >= 0 {
      SurplusFails(next);
      ContinueRuns(next);
    }
  }

  lemma ContinueRuns(k: Machine)
    requires Ready(k)
    ensures Continue(k) == RunFrom(k, false)
  {
    hide RunFrom;
  }

  // A pair without a key in front of the last `,`.
  lemma LastKeyWords(c: Cells, closing: seq<Token>)
    requires LastKey(c) && CellsFlow(c)
    ensures OneCell(c) + (CellWords(c.tail) + closing) == [Key] + ([FlowEntry] + closing) && c.value.Missing?
  {
    assert OneCell(c) == [Key];
  }

  // The `,` has been taken for the key: the value is missing, and the sequence ends.
  lemma LastKeyEnds(k: Machine, rest: seq<Token>)
    requires Inside(k) && k.state.FlowSequenceEntryMappingValue? && k.toks == [FlowSequenceEnd] + rest && rest != []
    ensures Ready(k) && Ready(k.Pop().(toks := rest))
    ensures Continue(k) == Continue(k.Pop().(toks := rest)).After([SequenceEnd]).After([MappingEnd]).After([NullScalar()])
  {
    hide Resumables, Continue, Resume, Step, RunFrom, Finish;
    PairValueSteps(k);
    var k2 := k.Goto(FlowSequenceEntryMappingEnd);
    ReadyAt(k2);
    var k3 := k2.Goto(FlowSequenceEntry);
    SkipOne(k3, FlowSequenceEnd, rest);
    NextCellSteps(k3, rest);
    Back(k3, rest);
    Continues(k, NullScalar(), k2);
    PairEndMeans(k2);
    ContinueIs(k3, Step(k3));
    Emits(SequenceEnd, k3.Pop().(toks := rest));
  }

  lemma LastKeyMeans(c: Cells, k: Machine, rest: seq<Token>)
    requires Inside(k) && LastKey(c) && CellsFlow(c) && rest != []
    requires k.toks == OneCell(c) + (CellWords(c.tail) + ([FlowSequenceEnd] + rest))
    ensures ReadAs(Resume(FlowSequenceItem(k), false), CleanCells(c), MeanCells(c, k.env, true), k.Pop().(toks := rest))
  {
    hide Resumables, Continue, Resume, Step, FlowSequenceItem, RunFrom, Finish, OneCell, CellWords, CellsFlow, CleanCells, MeanCells;
    var closing := [FlowSequenceEnd] + rest;
    LastKeyWords(c, closing);
    SkipOne(k, Key, [FlowEntry] + closing);
    CellSteps(k);
    var k0 := k.(state := FlowSequenceEntryMappingKey, toks := [FlowEntry] + closing);
    SkipOne(k0, FlowEntry, closing);
    PairKeySteps(k0);
    var k1 := k0.(state := FlowSequenceEntryMappingValue, toks := closing);
    LastKeyEnds(k1, rest);
    var target := k.Pop().(toks := rest);
    assert k1.Pop().(toks := rest) == target;
    Emits(MappingStart(NoAnchor, None, Flow), k0);
    Continues(k0, NullScalar(), k1);
    LastKeyMean(c, k.env);
    FiveEvents(Continue(target), MappingStart(NoAnchor, None, Flow));
    SameFinish(MeanCells(c, k.env, true), target);
  }

  lemma SameFinish(mean: Meaning, k: Machine)
    requires mean.verdict == Ok(k.env)
    ensures Finish(mean, k) == Continue(k).After(mean.events)
  {
    hide Continue;
    assert k == k.(env := k.env);
  }

  lemma FiveEvents(run: Run, start: Event)
    ensures run.After([SequenceEnd]).After([MappingEnd]).After([NullScalar()]).After([NullScalar()]).After([start])
         == run.After([start, NullScalar(), NullScalar(), MappingEnd, SequenceEnd])
  {
    var n := NullScalar();
    assert [start] + ([n] + ([n] + ([MappingEnd] + ([SequenceEnd] + run.events))))
        == [start, n, n, MappingEnd, SequenceEnd] + run.events;
  }

  lemma LastKeyMean(c: Cells, env: Env)
    requires LastKey(c) && c.value.Missing?
    ensures CleanCells(c)
    ensures MeanCells(c, env, true) == Meaning([MappingStart(NoAnchor, None, Flow), NullScalar(), NullScalar(), MappingEnd, SequenceEnd], Ok(env))
  {
  }

  lemma FailsAt(e: ParseError)
    ensures Resume(Fail(e), false) == Run([], Some(e))
  {
  }

  lemma PairHalves(c: Cells, k: Machine, tail: seq<Token>)
    requires Inside(k) && CellsFlow(c) && c.Pair? && !c.key.Missing?
    requires tail != [] && CellCloses(tail[0]) && k.state.FlowSequenceEntryMappingKey?
    requires k.toks == Words(c.key) + (ValuePart(c.half, Words(c.value)) + tail)
    ensures ReadAs(Continue(k), CleanPair(c), MeanPair(c, k.env, true), k.(state := FlowSequenceEntry, toks := tail))
    decreases c, 4
  {
    hide Resumables, Continue, Machine.Valid, Resume, Step, RunFrom, Mean, Words, ReadAs, Flows, MeanPair, ValuePart, Clean, Bal;
    var values := ValuePart(c.half, Words(c.value)) + tail;
    var target := k.(state := FlowSequenceEntry, toks := tail);
    var a := Mean(c.key, k.env, true);
    var b := PairRest(c, a);
    PairParts(c, k.env);
    var kv := k.(state := FlowSequenceEntryMappingValue, toks := values);
    PairKeyMeans(c.key, k, values, tail, c);
    ValueEven(c.half, c.value, tail);
    if a.verdict.Ok? {
      PairRestMeans(c, kv.(env := a.verdict.value), tail, a);
      ReadsForget(Continue(kv.(env := a.verdict.value)), Clean(c.value), b, target, a.verdict.value);
    }
    ReadsBoth(Continue(k), Clean(c.key), a, kv, Clean(c.value), b, target);
  }

  function PairRest(c: Cells, a: Meaning): Meaning
    requires c.Pair?
  {
    if a.verdict.Err? then a
    else
      var b := Mean(c.value, a.verdict.value, true);
      Both(b, if b.verdict.Err? then b else Single(MappingEnd, b.verdict.value))
  }

  lemma PairParts(c: Cells, env: Env)
    requires c.Pair?
    ensures MeanPair(c, env, true) == Both(Mean(c.key, env, true), PairRest(c, Mean(c.key, env, true)))
  {
    hide Mean;
  }

  // Neither half of the pair has a node; the parser takes the `:` for the key.
  lemma NoPairMeans(c: Cells, k: Machine, tail: seq<Token>)
    requires Inside(k) && CellsFlow(c) && c.Pair? && c.key.Missing? && c.value.Missing? && c.half.KeyAndValue?
    requires tail != [] && CellCloses(tail[0]) && k.state.FlowSequenceEntryMappingKey?
    requires k.toks == Words(c.key) + (ValuePart(c.half, Words(c.value)) + tail)
    ensures Continue(k) == Finish(MeanPair(c, k.env, true), k.(state := FlowSequenceEntry, toks := tail))
  {
    hide Resumables, Continue, Machine.Valid, Resume, Step, RunFrom, Flows, MeanPair;
    assert k.toks == [Value] + tail;
    SkipOne(k, Value, tail);
    PairKeySteps(k);
    var k1 := k.(state := FlowSequenceEntryMappingValue, toks := tail);
    PairValueSteps(k1);
    var k2 := k1.Goto(FlowSequenceEntryMappingEnd);
    ReadyAt(k2);
    Continues(k, NullScalar(), k1);
    Continues(k1, NullScalar(), k2);
    PairEndMeans(k2);
    NullPair(c, k.env);
    assert k2.Goto(FlowSequenceEntry) == k.(state := FlowSequenceEntry, toks := tail);
  }

  lemma NullPair(c: Cells, env: Env)
    requires c.Pair? && c.key.Missing? && c.value.Missing?
    ensures MeanPair(c, env, true) == Meaning([NullScalar(), NullScalar(), MappingEnd], Ok(env))
  {
  }

  lemma PairKeyMeans(n: Node, k: Machine, values: seq<Token>, tail: seq<Token>, c: Cells)
    requires Inside(k) && Flows(n) && !n.Missing? && k.state.FlowSequenceEntryMappingKey? && k.toks == Words(n) + values
    requires c.Pair? && tail != [] && CellCloses(tail[0]) && values == ValuePart(c.half, Words(c.value)) + tail
    ensures ReadAs(Continue(k), Clean(n),
                  Mean(n, k.env, true), k.(state := FlowSequenceEntryMappingValue, toks := values))
    decreases n, 6
  {
    hide Resumables, Continue, Machine.Valid, Resume, Step, RunFrom, Mean, Words, Finish, Flows, Nested;
    FlowsBlock(n);
    assert values != [] && (values[0].Value? || CellCloses(values[0]));
    WordsOrTail(n, false, values);
    PairKeySteps(k);
    ContinueIs(k, Step(k));
    assert k == k.(toks := Words(n) + values);
    PlacedMeans(n, k, Step(k), FlowSequenceEntryMappingValue, values, false, false);
  }

  lemma PairRestMeans(c: Cells, k: Machine, tail: seq<Token>, a: Meaning)
    requires Inside(k) && CellsFlow(c) && c.Pair? && tail != [] && CellCloses(tail[0]) && a.verdict == Ok(k.env)
    requires k.state.FlowSequenceEntryMappingValue? && k.toks == ValuePart(c.half, Words(c.value)) + tail
    ensures ReadAs(Continue(k), Clean(c.value),
                  PairRest(c, a), k.(state := FlowSequenceEntry, toks := tail))
    decreases c, 3
  {
    hide Resumables, Continue, Machine.Valid, Words, Flows, ValuePart, Mean, Finish;
    PairValueMeans(c.half, c.value, k, tail);
    var b := Mean(c.value, k.env, true);
    var k2 := k.(state := FlowSequenceEntryMappingEnd, toks := tail);
    var target := k.(state := FlowSequenceEntry, toks := tail);
    var e := if b.verdict.Err? then b else Single(MappingEnd, b.verdict.value);
    assert Surplus(k2) == Surplus(target);
    if b.verdict.Ok? {
      PairEndMeans(k2.(env := b.verdict.value));
      ReadsForget(Continue(k2.(env := b.verdict.value)), true, e, target, b.verdict.value);
    }
    ReadsBoth(Continue(k), Clean(c.value), b, k2, true, e, target);
  }

  lemma PairValueMeans(half: Halves, n: Node, k: Machine, tail: seq<Token>)
    requires Inside(k) && Flows(n) && k.state.FlowSequenceEntryMappingValue? && k.toks == ValuePart(half, Words(n)) + tail
    requires tail != [] && CellCloses(tail[0]) && (half.KeyOnly? ==> n.Missing?)
    ensures ReadAs(Continue(k), Clean(n),
                  Mean(n, k.env, true), k.(state := FlowSequenceEntryMappingEnd, toks := tail))
    decreases n, 7
  {
    hide Resumables, Continue, Resume, Machine.Valid, Nested, Flows, Step, Words, Finish, Mean;
    FlowsBlock(n);
    if half.KeyOnly? {
      assert k.toks == tail;
      assert k.Goto(FlowSequenceEntryMappingEnd) == k.(state := FlowSequenceEntryMappingEnd, toks := tail);
    } else {
      assert k.toks == [Value] + (Words(n) + tail);
      SkipOne(k, Value, Words(n) + tail);
      WordsOrTail(n, false, tail);
    }
    PairValueSteps(k);
    ContinueIs(k, Step(k));
    PlacedMeans(n, k, Step(k), FlowSequenceEntryMappingEnd, tail, false, false);
  }
}
