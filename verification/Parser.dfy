// The parser itself: it buffers one token, queues the comments it meets, and otherwise steps as
// the automaton does on the tokens that are not comments (crates/yamluna-scanner/src/parser.rs).
module Parser {
  import opened Results
  import opened ScalarEmitter
  import opened Events
  import opened ParserStep
  import opened Grammar
  import opened Anchors
  import opened ParserSafety
  import opened ParserRun

  // ------------------------------------------------------------------ comments in the token stream

  // What the automaton sees of a token stream: everything but the comments, up to the stream end.
  function Erase(source: seq<Token>): (r: seq<Token>)
    ensures |r| <= |source|
  {
    if source == [] then []
    else if source[0].Comment? then Erase(source[1..])
    else if source[0].StreamEnd? then [source[0]]
    else [source[0]] + Erase(source[1..])
  }

  // The comments of a token stream, as events.
  function Comments(source: seq<Token>): seq<Event> {
    if source == [] || source[0].StreamEnd? then []
    else if source[0].Comment? then [Event.Comment(source[0].text)] + Comments(source[1..])
    else Comments(source[1..])
  }

  // A queue of events: comments, and behind them at most one event that is not.
  ghost predicate IsQueue(q: seq<Event>) {
    forall i | 0 <= i < |q| - 1 :: q[i].Comment?
  }

  function Waiting(q: seq<Event>): Option<Event> {
    if q != [] && !q[|q| - 1].Comment? then Some(q[|q| - 1]) else None
  }

  function QueuedComments(q: seq<Event>): seq<Event> {
    if Waiting(q).Some? then q[..|q| - 1] else q
  }

  ghost predicate AllComments(q: seq<Event>) {
    forall i | 0 <= i < |q| :: q[i].Comment?
  }

  // Taking the head of a queue.
  lemma QueueTail(q: seq<Event>)
    requires IsQueue(q) && q != []
    ensures IsQueue(q[1..])
    ensures if q[0].Comment? then Waiting(q[1..]) == Waiting(q) && QueuedComments(q) == [q[0]] + QueuedComments(q[1..])
            else q[1..] == [] && Waiting([]) == None && Waiting(q) == Some(q[0]) && QueuedComments(q) == QueuedComments([]) == []
  {
  }

  // Putting the head of a queue back.
  lemma QueuePutBack(e: Event, q: seq<Event>)
    requires IsQueue(q) && (e.Comment? || q == [])
    ensures IsQueue([e] + q) && ([e] + q)[1..] == q
    ensures Waiting([e] + q) == if e.Comment? then Waiting(q) else Some(e)
    ensures QueuedComments([e] + q) == if e.Comment? then [e] + QueuedComments(q) else []
    ensures QueuedComments([]) == []
  {
  }

  // Comments, and an event queued behind them.
  lemma QueueBuilt(q: seq<Event>, e: Event)
    requires AllComments(q)
    ensures IsQueue(q) && Waiting(q) == None && QueuedComments(q) == q
    ensures !e.Comment? ==> IsQueue(q + [e]) && Waiting(q + [e]) == Some(e) && QueuedComments(q + [e]) == q
  {
  }

  lemma FirstOf(e: Event, a: seq<Event>, b: seq<Event>)
    ensures [e] + a + b == [e] + (a + b)
  {
  }

  lemma StepIsStructural(m: Machine)
    requires m.Valid()
    ensures Step(m).Emit? ==>
              && !Step(m).event.Comment? && Step(m).next.Valid()
              && (Step(m).event.StreamEnd? <==> Step(m).next.state.End?)
              && (if m.state.End? then Step(m) == Emit(Event.StreamEnd, m) else Distance(Step(m).next) < Distance(m))
  {
    hide Step, Goals, Machine.Valid;
    if m.state.End? {
      StepEnd(m);
    } else {
      StepSafe(m);
      if Step(m).Emit? {
        OnlyStreamEndEnds(m, Step(m).next, Step(m).event);
      }
    }
  }

  // Which states report the start and the end of the stream.
  lemma OnlyDocumentStartReports(m: Machine)
    requires m.Valid() && !m.state.End?
    ensures Step(m).Emit? && Step(m).event.StreamEnd? ==> m.state.DocumentStart? || m.state.ImplicitDocumentStart?
    ensures Step(m).Emit? && Step(m).event.StreamStart? ==> m.state.StreamStart?
  {
    hide Step, Goals, Machine.Valid;
    StepSafe(m);
    GoalsShape(m);
  }

  lemma StepEnd(m: Machine)
    requires m.Valid() && m.state.End?
    ensures Step(m) == Emit(Event.StreamEnd, m)
  {
  }

  lemma {:induction false} CommentsAreComments(source: seq<Token>)
    ensures AllComments(Comments(source))
  {
    if source != [] && !source[0].StreamEnd? {
      CommentsAreComments(source[1..]);
    }
  }

  // One more event of a run has been received.
  lemma RunAfter(r: Run, before: seq<Event>, e: Event)
    ensures r.After([e]).After(before) == r.After(before + [e])
  {
    assert before + ([e] + r.events) == before + [e] + r.events;
  }

  lemma NoComments()
    ensures Comments([]) == []
  {
  }

  lemma ReceiveEvent(o: Outcome, n: Machine, e: Event, whole: Run, received: seq<Event>, perDocument: bool)
    requires o == Emit(e, n) && n.Valid() && (e.StreamEnd? <==> n.state.End?) && !e.Comment?
    requires whole == Resume(o, perDocument).After(Structural(received))
    ensures Forget(n, e, perDocument).Valid()
    ensures whole == if e.StreamEnd? then Run(Structural(received + [e]), None)
                     else Resume(Step(Forget(n, e, perDocument)), perDocument).After(Structural(received + [e]))
  {
    hide Step, Structural, RunFrom;
    Received(received, e);
    if !e.StreamEnd? {
      var k := Forget(n, e, perDocument);
      ParseResumes(k, perDocument);
      RunAfter(RunFrom(k, perDocument), Structural(received), e);
    }
  }

  // What has been received when there is nothing more to come.
  ghost predicate Finished(whole: Run, comments: seq<Event>, events: seq<Event>, error: Option<ParseError>) {
    && whole == Run(Structural(events), error)
    && CommentsOf(events) <= comments
    && (error == None ==> CommentsOf(events) == comments)
  }

  lemma FailsAfter(e: ParseError, before: seq<Event>, perDocument: bool)
    ensures Resume(Fail(e), perDocument).After(before) == Run(before, Some(e))
  {
  }

  // What a reader of a sequence meets, and what it is owed behind it.
  predicate ItemOrEnd(e: Event) {
    IsNodeEvent(e) || e.SequenceEnd?
  }

  function ItemGoals(goals: seq<Goal>, e: Event): seq<Goal>
    requires ItemOrEnd(e)
  {
    if e.SequenceEnd? then goals else OpenNode(goals + [Items], e).value
  }

  lemma ItemNext(goals: seq<Goal>, e: Result<Event, ParseError>)
    ensures e.Ok? && Advance(goals + [Items], e.value).Some? ==>
              ItemOrEnd(e.value) && Advance(goals + [Items], e.value).value == ItemGoals(goals, e.value)
  {
    assert (goals + [Items])[..|goals|] == goals;
  }

  predicate KeyOrEnd(e: Event) {
    IsNodeEvent(e) || e.MappingEnd?
  }

  function KeyGoals(goals: seq<Goal>, e: Event): seq<Goal>
    requires KeyOrEnd(e)
  {
    if e.MappingEnd? then goals else OpenNode(goals + [Pairs] + [Node], e).value
  }

  lemma KeyNext(goals: seq<Goal>, e: Result<Event, ParseError>)
    ensures e.Ok? && Advance(goals + [Pairs], e.value).Some? ==>
              KeyOrEnd(e.value) && Advance(goals + [Pairs], e.value).value == KeyGoals(goals, e.value)
  {
    assert (goals + [Pairs])[..|goals|] == goals;
  }

  lemma ValueNext(goals: seq<Goal>, e: Result<Event, ParseError>)
    ensures e.Ok? && Advance(goals + [Pairs] + [Node], e.value).Some? ==>
              && IsNodeEvent(e.value)
              && Advance(goals + [Pairs] + [Node], e.value) == OpenNode(goals + [Pairs], e.value)
  {
    assert (goals + [Pairs] + [Node])[..|goals| + 1] == goals + [Pairs];
  }

  lemma DocumentGoals()
    ensures [Documents, DocumentTail, Node] == [Documents, DocumentTail] + [Node]
  {
  }

  lemma RootNext(e: Event)
    requires Advance([Documents, DocumentTail, Node], e).Some?
    ensures IsNodeEvent(e) && Advance([Documents, DocumentTail, Node], e) == OpenNode([Documents, DocumentTail], e)
  {
    assert [Documents, DocumentTail, Node][..2] == [Documents, DocumentTail];
  }

  lemma TailNext(e: Event)
    requires Advance([Documents, DocumentTail], e).Some?
    ensures e == Event.DocumentEnd && Advance([Documents, DocumentTail], e) == Some([Documents])
  {
    assert [Documents, DocumentTail][..1] == [Documents];
  }

  lemma StreamNext(e: Event)
    requires Advance([WholeStream], e).Some?
    ensures e == Event.StreamStart && Advance([WholeStream], e) == Some([Documents])
  {
    assert [WholeStream][..0] + [Documents] == [Documents];
  }

  lemma DocumentNext(e: Event)
    requires Advance([Documents], e).Some?
    ensures if e.StreamEnd? then Advance([Documents], e) == Some([])
            else e.DocumentStart? && Advance([Documents], e) == Some([Documents, DocumentTail, Node])
  {
    assert [Documents][..0] == [];
    assert [Documents] + [DocumentTail, Node] == [Documents, DocumentTail, Node];
  }

  // What the next event of a machine does to the goals of a reader.
  lemma StepAhead(m: Machine, goals: seq<Goal>)
    requires m.Valid() && !m.state.End? && Goals(m) == goals
    ensures Step(m).Emit? ==>
              && Advance(goals, Step(m).event) == Some(Goals(Step(m).next))
              && Distance(Step(m).next) < Distance(m)
  {
    hide Step, Goals, Machine.Valid;
    StepSafe(m);
  }

  // A parser seen from outside: the automaton, the queue, the comments due and the next event.
  datatype Snapshot = Snapshot(view: Machine, queue: seq<Event>, due: seq<Event>, future: Outcome)

  class Parser {
    // The scanner: the tokens it has still to hand out, and the error it stops with.
    var source: seq<Token>
    var streamStarted: bool
    var streamEnded: bool
    const scanError: Option<string>

    var states: seq<State>
    var state: State
    var token: Option<Token>
    var current: Option<Event>
    var pending: seq<Event>
    var anchors: map<string, nat>
    var anchorIdCount: nat
    var tags: map<string, string>
    var version: Option<(nat, nat)>
    var streamEndEmitted: bool
    var keepTags: bool

    // ---------------------------------------------------------------- what the fields mean

    ghost function Unread(): seq<Token>
      reads this`source, this`streamEnded
    {
      if streamEnded then [] else source
    }

    ghost function Toks(): seq<Token>
      reads this`source, this`streamEnded, this`token
    {
      (if token.Some? then [token.value] else []) + Erase(Unread())
    }

    ghost function Env(): Env
      reads this`anchors, this`anchorIdCount, this`tags, this`version, this`keepTags
    {
      ParserStep.Env(anchors, anchorIdCount, tags, version, keepTags, scanError)
    }

    ghost function View(): Machine
      reads this
    {
      Machine(state, states, Toks(), Env())
    }

    // The comments not yet handed on, behind whatever is queued already.
    ghost function Backlog(): seq<Event>
      reads this`source, this`streamEnded, this`pending
    {
      pending + Comments(Unread())
    }

    ghost function Queue(): seq<Event>
      reads this`current, this`pending
    {
      (if current.Some? then [current.value] else []) + pending
    }

    // The comments a receiver has still to be given.
    ghost function Due(): seq<Event>
      reads this`current, this`pending, this`source, this`streamEnded
    {
      QueuedComments(Queue()) + Comments(Unread())
    }

    // The next event that is not a comment, and the automaton behind it.
    ghost function Future(): Outcome
      requires View().Valid()
      reads this
    {
      if Waiting(Queue()).Some? then Emit(Waiting(Queue()).value, View()) else Step(View())
    }

    ghost function Now(): Snapshot
      requires View().Valid()
      reads this
    {
      Snapshot(View(), Queue(), Due(), Future())
    }

    // What an event says about the state behind it.
    ghost predicate Announced(e: Event)
      reads this`state, this`streamEnded
    {
      (e.StreamEnd? <==> state.End?) && (e.StreamStart? ==> !streamEnded)
    }

    ghost predicate Valid()
      reads this
    {
      && Buffered() && View().Valid() && IsQueue(Queue())
      && (state.End? ==> streamEnded)
      && (Waiting(Queue()).Some? ==> Announced(Waiting(Queue()).value))
    }

    ghost predicate Buffered()
      reads this`token, this`streamEnded
    {
      token.Some? ==> !token.value.Comment? && (streamEnded <==> token.value.StreamEnd?)
    }

    // Tokens have been read: comments among them are queued in order, and nothing else is.
    twostate predicate Reading()
      reads this
    {
      && Buffered()
      && Backlog() == old(Backlog())
      && old(pending) <= pending
      && current == old(current)
      && streamEndEmitted == old(streamEndEmitted)
    }

    // The outcome of a method is what the automaton does.
    ghost predicate Realises(r: Result<Event, ParseError>, o: Outcome)
      reads this
    {
      match o
      case Fail(e) => r == Err(e)
      case Emit(e, n) => r == Ok(e) && View() == n
    }

    constructor (tokens: seq<Token>, scanError: Option<string>)
      ensures source == tokens && this.scanError == scanError && !streamStarted && !streamEnded
      ensures View() == Machine(State.StreamStart, [], Erase(tokens), ParserStep.Env(map[], 1, map[], None, false, scanError))
      ensures Buffered() && current == None && pending == [] && Backlog() == Comments(tokens) && !streamEndEmitted
    {
      source, streamStarted, streamEnded := tokens, false, false;
      this.scanError := scanError;
      states, state, token, current, pending := [], State.StreamStart, None, None, [];
      anchors, anchorIdCount, tags, version := map[], 1, map[], None;
      streamEndEmitted, keepTags := false, false;
    }

    // ---------------------------------------------------------------- tokens

    method ScanNextToken() returns (r: Result<Token, ParseError>)
      modifies this`source, this`streamStarted, this`streamEnded
      ensures r.Err? ==> r.error == View().Eof() && old(Unread()) == Unread() == []
      ensures r.Ok? ==> |Unread()| < old(|Unread()|)
      ensures r.Ok? && r.value.Comment? ==>
                && old(Erase(Unread())) == Erase(Unread())
                && old(Comments(Unread())) == [Event.Comment(r.value.text)] + Comments(Unread())
      ensures r.Ok? && !r.value.Comment? ==>
                && old(Erase(Unread())) == [r.value] + Erase(Unread())
                && old(Comments(Unread())) == Comments(Unread())
      ensures r.Ok? ==> (streamEnded <==> r.value.StreamEnd?)
    {
      if streamEnded || source == [] {
        return Err(match scanError case None => UnexpectedEof case Some(info) => ScannerError(info));
      }
      r := Ok(source[0]);
      streamStarted := true;
      streamEnded := source[0].StreamEnd?;
      source := source[1..];
    }

    method PeekToken() returns (r: Result<Token, ParseError>)
      requires Buffered()
      modifies this`source, this`streamStarted, this`streamEnded, this`token, this`pending
      ensures Reading() && View() == old(View())
      ensures r.Ok? ==> token == Some(r.value) && View().toks != [] && r.value == View().toks[0]
      ensures r.Err? ==> View().toks == [] && r.error == View().Eof()
    {
      hide Erase, Comments;
      while token.None?
        invariant Buffered() && Toks() == old(Toks()) && Backlog() == old(Backlog()) && old(pending) <= pending
        decreases |Unread()|, token.None?
      {
        var t := ScanNextToken();
        if t.Err? {
          return t;
        }
        if t.value.Comment? {
          pending := pending + [Event.Comment(t.value.text)];
        } else {
          token := Some(t.value);
        }
      }
      r := Ok(token.value);
    }

    method FetchToken() returns (t: Token)
      requires token.Some?
      modifies this`token
      ensures t == old(token.value) && token == None && View() == old(View()).Skip()
    {
      t := token.value;
      token := None;
    }

    method Skip()
      modifies this`token
      ensures token == None && (old(token).Some? ==> View() == old(View()).Skip())
    {
      token := None;
    }

    method PopState()
      requires states != []
      modifies this`state, this`states
      ensures View() == old(View()).Pop()
    {
      state, states := states[|states| - 1], states[..|states| - 1];
    }

    method PushState(s: State)
      modifies this`states
      ensures View() == old(View()).Push(s)
    {
      states := states + [s];
    }

    // ---------------------------------------------------------------- stream and documents

    method StreamStart() returns (r: Result<Event, ParseError>)
      requires Buffered()
      modifies this
      ensures Reading() && Realises(r, OnStreamStart(old(View())))
      ensures r.Ok? ==> !streamEnded
    {
      hide Backlog, Toks, Env, Unread, Erase, Comments;
      var t :- PeekToken();
      if t.StreamStart? {
        state := ImplicitDocumentStart;
        Skip();
        return Ok(Event.StreamStart);
      }
      return Err(ExpectedStreamStart);
    }

    method SkipDocumentEndTokens() returns (r: Result<Token, ParseError>)
      requires Buffered()
      modifies this`source, this`streamStarted, this`streamEnded, this`token, this`pending
      ensures Reading() && View() == SkipDocumentEnds(old(View()))
      ensures r.Ok? ==> token == Some(r.value) && View().toks != [] && r.value == View().toks[0]
      ensures r.Ok? ==> (streamEnded <==> r.value.StreamEnd?)
      ensures r.Err? ==> View().toks == [] && r.error == View().Eof()
    {
      hide Backlog, Toks, Env, Unread, Erase, Comments;
      r := PeekToken();
      while r.Ok? && r.value.DocumentEnd?
        invariant Reading() && SkipDocumentEnds(View()) == SkipDocumentEnds(old(View()))
        invariant r.Ok? ==> token == Some(r.value) && View().toks != [] && r.value == View().toks[0]
        invariant r.Err? ==> View().toks == [] && r.error == View().Eof()
        decreases |View().toks|
      {
        Skip();
        r := PeekToken();
      }
    }

    method DocumentStart(implicit: bool) returns (r: Result<Event, ParseError>)
      requires Buffered()
      modifies this
      ensures Reading() && Realises(r, OnDocumentStart(old(View()), implicit))
      ensures r == Ok(Event.StreamEnd) ==> streamEnded
    {
      hide Backlog, Toks, Env, Unread, Erase, Comments, SkipDocumentEnds, ReadDirectives;
      var t :- SkipDocumentEndTokens();
      if t.StreamEnd? {
        state := End;
        Skip();
        return Ok(Event.StreamEnd);
      }
      if IsDirective(t) || t.DocumentStart? || !implicit {
        r := ExplicitDocumentStart();
        return;
      }
      var _ :- ParserProcessDirectives();
      PushState(State.DocumentEnd);
      state := State.BlockNode;
      return Ok(Event.DocumentStart(false));
    }

    // One directive, if one is next; None when it is not.
    method ProcessDirective(d: Directives) returns (r: Result<Option<Directives>, ParseError>)
      requires Buffered()
      modifies this`source, this`streamStarted, this`streamEnded, this`token, this`pending, this`version
      ensures Reading()
      ensures match r
              case Err(e) => ReadDirectives(old(View()), d) == Err(e)
              case Ok(Some(next)) =>
                ReadDirectives(old(View()), d) == ReadDirectives(View(), next) && |View().toks| < |old(View()).toks|
              case Ok(None) =>
                && View() == old(View()) && View().toks != []
                && token == Some(View().toks[0]) && !IsDirective(View().toks[0])
    {
      hide Backlog, Toks, Unread, Erase, Comments;
      var t :- PeekToken();
      if t.VersionDirective? {
        if d.versionSeen {
          return Err(DuplicateVersionDirective);
        }
        version := Some((t.major, t.minor));
        Skip();
        return Ok(Some(d.(versionSeen := true)));
      } else if t.TagDirective? {
        if t.handle in d.tags {
          return Err(DuplicateTagDirective);
        }
        Skip();
        return Ok(Some(d.(tags := d.tags[t.handle := t.prefix])));
      } else if t.ReservedDirective? {
        Skip();
        return Ok(Some(d));
      }
      return Ok(None);
    }

    method ParserProcessDirectives() returns (r: Result<(), ParseError>)
      requires Buffered()
      modifies this`source, this`streamStarted, this`streamEnded, this`token, this`pending, this`version, this`tags
      ensures Reading()
      ensures match ProcessDirectives(old(View()))
              case Err(e) => r == Err(e)
              case Ok(n) => r.Ok? && View() == n && token == Some(n.toks[0])
    {
      hide Backlog, Toks, Unread, Erase, Comments, ReadDirectives;
      var d := Directives(false, map[]);
      version := None;
      ghost var spec := ProcessDirectives(old(View()));
      var more := true;
      while more
        invariant Reading() && ReadDirectives(View(), d) == spec
        invariant !more ==> View().toks != [] && token == Some(View().toks[0]) && !IsDirective(View().toks[0])
        decreases |View().toks|, more
      {
        var next :- ProcessDirective(d);
        match next {
          case None => more := false;
          case Some(value) => d := value;
        }
      }
      DirectivesEnd(View(), d);
      tags := tags + d.tags;
      return Ok(());
    }

    method ExplicitDocumentStart() returns (r: Result<Event, ParseError>)
      requires Buffered()
      modifies this
      ensures Reading() && Realises(r, OnExplicitDocumentStart(old(View())))
    {
      hide Backlog, Toks, Env, Unread, Erase, Comments, ReadDirectives;
      var _ :- ParserProcessDirectives();
      if token.value.DocumentStart? {
        PushState(State.DocumentEnd);
        state := State.DocumentContent;
        Skip();
        return Ok(Event.DocumentStart(true));
      }
      return Err(ExpectedDocumentStart);
    }

    method DocumentContent() returns (r: Result<Event, ParseError>)
      requires Buffered() && states != []
      modifies this
      ensures Reading() && Realises(r, OnDocumentContent(old(View())))
    {
      hide Backlog, Toks, Env, Unread, Erase, Comments, OnNode, Machine.Valid, Resumables, Machine.Eof;
      var t :- PeekToken();
      if EndsContent(t) {
        PopState();
        return Ok(NullScalar());
      }
      r := ParseNode(true, false);
    }

    method DocumentEnd() returns (r: Result<Event, ParseError>)
      requires Buffered()
      modifies this
      ensures Reading() && Realises(r, OnDocumentEnd(old(View())))
    {
      hide Backlog, Toks, Unread, Erase, Comments;
      var explicitEnd := false;
      var t :- PeekToken();
      if t.DocumentEnd? {
        explicitEnd := true;
        Skip();
      }
      if !keepTags {
        tags := map[];
      }
      if explicitEnd {
        state := ImplicitDocumentStart;
      } else {
        if IsDirective(t) {
          return Err(MissingDocumentEndBeforeDirective);
        }
        state := State.DocumentStart;
      }
      return Ok(Event.DocumentEnd);
    }

    // ---------------------------------------------------------------- nodes

    method RegisterAnchor(name: string) returns (a: AnchorRef)
      modifies this`anchors, this`anchorIdCount
      ensures a == AnchorRef(old(anchorIdCount), Some(name)) && View() == Register(old(View()), name)
    {
      var newId := anchorIdCount;
      anchorIdCount := anchorIdCount + 1;
      anchors := anchors[name := newId];
      a := AnchorRef(newId, Some(name));
    }

    // Properties read, and where the automaton is behind them.
    ghost predicate Yields(r: Result<Properties, ParseError>, spec: Result<(Properties, Machine), ParseError>)
      reads this
    {
      match spec
      case Err(e) => r == Err(e)
      case Ok((p, n)) => r == Ok(p) && View() == n
    }

    method ParseAnchorThenTag(name: string) returns (r: Result<Properties, ParseError>)
      requires Buffered() && token.Some?
      modifies this
      ensures Reading() && Yields(r, AnchorThenTag(old(View()), name))
    {
      hide Backlog, Toks, Unread, Erase, Comments;
      Skip();
      var anchor := RegisterAnchor(name);
      var t :- PeekToken();
      if t.Tag? {
        Skip();
        var tag :- ResolveTag(tags, t.handle, t.suffix);
        return Ok(Properties(anchor, Some(tag)));
      }
      return Ok(Properties(anchor, None));
    }

    method ParseTagThenAnchor(handle: string, suffix: string) returns (r: Result<Properties, ParseError>)
      requires Buffered() && token.Some?
      modifies this
      ensures Reading() && Yields(r, TagThenAnchor(old(View()), handle, suffix))
    {
      hide Backlog, Toks, Unread, Erase, Comments;
      Skip();
      var tag :- ResolveTag(tags, handle, suffix);
      var t :- PeekToken();
      if t.Anchor? {
        Skip();
        var anchor := RegisterAnchor(t.name);
        return Ok(Properties(anchor, Some(tag)));
      }
      return Ok(Properties(NoAnchor, Some(tag)));
    }

    // The anchor and the tag in front of a node, in either order.
    method ParseProperties() returns (r: Result<Properties, ParseError>)
      requires Buffered()
      modifies this
      ensures Reading() && Yields(r, ReadProperties(old(View())))
    {
      hide Backlog, Toks, Unread, Erase, Comments, AnchorThenTag, TagThenAnchor;
      var t :- PeekToken();
      if t.Anchor? {
        r := ParseAnchorThenTag(t.name);
      } else if t.Tag? {
        r := ParseTagThenAnchor(t.handle, t.suffix);
      } else {
        r := Ok(Properties(NoAnchor, None));
      }
    }

    method ParseNode(block: bool, indentlessSequence: bool) returns (r: Result<Event, ParseError>)
      requires Buffered() && states != []
      modifies this
      ensures Reading() && Realises(r, OnNode(old(View()), block, indentlessSequence))
    {
      hide Backlog, Toks, Unread, Erase, Comments, ReadProperties, NodeContent;
      var t :- PeekToken();
      if t.Alias? {
        PopState();
        var alias := FetchToken();
        if alias.name !in anchors {
          return Err(UnknownAnchor);
        }
        return Ok(Event.Alias(AnchorRef(anchors[alias.name], Some(alias.name))));
      }
      var p :- ParseProperties();
      r := ParseContent(p, block, indentlessSequence);
    }

    // The node itself, behind its properties.
    method ParseContent(p: Properties, block: bool, indentless: bool) returns (r: Result<Event, ParseError>)
      requires Buffered() && states != []
      modifies this
      ensures Reading() && Realises(r, NodeContent(old(View()), p, block, indentless))
    {
      hide Backlog, Toks, Env, Unread, Erase, Comments;
      var t :- PeekToken();
      if t.BlockEntry? && indentless {
        state := State.IndentlessSequenceEntry;
        r := Ok(SequenceStart(p.anchor, p.tag, Block));
      } else if t.Scalar? {
        PopState();
        var s := FetchToken();
        r := Ok(Event.Scalar(s.value, s.style, p.anchor, p.tag));
      } else if t.FlowSequenceStart? {
        state := FlowSequenceFirstEntry;
        r := Ok(SequenceStart(p.anchor, p.tag, Flow));
      } else if t.FlowMappingStart? {
        state := FlowMappingFirstKey;
        r := Ok(MappingStart(p.anchor, p.tag, Flow));
      } else if t.BlockSequenceStart? && block {
        state := BlockSequenceFirstEntry;
        r := Ok(SequenceStart(p.anchor, p.tag, Block));
      } else if t.BlockMappingStart? && block {
        state := BlockMappingFirstKey;
        r := Ok(MappingStart(p.anchor, p.tag, Block));
      } else if p.tag.Some? || p.anchor.id > 0 {
        PopState();
        r := Ok(Event.Scalar("", ScalarStyle.Plain, p.anchor, p.tag));
      } else {
        r := Err(ExpectedNodeContent);
      }
    }

    // The token an entry begins with, past the one that opens the collection.
    method PeekEntry(first: bool) returns (r: Result<Token, ParseError>)
      requires Buffered()
      modifies this`source, this`streamStarted, this`streamEnded, this`token, this`pending
      ensures Reading()
      ensures r.Ok? ==>
                && (first ==> old(View()).toks != [])
                && View() == (if first then old(View()).Skip() else old(View()))
                && token == Some(r.value) && View().toks != [] && r.value == View().toks[0]
      ensures r.Err? ==>
                || (old(View()).toks == [] && r.error == old(View()).Eof())
                || (first && old(View()).toks != [] && old(View()).Skip().toks == [] && r.error == old(View()).Skip().Eof())
    {
      hide Backlog, Toks, Env, Unread, Erase, Comments;
      if first {
        var _ :- PeekToken();
        Skip();
      }
      r := PeekToken();
    }

    // ---------------------------------------------------------------- block collections

    method BlockMappingKey(first: bool) returns (r: Result<Event, ParseError>)
      requires Buffered() && states != []
      modifies this
      ensures Reading() && Realises(r, OnBlockMappingKey(old(View()), first))
    {
      hide Backlog, Toks, Env, Unread, Erase, Comments, OnNode, Machine.Valid, Resumables, Machine.Eof;
      var t :- PeekEntry(first);
      if t.Key? {
        Skip();
        var u :- PeekToken();
        if EndsBlockNode(u) {
          state := State.BlockMappingValue;
          return Ok(NullScalar());
        }
        PushState(State.BlockMappingValue);
        r := ParseNode(true, true);
      } else if t.Value? {
        state := State.BlockMappingValue;
        r := Ok(NullScalar());
      } else if t.BlockEnd? {
        PopState();
        Skip();
        r := Ok(MappingEnd);
      } else {
        r := Err(ExpectedBlockKey);
      }
    }

    method BlockMappingValue() returns (r: Result<Event, ParseError>)
      requires Buffered() && states != []
      modifies this
      ensures Reading() && Realises(r, OnBlockMappingValue(old(View())))
    {
      hide Backlog, Toks, Env, Unread, Erase, Comments, OnNode, Machine.Valid, Resumables, Machine.Eof;
      var t :- PeekToken();
      if t.Value? {
        Skip();
        var u :- PeekToken();
        if EndsBlockNode(u) {
          state := State.BlockMappingKey;
          r := Ok(NullScalar());
        } else {
          PushState(State.BlockMappingKey);
          r := ParseNode(true, true);
        }
      } else {
        state := State.BlockMappingKey;
        r := Ok(NullScalar());
      }
    }

    method BlockSequenceEntry(first: bool) returns (r: Result<Event, ParseError>)
      requires Buffered() && states != []
      modifies this
      ensures Reading() && Realises(r, OnBlockSequenceEntry(old(View()), first))
    {
      hide Backlog, Toks, Env, Unread, Erase, Comments, OnNode, Machine.Valid, Resumables, Machine.Eof;
      var t :- PeekEntry(first);
      if t.BlockEnd? {
        PopState();
        Skip();
        r := Ok(SequenceEnd);
      } else if t.BlockEntry? {
        Skip();
        var u :- PeekToken();
        if u.BlockEntry? || u.BlockEnd? {
          state := State.BlockSequenceEntry;
          return Ok(NullScalar());
        }
        PushState(State.BlockSequenceEntry);
        r := ParseNode(true, false);
      } else {
        r := Err(ExpectedBlockEntry);
      }
    }

    method IndentlessSequenceEntry() returns (r: Result<Event, ParseError>)
      requires Buffered() && states != []
      modifies this
      ensures Reading() && Realises(r, OnIndentlessSequenceEntry(old(View())))
    {
      hide Backlog, Toks, Env, Unread, Erase, Comments, OnNode, Machine.Valid, Resumables, Machine.Eof;
      var t :- PeekToken();
      if t.BlockEntry? {
        Skip();
        var u :- PeekToken();
        if u.BlockEntry? || EndsBlockNode(u) {
          state := State.IndentlessSequenceEntry;
          return Ok(NullScalar());
        }
        PushState(State.IndentlessSequenceEntry);
        r := ParseNode(true, false);
      } else {
        PopState();
        r := Ok(SequenceEnd);
      }
    }

    // ---------------------------------------------------------------- flow collections

    method FlowMappingKey(first: bool) returns (r: Result<Event, ParseError>)
      requires Buffered() && states != []
      modifies this
      ensures Reading() && Realises(r, OnFlowMappingKey(old(View()), first))
    {
      hide Backlog, Toks, Env, Unread, Erase, Comments, FlowMappingEntry;
      var t :- PeekEntry(first);
      if t.FlowMappingEnd? {
        PopState();
        Skip();
        return Ok(MappingEnd);
      }
      if !first {
        if !t.FlowEntry? {
          return Err(ExpectedFlowMappingEnd);
        }
        Skip();
      }
      r := ParseFlowMappingEntry();
    }

    method ParseFlowMappingEntry() returns (r: Result<Event, ParseError>)
      requires Buffered() && states != []
      modifies this
      ensures Reading() && Realises(r, FlowMappingEntry(old(View())))
    {
      hide Backlog, Toks, Env, Unread, Erase, Comments, OnNode, Machine.Valid, Resumables, Machine.Eof;
      var t :- PeekToken();
      if t.Key? {
        Skip();
        var u :- PeekToken();
        if u.Value? || u.FlowEntry? || u.FlowMappingEnd? {
          state := State.FlowMappingValue;
          return Ok(NullScalar());
        }
        PushState(State.FlowMappingValue);
        r := ParseNode(false, false);
      } else if t.Value? {
        state := State.FlowMappingValue;
        r := Ok(NullScalar());
      } else if t.FlowMappingEnd? {
        PopState();
        Skip();
        r := Ok(MappingEnd);
      } else {
        PushState(State.FlowMappingEmptyValue);
        r := ParseNode(false, false);
      }
    }

    method FlowMappingValue(empty: bool) returns (r: Result<Event, ParseError>)
      requires Buffered() && states != []
      modifies this
      ensures Reading() && Realises(r, OnFlowMappingValue(old(View()), empty))
    {
      hide Backlog, Toks, Env, Unread, Erase, Comments, OnNode, Machine.Valid, Resumables, Machine.Eof;
      var t :- PeekToken();
      if !empty && t.Value? {
        Skip();
        var u :- PeekToken();
        if !u.FlowEntry? && !u.FlowMappingEnd? {
          PushState(State.FlowMappingKey);
          r := ParseNode(false, false);
          return;
        }
      }
      state := State.FlowMappingKey;
      r := Ok(NullScalar());
    }

    method FlowSequenceEntry(first: bool) returns (r: Result<Event, ParseError>)
      requires Buffered() && states != []
      modifies this
      ensures Reading() && Realises(r, OnFlowSequenceEntry(old(View()), first))
    {
      hide Backlog, Toks, Env, Unread, Erase, Comments, FlowSequenceItem;
      var t :- PeekEntry(first);
      if t.FlowSequenceEnd? {
        PopState();
        Skip();
        return Ok(SequenceEnd);
      }
      if !first {
        if !t.FlowEntry? {
          return Err(ExpectedFlowSequenceEnd);
        }
        Skip();
      }
      r := ParseFlowSequenceItem();
    }

    method ParseFlowSequenceItem() returns (r: Result<Event, ParseError>)
      requires Buffered() && states != []
      modifies this
      ensures Reading() && Realises(r, FlowSequenceItem(old(View())))
    {
      hide Backlog, Toks, Env, Unread, Erase, Comments, OnNode, Machine.Valid, Resumables, Machine.Eof;
      var t :- PeekToken();
      if t.FlowSequenceEnd? {
        PopState();
        Skip();
        r := Ok(SequenceEnd);
      } else if t.Key? {
        state := State.FlowSequenceEntryMappingKey;
        Skip();
        r := Ok(MappingStart(NoAnchor, None, Flow));
      } else {
        PushState(State.FlowSequenceEntry);
        r := ParseNode(false, false);
      }
    }

    method FlowSequenceEntryMappingKey() returns (r: Result<Event, ParseError>)
      requires Buffered() && states != []
      modifies this
      ensures Reading() && Realises(r, FlowPairKey(old(View())))
    {
      hide Backlog, Toks, Env, Unread, Erase, Comments, OnNode, Machine.Valid, Resumables, Machine.Eof;
      var t :- PeekToken();
      if t.Value? || t.FlowEntry? || t.FlowSequenceEnd? {
        Skip();
        state := State.FlowSequenceEntryMappingValue;
        r := Ok(NullScalar());
      } else {
        PushState(State.FlowSequenceEntryMappingValue);
        r := ParseNode(false, false);
      }
    }

    method FlowSequenceEntryMappingValue() returns (r: Result<Event, ParseError>)
      requires Buffered() && states != [] && state.FlowSequenceEntryMappingValue?
      modifies this
      ensures Reading() && Realises(r, FlowPairValue(old(View())))
    {
      hide Backlog, Toks, Env, Unread, Erase, Comments, OnNode, Machine.Valid, Resumables, Machine.Eof;
      var t :- PeekToken();
      if t.Value? {
        Skip();
        state := State.FlowSequenceEntryMappingValue;
        var u :- PeekToken();
        if u.FlowEntry? || u.FlowSequenceEnd? {
          state := State.FlowSequenceEntryMappingEnd;
          return Ok(NullScalar());
        }
        PushState(State.FlowSequenceEntryMappingEnd);
        r := ParseNode(false, false);
      } else {
        state := State.FlowSequenceEntryMappingEnd;
        r := Ok(NullScalar());
      }
    }

    method FlowSequenceEntryMappingEnd() returns (r: Result<Event, ParseError>)
      requires Buffered()
      modifies this
      ensures Reading() && Realises(r, FlowPairEnd(old(View())))
    {
      state := State.FlowSequenceEntry;
      r := Ok(MappingEnd);
    }

    // ---------------------------------------------------------------- the automaton

    method StateMachine() returns (r: Result<Event, ParseError>)
      requires Buffered() && View().Valid() && !state.End?
      modifies this
      ensures Reading() && Realises(r, Step(old(View())))
      ensures r.Ok? && r.value.StreamEnd? ==> streamEnded
      ensures r.Ok? && r.value.StreamStart? ==> !streamEnded
    {
      hide Backlog, Toks, Env, Unread, Erase, Comments, Resumables, Reading;
      OnlyDocumentStartReports(View());
      hide OnStreamStart, OnDocumentStart, OnDocumentContent, OnDocumentEnd, OnNode, OnBlockMappingKey,
        OnBlockMappingValue, OnBlockSequenceEntry, OnIndentlessSequenceEntry, OnFlowMappingKey, OnFlowMappingValue,
        OnFlowSequenceEntry, FlowPairKey, FlowPairValue, FlowPairEnd;
      match state {
        case StreamStart => r := StreamStart();
        case ImplicitDocumentStart => r := DocumentStart(true);
        case DocumentStart => r := DocumentStart(false);
        case DocumentContent => r := DocumentContent();
        case DocumentEnd => r := DocumentEnd();
        case BlockNode => r := ParseNode(true, false);
        case BlockMappingFirstKey => r := BlockMappingKey(true);
        case BlockMappingKey => r := BlockMappingKey(false);
        case BlockMappingValue => r := BlockMappingValue();
        case BlockSequenceFirstEntry => r := BlockSequenceEntry(true);
        case BlockSequenceEntry => r := BlockSequenceEntry(false);
        case FlowSequenceFirstEntry => r := FlowSequenceEntry(true);
        case FlowSequenceEntry => r := FlowSequenceEntry(false);
        case FlowMappingFirstKey => r := FlowMappingKey(true);
        case FlowMappingKey => r := FlowMappingKey(false);
        case FlowMappingValue => r := FlowMappingValue(false);
        case IndentlessSequenceEntry => r := IndentlessSequenceEntry();
        case FlowSequenceEntryMappingKey => r := FlowSequenceEntryMappingKey();
        case FlowSequenceEntryMappingValue => r := FlowSequenceEntryMappingValue();
        case FlowSequenceEntryMappingEnd => r := FlowSequenceEntryMappingEnd();
        case FlowMappingEmptyValue => r := FlowMappingValue(true);
      }
    }

    method Parse() returns (r: Result<Event, ParseError>)
      requires Buffered() && View().Valid() && (state.End? ==> streamEnded)
      modifies this
      ensures Reading() && Realises(r, Step(old(View())))
      ensures r.Ok? && r.value.StreamEnd? ==> streamEnded
      ensures r.Ok? && r.value.StreamStart? ==> !streamEnded
      ensures old(state).End? ==> pending == old(pending)
    {
      hide Backlog, Toks, Env, Unread, Erase, Comments, Resumables;
      if state.End? {
        return Ok(Event.StreamEnd);
      }
      r := StateMachine();
    }

    // ---------------------------------------------------------------- events

    // What handing on one event means: a comment is the first one due and changes nothing else;
    // any other event is the automaton's next, and all comments read so far have gone before it.
    ghost predicate HandsOn(e: Event, before: Snapshot)
      reads this
    {
      if e.Comment? then
        && Valid()
        && before.due == [e] + Due()
        && Future() == before.future
        && Nearer(before.view, before.queue)
      else
        && before.future == Emit(e, View())
        && Due() == before.due && Queue() == [] && Announced(e)
        && (!e.StreamEnd? ==> Nearer(before.view, before.queue))
    }

    // Progress: the automaton has stepped, or the queue has become shorter.
    ghost predicate Nearer(m: Machine, q: seq<Event>)
      reads this
    {
      Distance(View()) < Distance(m) || (View() == m && |Queue()| < |q|)
    }

    method NextEventImpl() returns (r: Result<Event, ParseError>)
      requires Valid()
      modifies this
      ensures r.Ok? ==> Valid() && HandsOn(r.value, old(Now()))
      ensures r.Err? ==> old(Future()) == Fail(r.error) && Due() == old(Due())
      ensures current == None && streamEndEmitted == old(streamEndEmitted)
    {
      hide Toks, Env, Unread, Erase, Comments, Step, IsQueue, Waiting, QueuedComments, Distance, Machine.Valid;
      ghost var q := Queue();
      if current.Some? {
        QueueTail(q);
        r := Ok(current.value);
        current := None;
        assert Queue() == q[1..];
      } else if pending != [] {
        QueueTail(q);
        r := Ok(pending[0]);
        pending := pending[1..];
        assert Queue() == q[1..];
      } else {
        r := Produce();
        return;
      }
      FirstOf(r.value, QueuedComments(Queue()), Comments(Unread()));
    }

    // The automaton's next event, and the comments read on the way, now queued.
    method ParseAhead() returns (r: Result<Event, ParseError>)
      requires Valid() && Queue() == []
      modifies this
      ensures Buffered() && Realises(r, Step(old(View())))
      ensures r.Ok? ==> !r.value.Comment? && Announced(r.value) && (state.End? ==> streamEnded)
      ensures old(state).End? ==> pending == []
      ensures current == None && AllComments(pending) && old(Due()) == pending + Comments(Unread())
      ensures streamEndEmitted == old(streamEndEmitted)
    {
      hide Toks, Env, Unread, Erase, Comments, Step, Distance, Machine.Valid;
      CommentsAreComments(Unread());
      ghost var comments := Comments(Unread());
      assert Backlog() == comments && Queue() == pending;
      StepIsStructural(View());
      r := Parse();
      assert pending == comments[..|pending|];
    }

    // An event goes behind the comments that came before it.
    method Enqueue(e: Event) returns (first: Event)
      requires current == None && AllComments(pending) && !e.Comment?
      modifies this`pending
      ensures IsQueue(Queue())
      ensures if first.Comment? then Waiting(Queue()) == Some(e) && old(pending) == [first] + QueuedComments(Queue())
              else first == e && Queue() == [] && old(pending) == []
    {
      QueueBuilt(pending, e);
      if pending == [] {
        first := e;
      } else {
        pending := pending + [e];
        QueueTail(pending);
        first := pending[0];
        pending := pending[1..];
      }
      assert Queue() == pending;
    }

    // With nothing queued, an event comes from the automaton, behind the comments it read past.
    method Produce() returns (r: Result<Event, ParseError>)
      requires Valid() && Queue() == []
      modifies this
      ensures r.Ok? ==> Valid() && HandsOn(r.value, old(Now()))
      ensures r.Err? ==> old(Future()) == Fail(r.error) && Due() == old(Due())
      ensures current == None && streamEndEmitted == old(streamEndEmitted)
    {
      hide Toks, Env, Unread, Erase, Comments, Step, IsQueue, Distance, Machine.Valid;
      StepIsStructural(View());
      QueueBuilt([], Event.StreamEnd);
      r := ParseAhead();
      if r.Ok? {
        ghost var m := View();
        var first := Enqueue(r.value);
        assert View() == m;
        r := Ok(first);
        FirstOf(first, QueuedComments(Queue()), Comments(Unread()));
      } else {
        QueueBuilt(pending, Event.StreamEnd);
        assert Queue() == pending;
      }
    }

    method NextEvent() returns (r: Option<Result<Event, ParseError>>)
      requires Valid()
      modifies this
      ensures old(streamEndEmitted) ==> r == None && View() == old(View()) && Queue() == old(Queue()) && Due() == old(Due())
      ensures !old(streamEndEmitted) ==> r.Some?
      ensures r.Some? && r.value.Ok? ==> Valid() && HandsOn(r.value.value, old(Now())) && streamEndEmitted == r.value.value.StreamEnd?
      ensures r.Some? && r.value.Err? ==> old(Future()) == Fail(r.value.error) && Due() == old(Due())
    {
      hide Toks, Env, Unread, Erase, Comments, Step, IsQueue, Waiting, QueuedComments, Distance, Machine.Valid;
      if streamEndEmitted {
        return None;
      }
      var e := NextEventImpl();
      if e == Ok(Event.StreamEnd) {
        streamEndEmitted := true;
      }
      r := Some(e);
    }

    // The next event, left to be handed on by the call after.
    method Peek() returns (r: Option<Result<Event, ParseError>>)
      requires Valid()
      modifies this
      ensures streamEndEmitted == old(streamEndEmitted)
      ensures r == None ==> old(current).None? && streamEndEmitted
      ensures r.Some? && r.value.Ok? ==> Valid() && current == Some(r.value.value) && Future() == old(Future()) && Due() == old(Due())
      ensures r.Some? && r.value.Err? ==> old(Future()) == Fail(r.value.error) && Due() == old(Due())
    {
      hide Toks, Env, Unread, Erase, Comments, Step, IsQueue, Waiting, QueuedComments, Distance, Machine.Valid;
      if current.Some? {
        return Some(Ok(current.value));
      }
      if streamEndEmitted {
        return None;
      }
      var e := NextEventImpl();
      if e.Ok? {
        ghost var q := Queue();
        QueuePutBack(e.value, q);
        FirstOf(e.value, QueuedComments(q), Comments(Unread()));
        current := Some(e.value);
        assert Queue() == [e.value] + q;
      }
      return Some(e);
    }

    // ---------------------------------------------------------------- a receiver of events

    // What is still to come, comments aside.
    ghost function Rest(perDocument: bool): Run
      requires View().Valid()
      reads this
    {
      Resume(Future(), perDocument)
    }

    // `received` is all of `whole`, and of its comments, except for what is still to come.
    ghost predicate Follows(whole: Run, comments: seq<Event>, received: seq<Event>, perDocument: bool)
      reads this
    {
      && Valid()
      && whole == Rest(perDocument).After(Structural(received))
      && comments == CommentsOf(received) + Due()
    }

    // As `Follows`, behind the start of a document, once the anchors are forgotten.
    ghost predicate Opens(whole: Run, comments: seq<Event>, received: seq<Event>, e: Event)
      reads this
    {
      var n := Forget(View(), e, true);
      && Valid() && n.Valid()
      && whole == Resume(Step(n), true).After(Structural(received))
      && comments == CommentsOf(received) + Due()
    }

    // The snapshot `before` was taken when `received` was all there was of `whole`.
    ghost predicate Behind(before: Snapshot, whole: Run, comments: seq<Event>, received: seq<Event>, perDocument: bool) {
      && whole == Resume(before.future, perDocument).After(Structural(received))
      && comments == CommentsOf(received) + before.due
    }

    lemma ReceiveComment(e: Event, before: Snapshot, whole: Run, comments: seq<Event>, received: seq<Event>, perDocument: bool)
      requires HandsOn(e, before) && e.Comment? && Behind(before, whole, comments, received, perDocument)
      ensures Follows(whole, comments, received + [e], perDocument)
    {
      hide Toks, Env, Unread, Due, Step, IsQueue, Waiting, QueuedComments, Machine.Valid, Structural, CommentsOf,
        Nearer, Resume, Buffered, Future;
      Received(received, e);
      FirstOf(e, CommentsOf(received), Due());
      assert CommentsOf(received) + ([e] + Due()) == CommentsOf(received) + [e] + Due();
    }

    lemma ReceiveStructural(e: Event, before: Snapshot, whole: Run, comments: seq<Event>, received: seq<Event>, perDocument: bool)
      requires HandsOn(e, before) && !e.Comment? && Valid() && Behind(before, whole, comments, received, perDocument)
      ensures if e.StreamEnd? then Finished(whole, comments, received + [e], None)
              else if e.DocumentStart? && perDocument then Opens(whole, comments, received + [e], e)
              else Follows(whole, comments, received + [e], perDocument)
    {
      hide Toks, Env, Erase, Comments, Step, IsQueue, QueuedComments, Machine.Valid, Structural, CommentsOf,
        Nearer, Resume, Buffered;
      Received(received, e);
      QueueBuilt([], e);
      NoComments();
      ReceiveEvent(before.future, View(), e, whole, received, perDocument);
    }

    method KeepTags(value: bool)
      modifies this`keepTags
      ensures keepTags == value
    {
      keepTags := value;
    }

    // ---------------------------------------------------------------- the recursive reader

    // `received` is all of `whole` up to here, and a reader of it is owed `goals`.
    ghost predicate Loads(whole: Run, comments: seq<Event>, received: seq<Event>, goals: seq<Goal>)
      reads this
    {
      && Follows(whole, comments, received, true)
      && Queue() == [] && !state.End? && Goals(View()) == goals
    }

    method NextEventNoComments(received: seq<Event>, ghost whole: Run, ghost comments: seq<Event>, ghost goals: seq<Goal>)
      returns (r: Result<Event, ParseError>, out: seq<Event>)
      requires Loads(whole, comments, received, goals)
      modifies this
      ensures r.Err? ==> Finished(whole, comments, out, Some(r.error))
      ensures r.Ok? && r.value.StreamStart? ==> !streamEnded
      ensures r.Ok? ==>
                && Advance(goals, r.value).Some? && Distance(View()) < old(Distance(View()))
                && Taken(r.value, whole, comments, out + [r.value], Advance(goals, r.value).value)
    {
      hide Toks, Env, Unread, Due, Step, IsQueue, Waiting, QueuedComments, Machine.Valid, Structural, CommentsOf,
        Resume, Buffered, Goals, Advance, Distance;
      out := received;
      ghost var start := View();
      StepAhead(start, goals);
      QueueBuilt([], NullScalar());
      while true
        invariant Follows(whole, comments, out, true) && Future() == Step(start)
        invariant (View() == start && Queue() == []) || Distance(View()) < Distance(start)
        decreases Distance(View()), |Queue()|
      {
        ghost var now := Now();
        var e := NextEventImpl();
        if e.Err? {
          FailsAfter(e.error, Structural(out), true);
          return Err(e.error), out;
        }
        if !e.value.Comment? {
          ReceiveStructural(e.value, now, whole, comments, out, true);
          return Ok(e.value), out;
        }
        ReceiveComment(e.value, now, whole, comments, out, true);
        out := out + [e.value];
      }
    }

    // An event of the recursive reader has been taken, and a reader is owed `goals` behind it.
    ghost predicate Taken(e: Event, whole: Run, comments: seq<Event>, received: seq<Event>, goals: seq<Goal>)
      reads this
    {
      if e.StreamEnd? then Finished(whole, comments, received, None)
      else if e.DocumentStart? then
        Opens(whole, comments, received, e) && Queue() == [] && !state.End? && Goals(View()) == goals
      else Loads(whole, comments, received, goals)
    }

    // A node has been read to its end, or the error that stopped it is the run's.
    ghost predicate Loaded(
      whole: Run, comments: seq<Event>, r: Option<ParseError>, out: seq<Event>, goals: seq<Goal>)
      reads this
    {
      match r
      case Some(e) => Finished(whole, comments, out, Some(e))
      case None => Loads(whole, comments, out, goals)
    }

    method LoadNode(
      first: Event, received: seq<Event>, ghost whole: Run, ghost comments: seq<Event>, ghost goals: seq<Goal>)
      returns (r: Option<ParseError>, out: seq<Event>)
      requires IsNodeEvent(first)
      requires Loads(whole, comments, received + [first], OpenNode(goals, first).value)
      modifies this
      ensures Loaded(whole, comments, r, out, goals) && (r.None? ==> Distance(View()) <= old(Distance(View())))
      decreases Distance(View()), 1
    {
      hide Valid, Follows, Step, Machine.Valid, Structural, CommentsOf, Resume, Goals, Distance, Finished, Advance;
      match first {
        case SequenceStart(_, _, _) =>
          r, out := LoadSequence(received + [first], whole, comments, goals);
        case MappingStart(_, _, _) =>
          r, out := LoadMapping(received + [first], whole, comments, goals);
        case _ =>
          r, out := None, received + [first];
      }
    }

    method LoadSequence(received: seq<Event>, ghost whole: Run, ghost comments: seq<Event>, ghost goals: seq<Goal>)
      returns (r: Option<ParseError>, out: seq<Event>)
      requires Loads(whole, comments, received, goals + [Items])
      modifies this
      ensures Loaded(whole, comments, r, out, goals) && (r.None? ==> Distance(View()) <= old(Distance(View())))
      decreases Distance(View()), 0
    {
      hide Valid, Follows, Step, Machine.Valid, Structural, CommentsOf, Resume, Goals, Distance, Finished, Advance;
      var e;
      e, out := NextEventNoComments(received, whole, comments, goals + [Items]);
      ItemNext(goals, e);
      while e.Ok? && !e.value.SequenceEnd?
        invariant e.Err? ==> Finished(whole, comments, out, Some(e.error))
        invariant e.Ok? ==> ItemOrEnd(e.value) && Distance(View()) < old(Distance(View()))
        invariant e.Ok? ==> Loads(whole, comments, out + [e.value], ItemGoals(goals, e.value))
        decreases e.Ok?, Distance(View())
      {
        var failed;
        failed, out := LoadNode(e.value, out, whole, comments, goals + [Items]);
        if failed.Some? {
          return failed, out;
        }
        e, out := NextEventNoComments(out, whole, comments, goals + [Items]);
        ItemNext(goals, e);
      }
      if e.Err? {
        return Some(e.error), out;
      }
      return None, out + [e.value];
    }

    // A key whose event has been taken, and the value behind it.
    method LoadPair(
      key: Event, received: seq<Event>, ghost whole: Run, ghost comments: seq<Event>, ghost goals: seq<Goal>)
      returns (r: Option<ParseError>, out: seq<Event>)
      requires IsNodeEvent(key) && Loads(whole, comments, received + [key], KeyGoals(goals, key))
      modifies this
      ensures Loaded(whole, comments, r, out, goals + [Pairs]) && (r.None? ==> Distance(View()) <= old(Distance(View())))
      decreases Distance(View()), 2
    {
      hide Valid, Follows, Step, Machine.Valid, Structural, CommentsOf, Resume, Goals, Distance, Finished, Advance;
      r, out := LoadNode(key, received, whole, comments, goals + [Pairs] + [Node]);
      if r.Some? {
        return;
      }
      var value;
      value, out := NextEventNoComments(out, whole, comments, goals + [Pairs] + [Node]);
      ValueNext(goals, value);
      if value.Err? {
        return Some(value.error), out;
      }
      r, out := LoadNode(value.value, out, whole, comments, goals + [Pairs]);
    }

    method LoadMapping(received: seq<Event>, ghost whole: Run, ghost comments: seq<Event>, ghost goals: seq<Goal>)
      returns (r: Option<ParseError>, out: seq<Event>)
      requires Loads(whole, comments, received, goals + [Pairs])
      modifies this
      ensures Loaded(whole, comments, r, out, goals) && (r.None? ==> Distance(View()) <= old(Distance(View())))
      decreases Distance(View()), 0
    {
      hide Valid, Follows, Step, Machine.Valid, Structural, CommentsOf, Resume, Goals, Distance, Finished, Advance;
      var key;
      key, out := NextEventNoComments(received, whole, comments, goals + [Pairs]);
      KeyNext(goals, key);
      while key.Ok? && !key.value.MappingEnd?
        invariant key.Err? ==> Finished(whole, comments, out, Some(key.error))
        invariant key.Ok? ==> KeyOrEnd(key.value) && Distance(View()) < old(Distance(View()))
        invariant key.Ok? ==> Loads(whole, comments, out + [key.value], KeyGoals(goals, key.value))
        decreases key.Ok?, Distance(View())
      {
        var failed;
        failed, out := LoadPair(key.value, out, whole, comments, goals);
        if failed.Some? {
          return failed, out;
        }
        key, out := NextEventNoComments(out, whole, comments, goals + [Pairs]);
        KeyNext(goals, key);
      }
      if key.Err? {
        return Some(key.error), out;
      }
      return None, out + [key.value];
    }

    lemma Begin(whole: Run, comments: seq<Event>)
      requires AtBoundary() && whole == RunFrom(View(), true) && comments == Due()
      ensures Loads(whole, comments, [], if streamStarted then [Documents] else [WholeStream])
    {
      hide Step, Due;
      ParseResumes(View(), true);
      GoalsShape(View());
      QueueBuilt([], NullScalar());
      assert [] + whole.events == whole.events;
    }

    // Behind the start of a document its anchors are forgotten.
    method ClearAnchors(
      ghost e: Event, ghost whole: Run, ghost comments: seq<Event>, ghost received: seq<Event>, ghost goals: seq<Goal>)
      requires e.DocumentStart? && Opens(whole, comments, received, e)
      requires Queue() == [] && !state.End? && Goals(View()) == goals
      modifies this`anchors
      ensures Loads(whole, comments, received, goals) && Distance(View()) == old(Distance(View()))
    {
      hide Toks, Unread, Due, Step, IsQueue, QueuedComments, Structural, CommentsOf, Resume, Buffered;
      QueueBuilt([], NullScalar());
      anchors := map[];
    }

    method LoadDocument(first: Event, received: seq<Event>, ghost whole: Run, ghost comments: seq<Event>)
      returns (r: Option<ParseError>, out: seq<Event>)
      requires first.DocumentStart? ==> Loads(whole, comments, received + [first], [Documents, DocumentTail, Node])
      modifies this
      ensures !first.DocumentStart? ==> r == Some(ExpectedDocumentStart) && out == received
      ensures first.DocumentStart? ==>
                Loaded(whole, comments, r, out, [Documents]) && (r.None? ==> Distance(View()) < old(Distance(View())))
    {
      hide Valid, Follows, Step, Machine.Valid, Structural, CommentsOf, Resume, Goals, Distance, Finished, Advance;
      if !first.DocumentStart? {
        return Some(ExpectedDocumentStart), received;
      }
      DocumentGoals();
      var e;
      e, out := NextEventNoComments(received + [first], whole, comments, [Documents, DocumentTail, Node]);
      if e.Err? {
        return Some(e.error), out;
      }
      RootNext(e.value);
      r, out := LoadNode(e.value, out, whole, comments, [Documents, DocumentTail]);
      if r.Some? {
        return;
      }
      e, out := NextEventNoComments(out, whole, comments, [Documents, DocumentTail]);
      if e.Err? {
        return Some(e.error), out;
      }
      TailNext(e.value);
      assert e.value == Event.DocumentEnd;
      return None, out + [e.value];
    }

    // Where `Load` may be called: before anything is read, or between two documents.
    ghost predicate AtBoundary()
      reads this
    {
      && Valid() && Queue() == []
      && if streamStarted then !state.End? && Goals(View()) == [Documents] else state.StreamStart?
    }

    method Load(multi: bool) returns (r: Option<ParseError>, received: seq<Event>)
      requires AtBoundary()
      modifies this
      ensures old(streamStarted && streamEnded) ==> r == None && received == [Event.StreamEnd]
      ensures !old(streamStarted && streamEnded) ==>
                || Finished(RunFrom(old(View()), true), old(Due()), received, r)
                || (!multi && r == None && Loads(RunFrom(old(View()), true), old(Due()), received, [Documents]))
    {
      hide Follows, Step, Machine.Valid, Structural, CommentsOf, Resume, Goals, Distance, Finished, Advance;
      ghost var whole, comments := RunFrom(View(), true), Due();
      received := [];
      Begin(whole, comments);
      if !streamStarted {
        var e;
        e, received := NextEventNoComments(received, whole, comments, [WholeStream]);
        if e.Err? {
          return Some(e.error), received;
        }
        StreamNext(e.value);
        assert e.value == Event.StreamStart;
        received := received + [e.value];
      }
      if streamEnded {
        return None, received + [Event.StreamEnd];
      }
      r, received := LoadDocuments(multi, received, whole, comments);
    }

    method LoadDocuments(multi: bool, before: seq<Event>, ghost whole: Run, ghost comments: seq<Event>)
      returns (r: Option<ParseError>, received: seq<Event>)
      requires Loads(whole, comments, before, [Documents])
      modifies this
      ensures || Finished(whole, comments, received, r)
              || (!multi && r == None && Loads(whole, comments, received, [Documents]))
    {
      hide Valid, Follows, Step, Machine.Valid, Structural, CommentsOf, Resume, Goals, Distance, Finished, Advance;
      received := before;
      while true
        invariant Loads(whole, comments, received, [Documents])
        decreases Distance(View())
      {
        var e;
        e, received := NextEventNoComments(received, whole, comments, [Documents]);
        if e.Err? {
          return Some(e.error), received;
        }
        DocumentNext(e.value);
        if e.value.StreamEnd? {
          return None, received + [e.value];
        }
        ClearAnchors(e.value, whole, comments, received + [e.value], [Documents, DocumentTail, Node]);
        r, received := LoadDocument(e.value, received, whole, comments);
        if r.Some? || !multi {
          return;
        }
      }
    }
  }

  // Reads a whole stream, comments kept, up to its end or the first error.
  method ReadAll(tokens: seq<Token>, keepTags: bool, scanError: Option<string>)
    returns (events: seq<Event>, error: Option<ParseError>)
    ensures Run(Structural(events), error) == RunFrom(Fresh(Erase(tokens), keepTags, scanError), false)
    ensures CommentsOf(events) <= Comments(tokens)
    ensures error == None ==> CommentsOf(events) == Comments(tokens)
  {
    hide Erase, Comments, Step, Structural, CommentsOf, Machine.Valid;
    var parser := new Parser(tokens, scanError);
    parser.KeepTags(keepTags);
    events, error := [], None;
    assert parser.View() == Fresh(Erase(tokens), keepTags, scanError);
    ghost var whole := RunFrom(parser.View(), false);
    Start(parser, whole, Comments(tokens));
    var more := true;
    while more
      invariant if more then parser.Follows(whole, Comments(tokens), events, false) && !parser.streamEndEmitted
                else Finished(whole, Comments(tokens), events, error)
      decreases more, Distance(parser.View()), |parser.Queue()|
    {
      more, events, error := ReadOne(parser, whole, Comments(tokens), events);
    }
  }

  method ReadOne(parser: Parser, ghost whole: Run, ghost comments: seq<Event>, before: seq<Event>)
    returns (more: bool, events: seq<Event>, error: Option<ParseError>)
    requires parser.Follows(whole, comments, before, false) && !parser.streamEndEmitted
    modifies parser
    ensures if more then
              && parser.Follows(whole, comments, events, false) && !parser.streamEndEmitted
              && parser.Nearer(old(parser.View()), old(parser.Queue()))
            else Finished(whole, comments, events, error)
  {
    hide Erase, Comments, Step, Structural, CommentsOf, Machine.Valid;
    ghost var now := parser.Now();
    var next := parser.NextEvent();
    if next.value.Ok? {
      var e := next.value.value;
      if e.Comment? {
        parser.ReceiveComment(e, now, whole, comments, before, false);
      } else {
        parser.ReceiveStructural(e, now, whole, comments, before, false);
      }
      more, events, error := !e.StreamEnd?, before + [e], None;
    } else {
      more, events, error := false, before, Some(next.value.error);
    }
  }

  lemma Start(parser: Parser, whole: Run, comments: seq<Event>)
    requires parser.Buffered() && parser.Queue() == [] && parser.View().Valid() && parser.state.StreamStart?
    requires whole == RunFrom(parser.View(), false) && comments == parser.Due()
    ensures parser.Follows(whole, comments, [], false)
  {
    hide Step;
    ParseResumes(parser.View(), false);
    assert [] + whole.events == whole.events;
  }
}
