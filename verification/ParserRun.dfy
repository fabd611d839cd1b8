// Whole runs of the parser (crates/yamluna-scanner/src/parser.rs).
module ParserRun {
  import opened Results
  import opened Events
  import opened ParserStep
  import opened Grammar
  import opened Anchors
  import opened ParserSafety

  // The events up to the end of the stream or to the first error.
  datatype Run = Run(events: seq<Event>, error: Option<ParseError>) {
    function After(before: seq<Event>): Run {
      Run(before + events, error)
    }
  }

  function Fresh(toks: seq<Token>, keepTags: bool, scanError: Option<string>): (m: Machine)
    ensures m.Valid()
  {
    Machine(State.StreamStart, [], toks, Env(map[], 1, map[], None, keepTags, scanError))
  }

  // `load` forgets the anchors of one document before the next; the iterator keeps them.
  function Forget(m: Machine, e: Event, perDocument: bool): Machine {
    if perDocument && e.DocumentStart? then m.(env := m.env.(anchors := map[])) else m
  }

  function RunFrom(m: Machine, perDocument: bool): Run
    requires m.Valid() && !m.state.End?
    decreases Distance(m)
  {
    StepSafe(m);
    match Step(m)
    case Fail(e) => Run([], Some(e))
    case Emit(e, n) =>
      if e.StreamEnd? then Run([e], None)
      else
        OnlyStreamEndEnds(m, n, e);
        RunFrom(Forget(n, e, perDocument), perDocument).After([e])
  }

  lemma OwedBelow(states: seq<State>)
    requires Stacked(states)
    ensures |Owed(states)| >= 2
    decreases |states|
  {
    var below := states[..|states| - 1];
    if |states| > 1 {
      assert below[1..] == states[1..][..|states| - 2];
      OwedBelow(below);
    } else {
      assert below == [];
    }
  }

  lemma GoalsShape(m: Machine)
    requires m.Valid()
    ensures if TopLevel(m.state) then Goals(m) == Due(m.state)
            else |Goals(m)| >= 3 && !Goals(m)[|Goals(m)| - 1].WholeStream? && !Goals(m)[|Goals(m)| - 1].Documents?
  {
    hide Resumables;
    if TopLevel(m.state) {
      assert Owed([]) == [];
    } else {
      OwedBelow(m.states);
      assert Due(m.state) != [];
    }
  }

  lemma OnlyStreamEndEnds(m: Machine, n: Machine, e: Event)
    requires m.Valid() && !m.state.End? && n.Valid() && Advance(Goals(m), e) == Some(Goals(n))
    ensures n.state.End? <==> e.StreamEnd?
  {
    hide Goals, Owed, Resumables, Machine.Valid;
    GoalsShape(m);
    GoalsShape(n);
  }

  // The first event of a run, and the machine the rest starts from.
  lemma ParseStep(m: Machine, perDocument: bool)
    requires m.Valid() && !m.state.End? && Step(m).Emit? && !Step(m).event.StreamEnd?
    ensures var n := Forget(Step(m).next, Step(m).event, perDocument);
            n.Valid() && !n.state.End? && Distance(n) < Distance(m)
            && RunFrom(m, perDocument) == RunFrom(n, perDocument).After([Step(m).event])
  {
    StepSafe(m);
    OnlyStreamEndEnds(m, Step(m).next, Step(m).event);
  }

  // One step, read by the grammar and by the anchors.
  lemma StepReads(m: Machine, perDocument: bool)
    requires m.Valid() && !m.state.End? && Step(m).Emit?
    ensures var e, n := Step(m).event, Forget(Step(m).next, Step(m).event, perDocument);
            && Advance(Goals(m), e) == Some(Goals(n))
            && Bind(ScopeOf(m), e, perDocument) == Some(ScopeOf(n))
            && (e.StreamEnd? ==> Goals(n) == [])
            && Distance(n) < Distance(m)
  {
    hide Step, Owed, Due, Advance;
    StepSafe(m);
    var e, n := Step(m).event, Step(m).next;
    OnlyStreamEndEnds(m, n, e);
    GoalsShape(n);
    EndOwesNothing(n);
    BindForgets(ScopeOf(m), e, perDocument);
  }

  lemma EndOwesNothing(n: Machine)
    requires n.Valid()
    ensures n.state.End? ==> Goals(n) == []
  {
    assert Owed([]) == [];
  }

  lemma BindForgets(s: Scope, e: Event, perDocument: bool)
    ensures Bind(s, e, perDocument) ==
            if perDocument && e.DocumentStart? then Some(s.(ids := map[])) else Bind(s, e, false)
    ensures e.DocumentStart? ==> Bind(s, e, false) == Some(s)
  {
  }

  // Everything a run promises, from wherever it starts.
  lemma {:induction false} RunSafe(m: Machine, perDocument: bool)
    requires m.Valid() && !m.state.End?
    ensures var r := RunFrom(m, perDocument);
            && AdvanceAll(Goals(m), r.events).Some?
            && (r.error.None? ==> AdvanceAll(Goals(m), r.events) == Some([]))
            && BindAll(ScopeOf(m), r.events, perDocument).Some?
            && |r.events| <= Distance(m)
    decreases Distance(m)
  {
    hide Step, Goals, ScopeOf, Advance, Bind, Distance, Machine.Valid;
    if Step(m).Emit? {
      var e := Step(m).event;
      var n := Forget(Step(m).next, e, perDocument);
      StepReads(m, perDocument);
      if !e.StreamEnd? {
        ParseStep(m, perDocument);
        RunSafe(n, perDocument);
        var rest := RunFrom(n, perDocument).events;
        assert ([e] + rest)[1..] == rest;
      }
    }
  }

  // Over every token sequence the parser's events are the beginning of a well-formed stream, the
  // whole of one when there is no error, at most six for each token; every alias names the
  // latest anchor of its name and every anchor has the next number.
  lemma EveryRunIsGrammatical(toks: seq<Token>, keepTags: bool, scanError: Option<string>, perDocument: bool)
    ensures var r := RunFrom(Fresh(toks, keepTags, scanError), perDocument);
            && AdvanceAll([WholeStream], r.events).Some?
            && (r.error.None? ==> exists docs :: DocsWellFormed(docs) && SpellStream(docs) == r.events)
            && |r.events| <= 6 * |toks|
            && forall i | 0 <= i < |r.events| :: Resolves(r.events, i, perDocument)
  {
    hide RunFrom, Step, Resolves, SpellStream, DocsWellFormed;
    var m := Fresh(toks, keepTags, scanError);
    RunSafe(m, perDocument);
    assert Goals(m) == [WholeStream] by {
      GoalsShape(m);
    }
    var r := RunFrom(m, perDocument);
    AcceptedExactlyWhenSpelled(r.events);
    AliasesResolve(r.events, perDocument);
  }

  // The run behind a step already taken.
  function Resume(o: Outcome, perDocument: bool): Run {
    match o
    case Fail(e) => Run([], Some(e))
    case Emit(e, n) =>
      var k := Forget(n, e, perDocument);
      if e.StreamEnd? || !k.Valid() || k.state.End? then Run([e], None)
      else RunFrom(k, perDocument).After([e])
  }

  lemma ParseResumes(m: Machine, perDocument: bool)
    requires m.Valid() && !m.state.End?
    ensures RunFrom(m, perDocument) == Resume(Step(m), perDocument)
  {
    hide Step;
    if Step(m).Emit? && !Step(m).event.StreamEnd? {
      ParseStep(m, perDocument);
    }
  }
}
