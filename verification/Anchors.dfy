// Which anchor an alias event refers to (crates/yamluna-scanner/src/parser.rs, `register_anchor`).
module Anchors {
  import opened Results
  import opened Events

  // The anchor names in force and the id the next anchor gets.
  datatype Scope = Scope(ids: map<string, nat>, next: nat)

  function AnchorOf(e: Event): AnchorRef {
    match e
    case Scalar(_, _, a, _) => a
    case SequenceStart(a, _, _) => a
    case MappingStart(a, _, _) => a
    case _ => NoAnchor
  }

  // Reads one event; None when an alias names nothing in force or an anchor has the wrong id.
  // `perDocument` is whether a document forgets the anchors of the ones before it.
  function Bind(s: Scope, e: Event, perDocument: bool): Option<Scope> {
    if e.Alias? then
      if e.anchor.name.Some? && e.anchor.name.value in s.ids && s.ids[e.anchor.name.value] == e.anchor.id then Some(s)
      else None
    else if e.DocumentStart? && perDocument then Some(s.(ids := map[]))
    else
      var a := AnchorOf(e);
      if a == NoAnchor then Some(s)
      else if a.id == s.next && a.name.Some? then Some(Scope(s.ids[a.name.value := a.id], s.next + 1))
      else None
  }

  function BindAll(s: Scope, events: seq<Event>, perDocument: bool): Option<Scope>
    decreases |events|
  {
    if events == [] then Some(s)
    else
      match Bind(s, events[0], perDocument)
      case None => None
      case Some(t) => BindAll(t, events[1..], perDocument)
  }

  // The id of the last node in `events` that carries the anchor `name`, looking back no further
  // than the start of the document when documents are on their own.
  function Latest(events: seq<Event>, name: string, perDocument: bool): Option<nat>
    decreases |events|
  {
    if events == [] then None
    else
      var e, before := events[|events| - 1], events[..|events| - 1];
      if AnchorOf(e).name == Some(name) && AnchorOf(e).id > 0 then Some(AnchorOf(e).id)
      else if e.DocumentStart? && perDocument then None
      else Latest(before, name, perDocument)
  }

  // How many nodes in `events` carry an anchor.
  function Count(events: seq<Event>): nat
    decreases |events|
  {
    if events == [] then 0
    else Count(events[..|events| - 1]) + if AnchorOf(events[|events| - 1]) == NoAnchor then 0 else 1
  }

  // The scope reached is the one `Latest` and `Count` describe.
  ghost predicate Describes(s: Scope, events: seq<Event>, perDocument: bool) {
    && s.next == Count(events) + 1
    && (forall name :: name in s.ids <==> Latest(events, name, perDocument).Some?)
    && (forall name | name in s.ids :: Latest(events, name, perDocument) == Some(s.ids[name]))
  }

  // Every alias names the latest anchor of that name, and anchors are numbered 1, 2, 3, ...
  ghost predicate Resolves(events: seq<Event>, i: nat, perDocument: bool)
    requires i < |events|
  {
    var e := events[i];
    && (e.Alias? ==> e.anchor.name.Some? && Latest(events[..i], e.anchor.name.value, perDocument) == Some(e.anchor.id))
    && (AnchorOf(e) != NoAnchor ==> AnchorOf(e).name.Some? && AnchorOf(e).id == Count(events[..i]) + 1)
  }

  lemma LatestSnoc(before: seq<Event>, e: Event, name: string, perDocument: bool)
    ensures Latest(before + [e], name, perDocument) ==
            if AnchorOf(e).name == Some(name) && AnchorOf(e).id > 0 then Some(AnchorOf(e).id)
            else if e.DocumentStart? && perDocument then None
            else Latest(before, name, perDocument)
    ensures Count(before + [e]) == Count(before) + if AnchorOf(e) == NoAnchor then 0 else 1
  {
    assert (before + [e])[..|before|] == before;
  }

  lemma BindDescribes(s: Scope, before: seq<Event>, e: Event, perDocument: bool)
    requires Describes(s, before, perDocument) && Bind(s, e, perDocument).Some?
    ensures Describes(Bind(s, e, perDocument).value, before + [e], perDocument)
  {
    hide Latest, Count;
    var events := before + [e];
    LatestSnoc(before, e, "", perDocument);
    var t := Bind(s, e, perDocument).value;
    forall name
      ensures name in t.ids <==> Latest(events, name, perDocument).Some?
      ensures name in t.ids ==> Latest(events, name, perDocument) == Some(t.ids[name])
    {
      LatestSnoc(before, e, name, perDocument);
    }
  }

  lemma {:induction false} RunResolves(s: Scope, before: seq<Event>, events: seq<Event>, perDocument: bool)
    requires Describes(s, before, perDocument) && BindAll(s, events, perDocument).Some?
    ensures forall i | |before| <= i < |before + events| :: Resolves(before + events, i, perDocument)
    decreases |events|
  {
    var all := before + events;
    if events != [] {
      var e := events[0];
      assert all[..|before|] == before;
      assert Resolves(all, |before|, perDocument);
      BindDescribes(s, before, e, perDocument);
      assert before + [e] + events[1..] == all;
      RunResolves(Bind(s, e, perDocument).value, before + [e], events[1..], perDocument);
    }
  }

  // In an accepted run of events, from the start, every alias and every anchor is right.
  lemma AliasesResolve(events: seq<Event>, perDocument: bool)
    requires BindAll(Scope(map[], 1), events, perDocument).Some?
    ensures forall i | 0 <= i < |events| :: Resolves(events, i, perDocument)
  {
    assert [] + events == events;
    RunResolves(Scope(map[], 1), [], events, perDocument);
  }
}
