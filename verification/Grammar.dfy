// The language of structural events: a stack machine that accepts it, and the trees it spells
// (crates/yamluna-scanner/src/parser.rs, `EventReceiver`).
module Grammar {
  import opened Results
  import opened Events

  // What a reader of events is still owed, innermost last.
  datatype Goal =
    | WholeStream  // everything
    | Documents    // documents, then the end of the stream
    | DocumentTail // the end of a document
    | Node         // one node
    | Items        // nodes, then the end of a sequence
    | Pairs        // keys and values, then the end of a mapping

  // ------------------------------------------------------------------ the stack machine

  predicate IsNodeEvent(e: Event) {
    e.Alias? || e.Scalar? || e.SequenceStart? || e.MappingStart?
  }

  // A node begins; `below` is what remains owed behind it.
  function OpenNode(below: seq<Goal>, e: Event): Option<seq<Goal>> {
    match e
    case Alias(_) => Some(below)
    case Scalar(_, _, _, _) => Some(below)
    case SequenceStart(_, _, _) => Some(below + [Items])
    case MappingStart(_, _, _) => Some(below + [Pairs])
    case _ => None
  }

  function Advance(goals: seq<Goal>, e: Event): Option<seq<Goal>> {
    if goals == [] then None
    else
      var top, below := goals[|goals| - 1], goals[..|goals| - 1];
      match top
      case WholeStream => if e.StreamStart? then Some(below + [Documents]) else None
      case Documents =>
        if e.StreamEnd? then Some(below)
        else if e.DocumentStart? then Some(goals + [DocumentTail, Node])
        else None
      case DocumentTail => if e.DocumentEnd? then Some(below) else None
      case Node => OpenNode(below, e)
      case Items => if e.SequenceEnd? then Some(below) else OpenNode(goals, e)
      case Pairs => if e.MappingEnd? then Some(below) else OpenNode(goals + [Node], e)
  }

  function AdvanceAll(goals: seq<Goal>, events: seq<Event>): Option<seq<Goal>>
    decreases |events|
  {
    if events == [] then Some(goals)
    else
      match Advance(goals, events[0])
      case None => None
      case Some(next) => AdvanceAll(next, events[1..])
  }

  // ------------------------------------------------------------------ trees

  datatype Tree =
    | Leaf(event: Event)
    | Sequence(start: Event, items: Trees)
    | Mapping(start: Event, pairs: TreePairs)

  datatype Trees = NoTrees | Trees(head: Tree, tail: Trees)

  datatype TreePairs = NoPairs | TreePairs(key: Tree, value: Tree, tail: TreePairs)

  datatype Doc = Doc(start: Event, root: Tree)

  predicate WellFormed(t: Tree) {
    match t
    case Leaf(e) => e.Alias? || e.Scalar?
    case Sequence(e, items) => e.SequenceStart? && AllWellFormed(items)
    case Mapping(e, pairs) => e.MappingStart? && PairsWellFormed(pairs)
  }

  predicate AllWellFormed(ts: Trees) {
    ts.Trees? ==> WellFormed(ts.head) && AllWellFormed(ts.tail)
  }

  predicate PairsWellFormed(ps: TreePairs) {
    ps.TreePairs? ==> WellFormed(ps.key) && WellFormed(ps.value) && PairsWellFormed(ps.tail)
  }

  predicate DocsWellFormed(docs: seq<Doc>) {
    forall i | 0 <= i < |docs| :: docs[i].start.DocumentStart? && WellFormed(docs[i].root)
  }

  function Spell(t: Tree): seq<Event> {
    match t
    case Leaf(e) => [e]
    case Sequence(e, items) => [e] + SpellItems(items)
    case Mapping(e, pairs) => [e] + SpellPairs(pairs)
  }

  // The items and the event that ends their sequence.
  function SpellItems(ts: Trees): seq<Event> {
    match ts
    case NoTrees => [SequenceEnd]
    case Trees(t, rest) => Spell(t) + SpellItems(rest)
  }

  function SpellPairs(ps: TreePairs): seq<Event> {
    match ps
    case NoPairs => [MappingEnd]
    case TreePairs(k, v, rest) => Spell(k) + Spell(v) + SpellPairs(rest)
  }

  function SpellDocs(docs: seq<Doc>): seq<Event> {
    if docs == [] then [Event.StreamEnd]
    else [docs[0].start] + Spell(docs[0].root) + [Event.DocumentEnd] + SpellDocs(docs[1..])
  }

  function SpellStream(docs: seq<Doc>): seq<Event> {
    [Event.StreamStart] + SpellDocs(docs)
  }

  // ------------------------------------------------------------------ accepted means spelled by trees

  // One part of an accepted run for each goal on the stack.
  datatype Part =
    | StreamPart(docs: seq<Doc>)
    | DocumentsPart(docs: seq<Doc>)
    | TailPart
    | NodePart(tree: Tree)
    | ItemsPart(items: Trees)
    | PairsPart(pairs: TreePairs)
  {
    function Goal(): Goal {
      match this
      case StreamPart(_) => WholeStream
      case DocumentsPart(_) => Documents
      case TailPart => DocumentTail
      case NodePart(_) => Node
      case ItemsPart(_) => Items
      case PairsPart(_) => Pairs
    }

    predicate Valid() {
      match this
      case StreamPart(docs) => DocsWellFormed(docs)
      case DocumentsPart(docs) => DocsWellFormed(docs)
      case TailPart => true
      case NodePart(t) => WellFormed(t)
      case ItemsPart(ts) => AllWellFormed(ts)
      case PairsPart(ps) => PairsWellFormed(ps)
    }

    function Events(): seq<Event> {
      match this
      case StreamPart(docs) => SpellStream(docs)
      case DocumentsPart(docs) => SpellDocs(docs)
      case TailPart => [Event.DocumentEnd]
      case NodePart(t) => Spell(t)
      case ItemsPart(ts) => SpellItems(ts)
      case PairsPart(ps) => SpellPairs(ps)
    }
  }

  // The parts of a whole stack, innermost first; `goals` lists the same goals innermost last.
  datatype Parts = NoParts | Parts(top: Part, below: Parts)

  predicate Fills(ps: Parts, goals: seq<Goal>) {
    match ps
    case NoParts => goals == []
    case Parts(p, rest) =>
      && goals != [] && p.Valid() && p.Goal() == goals[|goals| - 1]
      && Fills(rest, goals[..|goals| - 1])
  }

  function PartEvents(ps: Parts): seq<Event> {
    match ps
    case NoParts => []
    case Parts(p, rest) => p.Events() + PartEvents(rest)
  }

  lemma Topmost(ps: Parts, below: seq<Goal>, g: Goal)
    requires Fills(ps, below + [g])
    ensures ps.Parts? && ps.top.Valid() && ps.top.Goal() == g && Fills(ps.below, below)
    ensures PartEvents(ps) == ps.top.Events() + PartEvents(ps.below)
  {
    assert (below + [g])[..|below|] == below;
  }

  lemma OnTop(p: Part, ps: Parts, below: seq<Goal>)
    requires p.Valid() && Fills(ps, below)
    ensures Fills(Parts(p, ps), below + [p.Goal()])
    ensures PartEvents(Parts(p, ps)) == p.Events() + PartEvents(ps)
  {
    assert (below + [p.Goal()])[..|below|] == below;
  }

  // The parts behind an accepted node event, with that node put in front.
  lemma NodePrepended(below: seq<Goal>, e: Event, next: Parts) returns (t: Tree, rest: Parts)
    requires OpenNode(below, e).Some? && Fills(next, OpenNode(below, e).value)
    ensures WellFormed(t) && Fills(rest, below)
    ensures Spell(t) + PartEvents(rest) == [e] + PartEvents(next)
  {
    hide Fills, PartEvents;
    match e
    case Alias(_) => t, rest := Leaf(e), next;
    case Scalar(_, _, _, _) => t, rest := Leaf(e), next;
    case SequenceStart(_, _, _) =>
      Topmost(next, below, Items);
      t, rest := Sequence(e, next.top.items), next.below;
    case MappingStart(_, _, _) =>
      Topmost(next, below, Pairs);
      t, rest := Mapping(e, next.top.pairs), next.below;
  }

  lemma StreamPrepended(below: seq<Goal>, e: Event, next: Parts) returns (ps: Parts)
    requires e.StreamStart? && Fills(next, below + [Documents])
    ensures Fills(ps, below + [WholeStream]) && PartEvents(ps) == [e] + PartEvents(next)
  {
    hide Fills, PartEvents;
    Topmost(next, below, Documents);
    var p := StreamPart(next.top.docs);
    ps := Parts(p, next.below);
    OnTop(p, next.below, below);
  }

  lemma DocumentPrepended(below: seq<Goal>, e: Event, next: Parts) returns (ps: Parts)
    requires e.DocumentStart? && Fills(next, below + [Documents] + [DocumentTail] + [Node])
    ensures Fills(ps, below + [Documents]) && PartEvents(ps) == [e] + PartEvents(next)
  {
    hide Fills, PartEvents, Spell;
    Topmost(next, below + [Documents] + [DocumentTail], Node);
    Topmost(next.below, below + [Documents], DocumentTail);
    var rest := next.below.below;
    Topmost(rest, below, Documents);
    var docs := [Doc(e, next.top.tree)] + rest.top.docs;
    assert docs[1..] == rest.top.docs;
    ps := Parts(DocumentsPart(docs), rest.below);
    OnTop(DocumentsPart(docs), rest.below, below);
  }

  lemma ItemPrepended(below: seq<Goal>, e: Event, next: Parts) returns (ps: Parts)
    requires OpenNode(below + [Items], e).Some? && Fills(next, OpenNode(below + [Items], e).value)
    ensures Fills(ps, below + [Items]) && PartEvents(ps) == [e] + PartEvents(next)
  {
    hide Fills, PartEvents, OpenNode, Spell;
    var t, rest := NodePrepended(below + [Items], e, next);
    Topmost(rest, below, Items);
    var p := ItemsPart(Trees(t, rest.top.items));
    ps := Parts(p, rest.below);
    OnTop(p, rest.below, below);
  }

  lemma PairPrepended(below: seq<Goal>, e: Event, next: Parts) returns (ps: Parts)
    requires OpenNode(below + [Pairs] + [Node], e).Some?
    requires Fills(next, OpenNode(below + [Pairs] + [Node], e).value)
    ensures Fills(ps, below + [Pairs]) && PartEvents(ps) == [e] + PartEvents(next)
  {
    hide Fills, PartEvents, OpenNode, Spell;
    var k, v := NodePrepended(below + [Pairs] + [Node], e, next);
    Topmost(v, below + [Pairs], Node);
    Topmost(v.below, below, Pairs);
    var p := PairsPart(TreePairs(k, v.top.tree, v.below.top.pairs));
    ps := Parts(p, v.below.below);
    OnTop(p, v.below.below, below);
    assert PartEvents(ps) == Spell(k) + (v.top.Events() + (v.below.top.Events() + PartEvents(v.below.below)));
  }

  // The parts behind an accepted event, with that event put in front.
  lemma Prepended(goals: seq<Goal>, e: Event, next: Parts) returns (ps: Parts)
    requires Advance(goals, e).Some? && Fills(next, Advance(goals, e).value)
    ensures Fills(ps, goals) && PartEvents(ps) == [e] + PartEvents(next)
  {
    hide Fills, PartEvents, OpenNode, Spell, WellFormed;
    var below := goals[..|goals| - 1];
    assert goals == below + [goals[|goals| - 1]];
    match goals[|goals| - 1]
    case WholeStream => ps := StreamPrepended(below, e, next);
    case Documents =>
      if e.StreamEnd? {
        ps := Parts(DocumentsPart([]), next);
        OnTop(DocumentsPart([]), next, below);
      } else {
        assert goals + [DocumentTail, Node] == goals + [DocumentTail] + [Node];
        ps := DocumentPrepended(below, e, next);
      }
    case DocumentTail =>
      ps := Parts(TailPart, next);
      OnTop(TailPart, next, below);
    case Node =>
      var t, rest := NodePrepended(below, e, next);
      ps := Parts(NodePart(t), rest);
      OnTop(NodePart(t), rest, below);
    case Items =>
      if e.SequenceEnd? {
        ps := Parts(ItemsPart(NoTrees), next);
        OnTop(ItemsPart(NoTrees), next, below);
      } else {
        ps := ItemPrepended(below, e, next);
      }
    case Pairs =>
      if e.MappingEnd? {
        ps := Parts(PairsPart(NoPairs), next);
        OnTop(PairsPart(NoPairs), next, below);
      } else {
        ps := PairPrepended(below, e, next);
      }
  }

  lemma Decompose(goals: seq<Goal>, events: seq<Event>) returns (ps: Parts)
    requires AdvanceAll(goals, events) == Some([])
    ensures Fills(ps, goals) && PartEvents(ps) == events
    decreases |events|
  {
    if events == [] {
      ps := NoParts;
    } else {
      var next := Decompose(Advance(goals, events[0]).value, events[1..]);
      ps := Prepended(goals, events[0], next);
    }
  }

  // ------------------------------------------------------------------ spelled by trees means accepted

  lemma AdvanceCons(goals: seq<Goal>, e: Event, more: seq<Event>)
    requires Advance(goals, e).Some?
    ensures AdvanceAll(goals, [e] + more) == AdvanceAll(Advance(goals, e).value, more)
  {
    assert ([e] + more)[1..] == more;
  }

  // The first event of a node opens it in whichever place a node may stand.
  lemma NodePlaces(below: seq<Goal>, e: Event)
    requires IsNodeEvent(e)
    ensures Advance(below + [Node], e) == OpenNode(below, e)
    ensures Advance(below + [Items], e) == OpenNode(below + [Items], e)
    ensures Advance(below + [Pairs], e) == OpenNode(below + [Pairs] + [Node], e)
    ensures Advance(below + [Items], SequenceEnd) == Some(below)
    ensures Advance(below + [Pairs], MappingEnd) == Some(below)
    ensures OpenNode(below, e).Some?
  {
    assert (below + [Node])[..|below|] == below;
    assert (below + [Items])[..|below|] == below;
    assert (below + [Pairs])[..|below|] == below;
  }

  lemma Associate(a: seq<Goal>, b: seq<Goal>, c: seq<Goal>)
    ensures a + b + c == a + (b + c)
  {
  }

  // What is owed below the top plays no part.
  lemma AdvanceFrame(below: seq<Goal>, due: seq<Goal>, e: Event)
    requires due != []
    ensures Advance(below + due, e) ==
            match Advance(due, e) case None => None case Some(d) => Some(below + d)
  {
    var k := |below| + |due| - 1;
    assert (below + due)[..k] == below + due[..|due| - 1];
    assert (below + due)[k] == due[|due| - 1];
    Associate(below, due, [DocumentTail, Node]);
    Associate(below, due, [Items]);
    Associate(below, due, [Pairs]);
    Associate(below, due, [Node]);
    Associate(below, due + [Node], [Items]);
    Associate(below, due + [Node], [Pairs]);
    Associate(below, due[..|due| - 1], [Documents]);
    Associate(below, due[..|due| - 1], [Items]);
    Associate(below, due[..|due| - 1], [Pairs]);
  }

  lemma {:induction false} TreeAccepted(below: seq<Goal>, t: Tree, more: seq<Event>)
    requires WellFormed(t)
    ensures Spell(t) != [] && IsNodeEvent(Spell(t)[0]) && OpenNode(below, Spell(t)[0]).Some?
    ensures AdvanceAll(OpenNode(below, Spell(t)[0]).value, Spell(t)[1..] + more) == AdvanceAll(below, more)
    decreases t, 0
  {
    hide AdvanceAll, Advance;
    match t
    case Leaf(e) => assert Spell(t)[1..] + more == more;
    case Sequence(e, items) =>
      assert Spell(t)[1..] == SpellItems(items);
      ItemsAccepted(below, items, more);
    case Mapping(e, pairs) =>
      assert Spell(t)[1..] == SpellPairs(pairs);
      PairsAccepted(below, pairs, more);
  }

  lemma {:induction false} ItemsAccepted(below: seq<Goal>, ts: Trees, more: seq<Event>)
    requires AllWellFormed(ts)
    ensures AdvanceAll(below + [Items], SpellItems(ts) + more) == AdvanceAll(below, more)
    decreases ts, 0
  {
    hide AdvanceAll, Advance, Spell;
    match ts
    case NoTrees =>
      NodePlaces(below, NullScalar());
      AdvanceCons(below + [Items], SequenceEnd, more);
    case Trees(t, rest) =>
      var s, behind := Spell(t), SpellItems(rest) + more;
      TreeAccepted(below + [Items], t, behind);
      assert SpellItems(ts) + more == [s[0]] + (s[1..] + behind);
      NodePlaces(below, s[0]);
      AdvanceCons(below + [Items], s[0], s[1..] + behind);
      ItemsAccepted(below, rest, more);
  }

  lemma {:induction false} PairsAccepted(below: seq<Goal>, ps: TreePairs, more: seq<Event>)
    requires PairsWellFormed(ps)
    ensures AdvanceAll(below + [Pairs], SpellPairs(ps) + more) == AdvanceAll(below, more)
    decreases ps, 0
  {
    hide AdvanceAll, Advance, Spell;
    match ps
    case NoPairs =>
      NodePlaces(below, NullScalar());
      AdvanceCons(below + [Pairs], MappingEnd, more);
    case TreePairs(k, v, rest) =>
      var s, behind := Spell(k), SpellPairs(rest) + more;
      TreeAccepted(below + [Pairs] + [Node], k, Spell(v) + behind);
      assert SpellPairs(ps) + more == [s[0]] + (s[1..] + (Spell(v) + behind));
      NodePlaces(below, s[0]);
      AdvanceCons(below + [Pairs], s[0], s[1..] + (Spell(v) + behind));
      NodeAccepted(below + [Pairs], v, behind);
      PairsAccepted(below, rest, more);
  }

  lemma {:induction false} NodeAccepted(below: seq<Goal>, t: Tree, more: seq<Event>)
    requires WellFormed(t)
    ensures AdvanceAll(below + [Node], Spell(t) + more) == AdvanceAll(below, more)
    decreases t, 1
  {
    hide AdvanceAll, Advance, Spell;
    var s := Spell(t);
    TreeAccepted(below, t, more);
    assert s + more == [s[0]] + (s[1..] + more);
    NodePlaces(below, s[0]);
    AdvanceCons(below + [Node], s[0], s[1..] + more);
  }

  lemma {:induction false} DocsAccepted(docs: seq<Doc>)
    requires DocsWellFormed(docs)
    ensures AdvanceAll([Documents], SpellDocs(docs)) == Some([])
    decreases |docs|
  {
    if docs != [] {
      var d := docs[0];
      var rest := SpellDocs(docs[1..]);
      var tail := [Event.DocumentEnd] + rest;
      assert [Documents, DocumentTail][..1] == [Documents];
      assert SpellDocs(docs) == [d.start] + (Spell(d.root) + tail);
      assert [Documents] + [DocumentTail, Node] == [Documents, DocumentTail] + [Node];
      AdvanceCons([Documents], d.start, Spell(d.root) + tail);
      NodeAccepted([Documents, DocumentTail], d.root, tail);
      AdvanceCons([Documents, DocumentTail], Event.DocumentEnd, rest);
      DocsAccepted(docs[1..]);
    }
  }

  // The machine accepts exactly the streams of well-formed documents.
  lemma AcceptedExactlyWhenSpelled(events: seq<Event>)
    ensures AdvanceAll([WholeStream], events) == Some([])
        <==> exists docs :: DocsWellFormed(docs) && SpellStream(docs) == events
  {
    if AdvanceAll([WholeStream], events) == Some([]) {
      var ps := Decompose([WholeStream], events);
      assert ps.below == NoParts;
      var docs := ps.top.docs;
      assert DocsWellFormed(docs) && SpellStream(docs) == events;
    }
    if docs :| DocsWellFormed(docs) && SpellStream(docs) == events {
      DocsAccepted(docs);
      assert [WholeStream][..0] + [Documents] == [Documents];
      AdvanceCons([WholeStream], Event.StreamStart, SpellDocs(docs));
    }
  }

  // ------------------------------------------------------------------ comments among events

  // The events of a stream that are not comments, and those that are.
  function Structural(events: seq<Event>): seq<Event> {
    if events == [] then []
    else (if events[0].Comment? then [] else [events[0]]) + Structural(events[1..])
  }

  function CommentsOf(events: seq<Event>): seq<Event> {
    if events == [] then []
    else (if events[0].Comment? then [events[0]] else []) + CommentsOf(events[1..])
  }

  lemma {:induction false} Received(events: seq<Event>, e: Event)
    ensures Structural(events + [e]) == Structural(events) + if e.Comment? then [] else [e]
    ensures CommentsOf(events + [e]) == CommentsOf(events) + if e.Comment? then [e] else []
    decreases |events|
  {
    if events == [] {
      assert [] + [e] == [e];
    } else {
      assert (events + [e])[1..] == events[1..] + [e];
      Received(events[1..], e);
    }
  }
}
