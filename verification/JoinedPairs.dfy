// What is lost when the parser takes a `?` with nothing behind it and a `:` with no key for one pair
// (crates/yamluna-scanner/src/parser.rs, `flow_sequence_entry_mapping_key`).
module JoinedPairs {
  import opened Results
  import opened ScalarEmitter
  import opened Events
  import opened ParserStep
  import opened Written

  // The one pair ends as the two do, four events short of them.
  predicate Shorter(a: Meaning, b: Meaning, lost: nat) {
    && a.verdict == b.verdict
    && (lost == 0 ==> a == b)
    && (a.verdict.Ok? ==> |a.events| + 4 * lost == |b.events|)
  }

  lemma ShorterBoth(a: Meaning, b: Meaning, n: nat, a2: Meaning, b2: Meaning, m: nat)
    requires Shorter(a, b, n) && (a.verdict.Ok? ==> Shorter(a2, b2, m))
    ensures Shorter(Both(a, a2), Both(b, b2), n + m)
  {
  }

  lemma ShorterPrefix(e: Event, a: Meaning, b: Meaning, n: nat)
    requires Shorter(a, b, n)
    ensures Shorter(Prefix(e, a), Prefix(e, b), n)
  {
  }

  lemma ShorterSame(a: Meaning)
    ensures Shorter(a, a, 0)
  {
  }

  lemma NodeJoined(n: Node, env: Env)
    ensures Shorter(Mean(n, env, true), Mean(n, env, false), Lost(n))
    decreases n, 1
  {
    hide MeanProps, Shorter, MeanItems, MeanEntries, MeanCells, MeanMembers, LostItems, LostEntries, LostCells, LostMembers;
    ShorterSame(Mean(n, env, false));
    if !n.Missing? && !n.Reference? && MeanProps(n.props, env).Ok? {
      var (p, next) := MeanProps(n.props, env).value;
      match n {
        case BlockSeq(_, items) =>
          ItemsJoined(items, next);
          ShorterPrefix(SequenceStart(p.anchor, p.tag, Block), MeanItems(items, next, true), MeanItems(items, next, false), Lost(n));
        case Indentless(_, items) =>
          ItemsJoined(items, next);
          ShorterPrefix(SequenceStart(p.anchor, p.tag, Block), MeanItems(items, next, true), MeanItems(items, next, false), Lost(n));
        case BlockMap(_, entries) =>
          EntriesJoined(entries, next);
          ShorterPrefix(MappingStart(p.anchor, p.tag, Block), MeanEntries(entries, next, true), MeanEntries(entries, next, false), Lost(n));
        case FlowSeq(_, cells) =>
          CellsJoined(cells, next);
          ShorterPrefix(SequenceStart(p.anchor, p.tag, Flow), MeanCells(cells, next, true), MeanCells(cells, next, false), Lost(n));
        case FlowMap(_, members) =>
          MembersJoined(members, next);
          ShorterPrefix(MappingStart(p.anchor, p.tag, Flow), MeanMembers(members, next, true), MeanMembers(members, next, false), Lost(n));
        case Text(_, _, _) =>
        case Bare(_) =>
      }
    } else if !n.Missing? && !n.Reference? {
      StoppedShort(MeanProps(n.props, env).error, Lost(n));
    }
  }

  lemma StoppedShort(e: ParseError, lost: nat)
    ensures Shorter(Stop(e), Stop(e), lost)
  {
  }

  lemma {:induction false} ItemsJoined(i: Items, env: Env)
    ensures Shorter(MeanItems(i, env, true), MeanItems(i, env, false), LostItems(i))
    decreases i, 0
  {
    hide Mean, Lost;
    if i.Items? {
      NodeJoined(i.head, env);
      var a, b := Mean(i.head, env, true), Mean(i.head, env, false);
      if a.verdict.Ok? {
        ItemsJoined(i.tail, a.verdict.value);
        ShorterBoth(a, b, Lost(i.head), MeanItems(i.tail, a.verdict.value, true), MeanItems(i.tail, a.verdict.value, false), LostItems(i.tail));
      }
    }
  }

  // Two nodes one behind the other, and what follows them.
  lemma TwoJoined(k: Node, v: Node, env: Env, restA: Result<Env, ParseError> -> Meaning, restB: Result<Env, ParseError> -> Meaning, lost: nat)
    requires forall e: Env :: Shorter(restA(Ok(e)), restB(Ok(e)), lost)
    requires Shorter(Mean(k, env, true), Mean(k, env, false), Lost(k))
    requires forall e: Env :: Shorter(Mean(v, e, true), Mean(v, e, false), Lost(v))
    ensures Shorter(Two(k, v, env, restA, true), Two(k, v, env, restB, false), Lost(k) + Lost(v) + lost)
  {
    hide Mean, Lost;
    var a, b := Mean(k, env, true), Mean(k, env, false);
    if a.verdict.Ok? {
      var c, d := Mean(v, a.verdict.value, true), Mean(v, a.verdict.value, false);
      if c.verdict.Ok? {
        ShorterBoth(c, d, Lost(v), restA(c.verdict), restB(c.verdict), lost);
        ShorterBoth(a, b, Lost(k), Append(c, restA(c.verdict)), Append(d, restB(c.verdict)), Lost(v) + lost);
      } else {
        ShorterBoth(a, b, Lost(k), c, d, Lost(v));
      }
    }
  }

  function Two(k: Node, v: Node, env: Env, rest: Result<Env, ParseError> -> Meaning, joined: bool): Meaning {
    var a := Mean(k, env, joined);
    if a.verdict.Err? then a
    else
      var b := Mean(v, a.verdict.value, joined);
      Append(a, if b.verdict.Err? then b else Append(b, rest(b.verdict)))
  }

  lemma {:induction false} EntriesJoined(e: Entries, env: Env)
    ensures Shorter(MeanEntries(e, env, true), MeanEntries(e, env, false), LostEntries(e))
    decreases e, 0
  {
    hide Mean, Lost, Shorter;
    if e.Entries? {
      var restA := (r: Result<Env, ParseError>) => if r.Ok? then MeanEntries(e.tail, r.value, true) else Stop(r.error);
      var restB := (r: Result<Env, ParseError>) => if r.Ok? then MeanEntries(e.tail, r.value, false) else Stop(r.error);
      forall x: Env ensures Shorter(restA(Ok(x)), restB(Ok(x)), LostEntries(e.tail)) && Shorter(Mean(e.value, x, true), Mean(e.value, x, false), Lost(e.value)) {
        EntriesJoined(e.tail, x);
        NodeJoined(e.value, x);
      }
      NodeJoined(e.key, env);
      TwoJoined(e.key, e.value, env, restA, restB, LostEntries(e.tail));
      assert MeanEntries(e, env, true) == Two(e.key, e.value, env, restA, true);
      assert MeanEntries(e, env, false) == Two(e.key, e.value, env, restB, false);
    } else {
      ShorterSame(Single(MappingEnd, env));
    }
  }

  lemma {:induction false} MembersJoined(m: Members, env: Env)
    ensures Shorter(MeanMembers(m, env, true), MeanMembers(m, env, false), LostMembers(m))
    decreases m, 0
  {
    hide Mean, Lost, Shorter;
    match m {
      case NoMembers => ShorterSame(Single(MappingEnd, env));
      case LastComma => ShorterSame(Single(MappingEnd, env));
      case Lone(k, tail) =>
        NodeJoined(k, env);
        LoneJoined(m, env);
      case Member(_, k, v, tail) =>
        var restA := (r: Result<Env, ParseError>) => if r.Ok? then MeanMembers(tail, r.value, true) else Stop(r.error);
        var restB := (r: Result<Env, ParseError>) => if r.Ok? then MeanMembers(tail, r.value, false) else Stop(r.error);
        forall x: Env ensures Shorter(restA(Ok(x)), restB(Ok(x)), LostMembers(tail)) && Shorter(Mean(v, x, true), Mean(v, x, false), Lost(v)) {
          MembersJoined(tail, x);
          NodeJoined(v, x);
        }
        NodeJoined(k, env);
        TwoJoined(k, v, env, restA, restB, LostMembers(tail));
        assert MeanMembers(m, env, true) == Two(k, v, env, restA, true);
        assert MeanMembers(m, env, false) == Two(k, v, env, restB, false);
    }
  }

  lemma {:induction false} LoneJoined(m: Members, env: Env)
    requires m.Lone? && Shorter(Mean(m.key, env, true), Mean(m.key, env, false), Lost(m.key))
    ensures Shorter(MeanMembers(m, env, true), MeanMembers(m, env, false), LostMembers(m))
    decreases m.tail, 1
  {
    hide Mean, Lost;
    var a, b := Mean(m.key, env, true), Mean(m.key, env, false);
    if a.verdict.Ok? {
      var c, d := MeanMembers(m.tail, a.verdict.value, true), MeanMembers(m.tail, a.verdict.value, false);
      MembersJoined(m.tail, a.verdict.value);
      ShorterPrefix(NullScalar(), c, d, LostMembers(m.tail));
      ShorterBoth(a, b, Lost(m.key), Prefix(NullScalar(), c), Prefix(NullScalar(), d), LostMembers(m.tail));
    }
  }

  lemma {:induction false} CellsJoined(c: Cells, env: Env)
    ensures Shorter(MeanCells(c, env, true), MeanCells(c, env, false), LostCells(c))
    decreases c, 1
  {
    hide Mean, Lost, MeanPair, Shorter;
    match c {
      case NoCells => ShorterSame(Single(SequenceEnd, env));
      case Comma => ShorterSame(Single(SequenceEnd, env));
      case Item(n, tail) =>
        NodeJoined(n, env);
        var a, b := Mean(n, env, true), Mean(n, env, false);
        CellThen(c, a, b, Lost(n), env);
      case Pair(_, k, v, tail) =>
        if Joins(c) {
          CellsJoined(tail, env);
          JoinedShort(c, env);
        } else {
          PairJoined(c, env);
          var a := Prefix(MappingStart(NoAnchor, None, Flow), MeanPair(c, env, true));
          var b := Prefix(MappingStart(NoAnchor, None, Flow), MeanPair(c, env, false));
          ShorterPrefix(MappingStart(NoAnchor, None, Flow), MeanPair(c, env, true), MeanPair(c, env, false), Lost(k) + Lost(v));
          CellThen(c, a, b, Lost(k) + Lost(v), env);
        }
    }
  }

  // One cell and those behind it.
  lemma {:induction false} CellThen(c: Cells, a: Meaning, b: Meaning, lost: nat, env: Env)
    requires (c.Item? || c.Pair?) && !Joins(c) && Shorter(a, b, lost)
    requires if c.Item? then a == Mean(c.item, env, true) && b == Mean(c.item, env, false) && lost == Lost(c.item)
             else
               && a == Prefix(MappingStart(NoAnchor, None, Flow), MeanPair(c, env, true))
               && b == Prefix(MappingStart(NoAnchor, None, Flow), MeanPair(c, env, false))
               && lost == Lost(c.key) + Lost(c.value)
    ensures Shorter(MeanCells(c, env, true), MeanCells(c, env, false), LostCells(c))
    decreases c.tail, 2
  {
    hide Mean, Lost, MeanPair;
    if a.verdict.Ok? {
      CellsJoined(c.tail, a.verdict.value);
      ShorterBoth(a, b, lost, MeanCells(c.tail, a.verdict.value, true), MeanCells(c.tail, a.verdict.value, false), LostCells(c.tail));
    }
  }

  lemma PairJoined(c: Cells, env: Env)
    requires c.Pair?
    ensures Shorter(MeanPair(c, env, true), MeanPair(c, env, false), Lost(c.key) + Lost(c.value))
    decreases c, 0
  {
    hide Mean, Lost, Shorter;
    var rest := (r: Result<Env, ParseError>) => if r.Ok? then Single(MappingEnd, r.value) else Stop(r.error);
    forall x: Env ensures Shorter(rest(Ok(x)), rest(Ok(x)), 0) && Shorter(Mean(c.value, x, true), Mean(c.value, x, false), Lost(c.value)) {
      ShorterSame(rest(Ok(x)));
      NodeJoined(c.value, x);
    }
    NodeJoined(c.key, env);
    TwoJoined(c.key, c.value, env, rest, rest, 0);
    assert MeanPair(c, env, true) == Two(c.key, c.value, env, rest, true);
    assert MeanPair(c, env, false) == Two(c.key, c.value, env, rest, false);
  }

  // The four events are those of a pair of nulls.
  lemma JoinedShort(c: Cells, env: Env)
    requires Joins(c)
    requires Shorter(MeanCells(c.tail, env, true), MeanCells(c.tail, env, false), LostCells(c.tail))
    ensures Shorter(MeanCells(c, env, true), MeanCells(c, env, false), LostCells(c))
  {
    NullPair(c, env);
    hide Mean, MeanPair, LostCells;
    assert LostCells(c) == 1 + LostCells(c.tail) by { LostOne(c); }
  }

  lemma LostOne(c: Cells)
    requires Joins(c)
    ensures LostCells(c) == 1 + LostCells(c.tail)
  {
  }

  lemma NullPair(c: Cells, env: Env)
    requires Joins(c)
    ensures MeanPair(c, env, false) == Meaning([NullScalar(), NullScalar(), MappingEnd], Ok(env))
  {
  }

  // ------------------------------------------------------------------ documents

  lemma DocumentJoined(d: Document, env: Env)
    requires AllDirectives(d.directives)
    ensures Shorter(MeanDocument(d, env, true), MeanDocument(d, env, false), Lost(d.root))
  {
    hide Mean, Lost, MeanDirectives;
    var found := MeanDirectives(d.directives, None, map[]);
    if found.Ok? {
      var next := env.(version := found.value.0, tags := env.tags + found.value.1);
      NodeJoined(d.root, next);
      var a, b := Mean(d.root, next, true), Mean(d.root, next, false);
      if a.verdict.Ok? {
        var end := Single(Event.DocumentEnd, Left(a.verdict.value));
        ShorterBoth(a, b, Lost(d.root), end, end, 0);
      }
    } else {
      StoppedShort(found.error, Lost(d.root));
    }
  }

  lemma {:induction false} DocumentsJoined(docs: seq<Document>, env: Env)
    requires forall i | 0 <= i < |docs| :: AllDirectives(docs[i].directives)
    ensures Shorter(MeanDocuments(docs, env, true), MeanDocuments(docs, env, false), LostIn(docs))
    decreases |docs|
  {
    hide MeanDocument, Lost, MeanDirectives;
    if docs != [] {
      DocumentJoined(docs[0], env);
      var a, b := MeanDocument(docs[0], env, true), MeanDocument(docs[0], env, false);
      if a.verdict.Ok? {
        DocumentsJoined(docs[1..], a.verdict.value);
        ShorterBoth(a, b, Lost(docs[0].root), MeanDocuments(docs[1..], a.verdict.value, true),
                    MeanDocuments(docs[1..], a.verdict.value, false), LostIn(docs[1..]));
      }
    }
  }

  lemma StreamJoined(docs: seq<Document>, env: Env)
    requires forall i | 0 <= i < |docs| :: AllDirectives(docs[i].directives)
    ensures Shorter(MeanStream(docs, env, true), MeanStream(docs, env, false), LostIn(docs))
  {
    DocumentsJoined(docs, env);
    ShorterPrefix(Event.StreamStart, MeanDocuments(docs, env, true), MeanDocuments(docs, env, false), LostIn(docs));
  }
}
