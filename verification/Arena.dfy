// The document tree as a flat arena, and the events that build it
// (crates/yamluna-core/src/node.rs; crates/yamluna-core/src/loader.rs).
module Arena {
  import opened Results
  import opened ScalarEmitter
  import opened Events
  import opened Grammar

  datatype Entry = Entry(key: nat, value: nat)

  datatype Kind =
    | Scalar(style: ScalarStyle, value: string)
    | Alias(name: string)
    | Sequence(structure: StructureStyle, items: seq<nat>)
    | Mapping(structure: StructureStyle, entries: seq<Entry>)

  // What a node is, its trivia aside. A tag is kept as the URI it resolves to.
  datatype Bone = Bone(kind: Kind, anchor: Option<string>, tag: Option<string>) {
    predicate IsCollection() {
      kind.Sequence? || kind.Mapping?
    }

    // Key, value, key, value for a mapping.
    function Children(): seq<nat> {
      match kind
      case Sequence(_, items) => items
      case Mapping(_, entries) => EntryIds(entries)
      case _ => []
    }
  }

  function EntryIds(entries: seq<Entry>): seq<nat>
    decreases |entries|
  {
    if entries == [] then [] else [entries[0].key, entries[0].value] + EntryIds(entries[1..])
  }

  // An open collection: its node and the children filed so far.
  datatype Frame = Frame(node: nat, items: seq<nat>, entries: seq<Entry>, pendingKey: Option<nat>)

  datatype Tree = Tree(root: Option<nat>, bones: seq<Bone>)

  const NoTree := Tree(None, [])

  datatype Shape = Shape(tree: Tree, stack: seq<Frame>, done: seq<Tree>)

  // ------------------------------------------------------------------ one event

  function TagOf(tag: Option<ResolvedTag>): Option<string> {
    if tag.None? then None else Some(tag.value.handle + tag.value.suffix)
  }

  function BoneOf(e: Event): Bone
    requires IsNodeEvent(e)
  {
    match e
    case Scalar(value, style, anchor, tag) => Bone(Kind.Scalar(style, value), anchor.name, TagOf(tag))
    case Alias(anchor) => Bone(Kind.Alias(if anchor.name.Some? then anchor.name.value else ""), None, None)
    case SequenceStart(anchor, tag, structure) => Bone(Kind.Sequence(structure, []), anchor.name, TagOf(tag))
    case MappingStart(anchor, tag, structure) => Bone(Kind.Mapping(structure, []), anchor.name, TagOf(tag))
  }

  // Files a finished node into the collection around it, or makes it the root.
  function Placed(s: Shape, id: nat): Shape {
    if s.stack == [] then s.(tree := s.tree.(root := Some(id)))
    else
      var k := |s.stack| - 1;
      s.(stack := s.stack[k := Filed(s.stack[k], IsSequence(s, s.stack[k].node), id)])
  }

  function Filed(f: Frame, sequence: bool, id: nat): Frame {
    if sequence then f.(items := f.items + [id])
    else if f.pendingKey.Some? then f.(entries := f.entries + [Entry(f.pendingKey.value, id)], pendingKey := None)
    else f.(pendingKey := Some(id))
  }

  predicate IsSequence(s: Shape, id: nat) {
    id < |s.tree.bones| && s.tree.bones[id].kind.Sequence?
  }

  function Grown(s: Shape, b: Bone): Shape {
    s.(tree := s.tree.(bones := s.tree.bones + [b]))
  }

  // The innermost collection closes with the children it has.
  function Closed(s: Shape): Shape {
    if s.stack == [] || s.stack[|s.stack| - 1].node >= |s.tree.bones| then s
    else
      var f := s.stack[|s.stack| - 1];
      var b := s.tree.bones[f.node];
      Placed(Shape(s.tree.(bones := s.tree.bones[f.node := Filled(b, f)]), s.stack[..|s.stack| - 1], s.done), f.node)
  }

  // A collection with the children its frame has.
  function Filled(b: Bone, f: Frame): Bone {
    match b.kind
    case Sequence(structure, _) => b.(kind := Kind.Sequence(structure, f.items))
    case Mapping(structure, _) => b.(kind := Kind.Mapping(structure, f.entries))
    case _ => b
  }

  // `region` is whether the stream ends in lines that only a document of their own can keep.
  function Fed(s: Shape, e: Event, region: bool): Shape {
    match e
    case StreamStart => s
    case Comment(_) => s
    case DocumentStart(_) => s.(tree := NoTree)
    case DocumentEnd => s.(tree := NoTree, done := s.done + [s.tree])
    case Scalar(_, _, _, _) => Placed(Grown(s, BoneOf(e)), |s.tree.bones|)
    case Alias(_) => Placed(Grown(s, BoneOf(e)), |s.tree.bones|)
    case SequenceStart(_, _, _) => Opened(s, BoneOf(e))
    case MappingStart(_, _, _) => Opened(s, BoneOf(e))
    case SequenceEnd => Closed(s)
    case MappingEnd => Closed(s)
    case StreamEnd => if s.done == [] || region then s.(done := s.done + [NoTree]) else s
  }

  function Opened(s: Shape, b: Bone): Shape {
    var g := Grown(s, b);
    g.(stack := s.stack + [Frame(|s.tree.bones|, [], [], None)])
  }

  function FedAll(s: Shape, events: seq<Event>, region: bool): Shape
    decreases |events|
  {
    if events == [] then s else FedAll(Fed(s, events[0], region), events[1..], region)
  }

  // ------------------------------------------------------------------ the arena of a tree

  function Size(t: Grammar.Tree): nat {
    match t
    case Leaf(_) => 1
    case Sequence(_, items) => 1 + SizeAll(items)
    case Mapping(_, pairs) => 1 + SizePairs(pairs)
  }

  function SizeAll(ts: Trees): nat {
    if ts.NoTrees? then 0 else Size(ts.head) + SizeAll(ts.tail)
  }

  function SizePairs(ps: TreePairs): nat {
    if ps.NoPairs? then 0 else Size(ps.key) + Size(ps.value) + SizePairs(ps.tail)
  }

  // The ids of consecutive subtrees, the first of which starts at `lo`.
  function Ids(lo: nat, ts: Trees): seq<nat>
    decreases ts
  {
    if ts.NoTrees? then [] else [lo] + Ids(lo + Size(ts.head), ts.tail)
  }

  function PairIds(lo: nat, ps: TreePairs): seq<Entry>
    decreases ps
  {
    if ps.NoPairs? then []
    else
      [Entry(lo, lo + Size(ps.key))] + PairIds(lo + Size(ps.key) + Size(ps.value), ps.tail)
  }

  // The arena of a tree in pre-order: its root at `lo`, each subtree in a range of its own behind it.
  function Stored(lo: nat, t: Grammar.Tree): (r: seq<Bone>)
    requires WellFormed(t)
    ensures |r| == Size(t)
    decreases t
  {
    match t
    case Leaf(e) => [BoneOf(e)]
    case Sequence(e, items) =>
      [BoneOf(e).(kind := Kind.Sequence(e.structure, Ids(lo + 1, items)))] + StoredAll(lo + 1, items)
    case Mapping(e, pairs) =>
      [BoneOf(e).(kind := Kind.Mapping(e.structure, PairIds(lo + 1, pairs)))] + StoredPairs(lo + 1, pairs)
  }

  function StoredAll(lo: nat, ts: Trees): (r: seq<Bone>)
    requires AllWellFormed(ts)
    ensures |r| == SizeAll(ts)
    decreases ts
  {
    if ts.NoTrees? then [] else Stored(lo, ts.head) + StoredAll(lo + Size(ts.head), ts.tail)
  }

  function StoredPairs(lo: nat, ps: TreePairs): (r: seq<Bone>)
    requires PairsWellFormed(ps)
    ensures |r| == SizePairs(ps)
    decreases ps
  {
    if ps.NoPairs? then []
    else
      var v := lo + Size(ps.key);
      Stored(lo, ps.key) + (Stored(v, ps.value) + StoredPairs(v + Size(ps.value), ps.tail))
  }

  // ------------------------------------------------------------------ loading a tree builds its arena

  // Every open collection has its node in the arena.
  predicate Rooted(s: Shape) {
    forall i | 0 <= i < |s.stack| :: s.stack[i].node < |s.tree.bones|
  }

  function Appended(s: Shape, bs: seq<Bone>): Shape {
    s.(tree := s.tree.(bones := s.tree.bones + bs))
  }

  function Top(s: Shape): Frame
    requires s.stack != []
  {
    s.stack[|s.stack| - 1]
  }

  function Retopped(s: Shape, f: Frame): Shape
    requires s.stack != []
  {
    s.(stack := s.stack[|s.stack| - 1 := f])
  }

  lemma FedCons(s: Shape, e: Event, more: seq<Event>, region: bool)
    ensures FedAll(s, [e] + more, region) == FedAll(Fed(s, e, region), more, region)
  {
    assert ([e] + more)[1..] == more;
  }

  // A finished subtree has been appended and filed.
  function After(s: Shape, t: Grammar.Tree): Shape
    requires WellFormed(t)
  {
    var lo := |s.tree.bones|;
    Placed(Appended(s, Stored(lo, t)), lo)
  }

  lemma AfterRooted(s: Shape, t: Grammar.Tree)
    requires WellFormed(t) && Rooted(s)
    ensures Rooted(After(s, t))
    ensures |After(s, t).tree.bones| == |s.tree.bones| + Size(t)
    ensures |After(s, t).stack| == |s.stack| && After(s, t).done == s.done
    ensures s.stack != [] ==>
              After(s, t) == Retopped(Appended(s, Stored(|s.tree.bones|, t)),
                                      Filed(Top(s), IsSequence(s, Top(s).node), |s.tree.bones|))
  {
  }

  lemma LeafLoads(s: Shape, e: Event, region: bool)
    requires e.Alias? || e.Scalar?
    ensures Fed(s, e, region) == After(s, Leaf(e))
  {
    assert s.tree.bones + [BoneOf(e)] == s.tree.bones + Stored(|s.tree.bones|, Leaf(e));
  }

  lemma OpenRooted(s: Shape, b: Bone)
    requires Rooted(s)
    ensures var open := Opened(s, b); Rooted(open) && open.stack != [] && Top(open).pendingKey == None
    ensures b.kind.Sequence? ==> IsSequence(Opened(s, b), Top(Opened(s, b)).node)
    ensures b.kind.Mapping? ==> IsMapping(Opened(s, b), Top(Opened(s, b)).node)
  {
  }

  lemma {:induction false} TreeLoads(s: Shape, t: Grammar.Tree, more: seq<Event>, region: bool)
    requires WellFormed(t) && Rooted(s)
    ensures FedAll(s, Spell(t) + more, region) == FedAll(After(s, t), more, region)
    decreases t
  {
    hide FedAll, After, Stored, Opened, BoneOf, Closed, Itemed, Paired;
    match t
    case Leaf(e) =>
      FedCons(s, e, more, region);
      LeafLoads(s, e, region);
    case Sequence(e, items) =>
      assert Spell(t) + more == [e] + (SpellItems(items) + more);
      FedCons(s, e, SpellItems(items) + more, region);
      OpenRooted(s, BoneOf(e));
      OpensBone(e);
      ItemsLoad(Opened(s, BoneOf(e)), items, more, region);
      SequenceCloses(s, t);
    case Mapping(e, pairs) =>
      assert Spell(t) + more == [e] + (SpellPairs(pairs) + more);
      FedCons(s, e, SpellPairs(pairs) + more, region);
      OpenRooted(s, BoneOf(e));
      OpensBone(e);
      PairsLoad(Opened(s, BoneOf(e)), pairs, more, region);
      MappingCloses(s, t);
  }

  lemma OpensBone(e: Event)
    requires e.SequenceStart? || e.MappingStart?
    ensures if e.SequenceStart? then BoneOf(e).kind.Sequence? else BoneOf(e).kind.Mapping?
  {
  }

  lemma NothingAdded(s: Shape)
    requires s.stack != []
    ensures Itemed(s, NoTrees) == s && Paired(s, NoPairs) == s
  {
    assert s.tree.bones + [] == s.tree.bones;
    assert Top(s).items + [] == Top(s).items;
    assert Top(s).entries + [] == Top(s).entries;
  }

  // Appending and filing again.
  lemma AppendedTwice(s: Shape, a: seq<Bone>, f: Frame, b: seq<Bone>, g: Frame)
    requires s.stack != []
    ensures Retopped(Appended(s, a), f).stack != []
    ensures Retopped(Appended(Retopped(Appended(s, a), f), b), g) == Retopped(Appended(s, a + b), g)
    ensures Top(Retopped(Appended(s, a), f)) == f
    ensures Retopped(Appended(s, a), f).tree.bones == s.tree.bones + a
  {
    assert s.tree.bones + a + b == s.tree.bones + (a + b);
  }

  // What is in the arena and on the stack once the items behind an opened sequence are loaded.
  function Itemed(s: Shape, ts: Trees): Shape
    requires AllWellFormed(ts) && s.stack != []
  {
    var lo := |s.tree.bones|;
    Retopped(Appended(s, StoredAll(lo, ts)), Top(s).(items := Top(s).items + Ids(lo, ts)))
  }

  lemma {:induction false} ItemsLoad(s: Shape, ts: Trees, more: seq<Event>, region: bool)
    requires AllWellFormed(ts) && Rooted(s) && s.stack != [] && IsSequence(s, Top(s).node)
    ensures FedAll(s, SpellItems(ts) + more, region) == FedAll(Closed(Itemed(s, ts)), more, region)
    decreases ts
  {
    if ts.NoTrees? {
      FedCons(s, SequenceEnd, more, region);
      NothingAdded(s);
    } else {
      var lo := |s.tree.bones|;
      assert SpellItems(ts) + more == Spell(ts.head) + (SpellItems(ts.tail) + more);
      TreeLoads(s, ts.head, SpellItems(ts.tail) + more, region);
      var next := After(s, ts.head);
      AfterRooted(s, ts.head);
      ItemsLoad(next, ts.tail, more, region);
      ItemedCons(s, ts);
    }
  }

  lemma ItemedCons(s: Shape, ts: Trees)
    requires AllWellFormed(ts) && ts.Trees? && Rooted(s) && s.stack != [] && IsSequence(s, Top(s).node)
    ensures var next := After(s, ts.head);
            && next.stack != [] && Itemed(next, ts.tail) == Itemed(s, ts)
            && IsSequence(next, Top(next).node)
  {
    hide After, Retopped, Appended, Stored, Rooted, StoredAll, Ids, Top;
    var lo := |s.tree.bones|;
    var a, b := Stored(lo, ts.head), StoredAll(lo + Size(ts.head), ts.tail);
    var f := Top(s).(items := Top(s).items + [lo]);
    var g := Top(s).(items := Top(s).items + Ids(lo, ts));
    ItemFiled(s, ts.head);
    AppendedTwice(s, a, f, b, g);
    ItemsSplit(lo, ts, Top(s).items);
  }

  lemma ItemFiled(s: Shape, t: Grammar.Tree)
    requires WellFormed(t) && Rooted(s) && s.stack != [] && IsSequence(s, Top(s).node)
    ensures var lo, n := |s.tree.bones|, After(s, t);
            && n == Retopped(Appended(s, Stored(lo, t)), Top(s).(items := Top(s).items + [lo]))
            && n.stack != [] && IsSequence(n, Top(n).node) && |n.tree.bones| == lo + Size(t)
  {
    hide Stored;
    AfterRooted(s, t);
  }

  lemma ItemsSplit(lo: nat, ts: Trees, before: seq<nat>)
    requires AllWellFormed(ts) && ts.Trees?
    ensures Stored(lo, ts.head) + StoredAll(lo + Size(ts.head), ts.tail) == StoredAll(lo, ts)
    ensures before + [lo] + Ids(lo + Size(ts.head), ts.tail) == before + Ids(lo, ts)
  {
    hide Stored;
  }

  lemma SequenceCloses(s: Shape, t: Grammar.Tree)
    requires WellFormed(t) && t.Sequence? && Rooted(s)
    ensures Closed(Itemed(Opened(s, BoneOf(t.start)), t.items)) == After(s, t)
  {
    var lo := |s.tree.bones|;
    var open := Opened(s, BoneOf(t.start));
    var full := Itemed(open, t.items);
    assert full.stack[..|s.stack|] == s.stack;
    assert [] + Ids(lo + 1, t.items) == Ids(lo + 1, t.items);
    assert full.tree.bones[lo := Stored(lo, t)[0]] == s.tree.bones + Stored(lo, t);
  }

  // The same for the pairs behind an opened mapping.
  function Paired(s: Shape, ps: TreePairs): Shape
    requires PairsWellFormed(ps) && s.stack != []
  {
    var lo := |s.tree.bones|;
    Retopped(Appended(s, StoredPairs(lo, ps)), Top(s).(entries := Top(s).entries + PairIds(lo, ps)))
  }

  predicate IsMapping(s: Shape, id: nat) {
    id < |s.tree.bones| && s.tree.bones[id].kind.Mapping?
  }

  lemma {:induction false} PairsLoad(s: Shape, ps: TreePairs, more: seq<Event>, region: bool)
    requires PairsWellFormed(ps) && Rooted(s) && s.stack != [] && IsMapping(s, Top(s).node) && Top(s).pendingKey == None
    ensures FedAll(s, SpellPairs(ps) + more, region) == FedAll(Closed(Paired(s, ps)), more, region)
    decreases ps
  {
    if ps.NoPairs? {
      FedCons(s, MappingEnd, more, region);
      NothingAdded(s);
    } else {
      var rest := SpellPairs(ps.tail) + more;
      assert SpellPairs(ps) + more == Spell(ps.key) + (Spell(ps.value) + rest);
      TreeLoads(s, ps.key, Spell(ps.value) + rest, region);
      AfterRooted(s, ps.key);
      var k := After(s, ps.key);
      TreeLoads(k, ps.value, rest, region);
      AfterRooted(k, ps.value);
      PairedCons(s, ps);
      PairsLoad(After(k, ps.value), ps.tail, more, region);
    }
  }

  // Filing a subtree as a key, or as the value of the key before it.
  lemma HalfFiled(s: Shape, t: Grammar.Tree)
    requires WellFormed(t) && Rooted(s) && s.stack != [] && IsMapping(s, Top(s).node)
    ensures var lo, n := |s.tree.bones|, After(s, t);
            && n == Retopped(Appended(s, Stored(lo, t)), Filed(Top(s), false, lo))
            && n.stack != [] && Top(n) == Filed(Top(s), false, lo) && IsMapping(n, Top(n).node) && Rooted(n)
            && |n.tree.bones| == lo + Size(t)
  {
    hide Stored;
    AfterRooted(s, t);
  }

  lemma PairedCons(s: Shape, ps: TreePairs)
    requires PairsWellFormed(ps) && ps.TreePairs? && Rooted(s) && s.stack != []
    requires IsMapping(s, Top(s).node) && Top(s).pendingKey == None
    ensures var v := After(After(s, ps.key), ps.value);
            && v.stack != [] && Paired(v, ps.tail) == Paired(s, ps)
            && IsMapping(v, Top(v).node) && Top(v).pendingKey == None && Rooted(v)
  {
    hide After, Retopped, Appended, Stored, Rooted, IsMapping, Top, Paired;
    var lo := |s.tree.bones|;
    var at := lo + Size(ps.key);
    var a, b := Stored(lo, ps.key), Stored(at, ps.value);
    var f := Filed(Top(s), false, lo);
    HalfFiled(s, ps.key);
    HalfFiled(After(s, ps.key), ps.value);
    AppendedTwice(s, a, f, b, Filed(f, false, at));
    PairsFollow(s, ps, After(After(s, ps.key), ps.value));
  }

  lemma PairsFollow(s: Shape, ps: TreePairs, v: Shape)
    requires PairsWellFormed(ps) && ps.TreePairs? && s.stack != [] && Top(s).pendingKey == None && v.stack != []
    requires var lo, at := |s.tree.bones|, |s.tree.bones| + Size(ps.key);
             v == Retopped(Appended(s, Stored(lo, ps.key) + Stored(at, ps.value)), Filed(Filed(Top(s), false, lo), false, at))
    ensures Paired(v, ps.tail) == Paired(s, ps)
  {
    hide Retopped, Appended, Stored, Top, StoredPairs, PairIds;
    var lo := |s.tree.bones|;
    var at := lo + Size(ps.key);
    var ab, rest := Stored(lo, ps.key) + Stored(at, ps.value), StoredPairs(at + Size(ps.value), ps.tail);
    var g := Filed(Filed(Top(s), false, lo), false, at);
    var h := Top(s).(entries := Top(s).entries + PairIds(lo, ps));
    AppendedTwice(s, ab, g, rest, h);
    PairsSplit(lo, ps, Top(s).entries);
  }

  lemma PairsSplit(lo: nat, ps: TreePairs, before: seq<Entry>)
    requires PairsWellFormed(ps) && ps.TreePairs?
    ensures var at := lo + Size(ps.key);
            && Stored(lo, ps.key) + Stored(at, ps.value) + StoredPairs(at + Size(ps.value), ps.tail) == StoredPairs(lo, ps)
            && before + [Entry(lo, at)] + PairIds(at + Size(ps.value), ps.tail) == before + PairIds(lo, ps)
  {
    hide Stored;
    var at := lo + Size(ps.key);
    var a, b, c := Stored(lo, ps.key), Stored(at, ps.value), StoredPairs(at + Size(ps.value), ps.tail);
    assert a + b + c == a + (b + c);
  }

  lemma MappingCloses(s: Shape, t: Grammar.Tree)
    requires WellFormed(t) && t.Mapping? && Rooted(s)
    ensures Closed(Paired(Opened(s, BoneOf(t.start)), t.pairs)) == After(s, t)
  {
    var lo := |s.tree.bones|;
    var open := Opened(s, BoneOf(t.start));
    var full := Paired(open, t.pairs);
    assert full.stack[..|s.stack|] == s.stack;
    assert [] + PairIds(lo + 1, t.pairs) == PairIds(lo + 1, t.pairs);
    assert full.tree.bones[lo := Stored(lo, t)[0]] == s.tree.bones + Stored(lo, t);
  }

  // ------------------------------------------------------------------ documents

  // What a stream of documents loads as.
  function Loaded(docs: seq<Doc>): seq<Tree>
    requires DocsWellFormed(docs)
    decreases |docs|
  {
    if docs == [] then [] else [Tree(Some(0), Stored(0, docs[0].root))] + Loaded(docs[1..])
  }

  const Empty := Shape(NoTree, [], [])

  lemma {:induction false} DocsLoad(done: seq<Tree>, docs: seq<Doc>, region: bool)
    requires DocsWellFormed(docs)
    ensures FedAll(Shape(NoTree, [], done), SpellDocs(docs), region).done ==
            done + Loaded(docs) + if region || done + Loaded(docs) == [] then [NoTree] else []
    decreases |docs|
  {
    hide FedAll;
    if docs == [] {
      EndLoads(done, region);
    } else {
      var tree := Tree(Some(0), Stored(0, docs[0].root));
      DocLoads(done, docs, region);
      assert Loaded(docs) == [tree] + Loaded(docs[1..]);
      hide Loaded, Stored, SpellDocs;
      DocsLoad(done + [tree], docs[1..], region);
      DoneFirst(done, tree, Loaded(docs[1..]));
    }
  }

  lemma DoneFirst(done: seq<Tree>, tree: Tree, rest: seq<Tree>)
    ensures done + [tree] + rest == done + ([tree] + rest)
  {
  }

  lemma EndLoads(done: seq<Tree>, region: bool)
    ensures FedAll(Shape(NoTree, [], done), [Event.StreamEnd], region).done ==
            done + [] + if region || done + [] == [] then [NoTree] else []
  {
    FedCons(Shape(NoTree, [], done), Event.StreamEnd, [], region);
    assert [Event.StreamEnd] + [] == [Event.StreamEnd];
    assert done + [] == done;
  }

  lemma DocLoads(done: seq<Tree>, docs: seq<Doc>, region: bool)
    requires docs != [] && docs[0].start.DocumentStart? && WellFormed(docs[0].root)
    ensures FedAll(Shape(NoTree, [], done), SpellDocs(docs), region) ==
            FedAll(Shape(NoTree, [], done + [Tree(Some(0), Stored(0, docs[0].root))]), SpellDocs(docs[1..]), region)
  {
    hide FedAll, Stored, Spell;
    var s := Shape(NoTree, [], done);
    var d := docs[0];
    var tree := Tree(Some(0), Stored(0, d.root));
    var rest := SpellDocs(docs[1..]);
    assert SpellDocs(docs) == [d.start] + (Spell(d.root) + ([Event.DocumentEnd] + rest));
    FedCons(s, d.start, Spell(d.root) + ([Event.DocumentEnd] + rest), region);
    TreeLoads(s, d.root, [Event.DocumentEnd] + rest, region);
    assert [] + Stored(0, d.root) == Stored(0, d.root);
    FedCons(Shape(tree, [], done), Event.DocumentEnd, rest, region);
  }

  // Loading a well-formed stream gives one tree a document: ids in pre-order, each subtree in a
  // range of its own. Only a stream without any, or with lines no document can keep, gets one more.
  lemma StreamLoads(docs: seq<Doc>, region: bool)
    requires DocsWellFormed(docs)
    ensures FedAll(Empty, SpellStream(docs), region).done ==
            Loaded(docs) + if region || docs == [] then [NoTree] else []
  {
    FedCons(Empty, Event.StreamStart, SpellDocs(docs), region);
    DocsLoad([], docs, region);
    assert [] + Loaded(docs) == Loaded(docs);
  }

  // ------------------------------------------------------------------ walking the arena

  datatype Mark = Enter(bone: Bone) | Leave

  // A node without its children.
  function Bare(b: Bone): Bone {
    match b.kind
    case Sequence(structure, _) => b.(kind := Kind.Sequence(structure, []))
    case Mapping(structure, _) => b.(kind := Kind.Mapping(structure, []))
    case _ => b
  }

  // The nodes below `id`, each entered before and left behind its children.
  function Walk(bones: seq<Bone>, id: nat): seq<Mark>
    decreases |bones| - id, 1, 0
  {
    if id >= |bones| then []
    else if bones[id].IsCollection() then
      [Enter(Bare(bones[id]))] + WalkAll(bones, id, bones[id].Children()) + [Leave]
    else [Enter(bones[id])]
  }

  function WalkAll(bones: seq<Bone>, above: nat, ids: seq<nat>): seq<Mark>
    decreases |bones| - above, 0, |ids|
  {
    if ids == [] then []
    else (if above < ids[0] < |bones| then Walk(bones, ids[0]) else []) + WalkAll(bones, above, ids[1..])
  }

  function MarkOf(e: Event): seq<Mark> {
    if IsNodeEvent(e) then [Enter(BoneOf(e))] else if e.SequenceEnd? || e.MappingEnd? then [Leave] else []
  }

  function Marks(events: seq<Event>): seq<Mark> {
    if events == [] then [] else MarkOf(events[0]) + Marks(events[1..])
  }

  lemma {:induction false} MarksJoin(a: seq<Event>, b: seq<Event>)
    ensures Marks(a + b) == Marks(a) + Marks(b)
    decreases |a|
  {
    if a == [] {
      assert a + b == b;
    } else {
      assert (a + b)[1..] == a[1..] + b;
      MarksJoin(a[1..], b);
    }
  }

  // `bs` stands in the arena at `lo`.
  predicate Holds(bones: seq<Bone>, lo: nat, bs: seq<Bone>) {
    lo + |bs| <= |bones| && bones[lo..lo + |bs|] == bs
  }

  lemma HoldsParts(bones: seq<Bone>, lo: nat, a: seq<Bone>, b: seq<Bone>)
    requires Holds(bones, lo, a + b)
    ensures Holds(bones, lo, a) && Holds(bones, lo + |a|, b)
  {
    assert bones[lo..lo + |a|] == bones[lo..lo + |a + b|][..|a|];
    assert bones[lo + |a|..lo + |a| + |b|] == bones[lo..lo + |a + b|][|a|..];
  }

  lemma HoldsFirst(bones: seq<Bone>, lo: nat, b: Bone, rest: seq<Bone>)
    requires Holds(bones, lo, [b] + rest)
    ensures lo < |bones| && bones[lo] == b && Holds(bones, lo + 1, rest)
  {
    HoldsParts(bones, lo, [b], rest);
    assert bones[lo..lo + 1][0] == bones[lo];
  }

  lemma {:induction false} TreeWalks(bones: seq<Bone>, lo: nat, t: Grammar.Tree)
    requires WellFormed(t) && Holds(bones, lo, Stored(lo, t))
    ensures lo < |bones| && Walk(bones, lo) == Marks(Spell(t))
    decreases t
  {
    hide Walk, WalkAll, Marks, Holds;
    match t
    case Leaf(e) =>
      LeafWalks(bones, lo, e);
    case Sequence(e, items) =>
      var b := BoneOf(e).(kind := Kind.Sequence(e.structure, Ids(lo + 1, items)));
      HoldsFirst(bones, lo, b, StoredAll(lo + 1, items));
      ItemsWalk(bones, lo, lo + 1, items);
      CollectionWalks(bones, lo, b, e, SpellItems(items));
    case Mapping(e, pairs) =>
      var b := BoneOf(e).(kind := Kind.Mapping(e.structure, PairIds(lo + 1, pairs)));
      HoldsFirst(bones, lo, b, StoredPairs(lo + 1, pairs));
      PairsWalk(bones, lo, lo + 1, pairs);
      CollectionWalks(bones, lo, b, e, SpellPairs(pairs));
  }

  lemma LeafWalks(bones: seq<Bone>, lo: nat, e: Event)
    requires (e.Alias? || e.Scalar?) && Holds(bones, lo, [BoneOf(e)])
    ensures lo < |bones| && Walk(bones, lo) == Marks([e])
  {
    HoldsFirst(bones, lo, BoneOf(e), []);
  }

  lemma CollectionWalks(bones: seq<Bone>, lo: nat, b: Bone, e: Event, inside: seq<Event>)
    requires lo < |bones| && bones[lo] == b && b.IsCollection() && IsNodeEvent(e) && Bare(b) == BoneOf(e)
    requires WalkAll(bones, lo, b.Children()) + [Leave] == Marks(inside)
    ensures Walk(bones, lo) == Marks([e] + inside)
  {
    hide WalkAll;
    assert ([e] + inside)[1..] == inside;
    assert [Enter(Bare(b))] + WalkAll(bones, lo, b.Children()) + [Leave]
        == [Enter(Bare(b))] + (WalkAll(bones, lo, b.Children()) + [Leave]);
  }

  lemma {:induction false} ItemsWalk(bones: seq<Bone>, above: nat, lo: nat, ts: Trees)
    requires AllWellFormed(ts) && above < lo && Holds(bones, lo, StoredAll(lo, ts))
    ensures WalkAll(bones, above, Ids(lo, ts)) + [Leave] == Marks(SpellItems(ts))
    decreases ts
  {
    hide Walk, Marks, Spell, Stored, Holds;
    if ts.Trees? {
      var next := lo + Size(ts.head);
      HoldsParts(bones, lo, Stored(lo, ts.head), StoredAll(next, ts.tail));
      TreeWalks(bones, lo, ts.head);
      ItemsWalk(bones, above, next, ts.tail);
      MarksJoin(Spell(ts.head), SpellItems(ts.tail));
      WalkCons(bones, above, lo, Ids(next, ts.tail));
    } else {
      MarkEnds();
    }
  }

  lemma {:induction false} PairsWalk(bones: seq<Bone>, above: nat, lo: nat, ps: TreePairs)
    requires PairsWellFormed(ps) && above < lo && Holds(bones, lo, StoredPairs(lo, ps))
    ensures WalkAll(bones, above, EntryIds(PairIds(lo, ps))) + [Leave] == Marks(SpellPairs(ps))
    decreases ps
  {
    hide Walk, WalkAll, Marks, Spell, Stored, Holds, EntryIds;
    if ps.TreePairs? {
      var at := lo + Size(ps.key);
      var next := at + Size(ps.value);
      var a, b, c := Stored(lo, ps.key), Stored(at, ps.value), StoredPairs(next, ps.tail);
      HoldsParts(bones, lo, a, b + c);
      HoldsParts(bones, at, b, c);
      TreeWalks(bones, lo, ps.key);
      TreeWalks(bones, at, ps.value);
      PairsWalk(bones, above, next, ps.tail);
      PairWalks(bones, above, lo, at, EntryIds(PairIds(next, ps.tail)), Spell(ps.key), Spell(ps.value), SpellPairs(ps.tail));
      EntryIdsCons(Entry(lo, at), PairIds(next, ps.tail));
    } else {
      NoneWalk(bones, above);
    }
  }

  lemma NoneWalk(bones: seq<Bone>, above: nat)
    ensures WalkAll(bones, above, EntryIds([])) + [Leave] == Marks([MappingEnd])
  {
    MarkEnds();
  }

  lemma EntryIdsCons(e: Entry, rest: seq<Entry>)
    ensures EntryIds([e] + rest) == [e.key] + ([e.value] + EntryIds(rest))
  {
    assert ([e] + rest)[1..] == rest;
  }

  lemma PairWalks(bones: seq<Bone>, above: nat, k: nat, v: nat, ids: seq<nat>,
                  key: seq<Event>, value: seq<Event>, rest: seq<Event>)
    requires above < k < |bones| && above < v < |bones| && Walk(bones, k) == Marks(key) && Walk(bones, v) == Marks(value)
    requires WalkAll(bones, above, ids) + [Leave] == Marks(rest)
    ensures WalkAll(bones, above, [k] + ([v] + ids)) + [Leave] == Marks(key + value + rest)
  {
    hide Walk, WalkAll, Marks;
    WalkCons(bones, above, k, [v] + ids);
    WalkCons(bones, above, v, ids);
    MarksJoin(key + value, rest);
    MarksJoin(key, value);
    assert Marks(key) + (Marks(value) + WalkAll(bones, above, ids)) + [Leave]
        == Marks(key) + Marks(value) + (WalkAll(bones, above, ids) + [Leave]);
  }

  lemma WalkCons(bones: seq<Bone>, above: nat, id: nat, ids: seq<nat>)
    requires above < id < |bones|
    ensures WalkAll(bones, above, [id] + ids) == Walk(bones, id) + WalkAll(bones, above, ids)
  {
    assert ([id] + ids)[1..] == ids;
  }

  lemma MarkEnds()
    ensures Marks([MappingEnd]) == Marks([SequenceEnd]) == [Leave]
  {
  }

  lemma {:induction false} LoadedAt(docs: seq<Doc>, i: nat)
    requires DocsWellFormed(docs) && i < |docs|
    ensures |Loaded(docs)| == |docs| && Loaded(docs)[i] == Tree(Some(0), Stored(0, docs[i].root))
    decreases |docs|
  {
    if |docs| > 1 { LoadedAt(docs[1..], if i > 0 then i - 1 else 0); }
  }

  // Walking a loaded document from its root gives its events back: kinds, anchors, alias names.
  lemma DocumentWalks(docs: seq<Doc>, i: nat)
    requires DocsWellFormed(docs) && i < |docs|
    ensures |Loaded(docs)| == |docs|
    ensures var tree := Loaded(docs)[i]; tree.root == Some(0) && Walk(tree.bones, 0) == Marks(Spell(docs[i].root))
  {
    LoadedAt(docs, i);
    var bones := Stored(0, docs[i].root);
    assert bones[0..0 + |bones|] == bones;
    TreeWalks(bones, 0, docs[i].root);
  }

  // ------------------------------------------------------------------ what the stack of frames owes

  datatype Phase = Start | Between | Inside | Over

  function PhaseAfter(p: Phase, e: Event): Phase {
    match e
    case StreamStart => Between
    case DocumentStart(_) => Inside
    case DocumentEnd => Between
    case StreamEnd => Over
    case _ => p
  }

  // What an open collection is owed: a mapping also a value, once it has the key, or while the
  // key is being read.
  function FrameDue(s: Shape, f: Frame, top: bool): seq<Goal> {
    if IsSequence(s, f.node) then [Items]
    else if f.pendingKey.Some? == top then [Pairs, Node]
    else [Pairs]
  }

  // Frames `fs` below others.
  function Below(s: Shape, fs: seq<Frame>): seq<Goal>
    decreases |fs|
  {
    if fs == [] then [] else Below(s, fs[..|fs| - 1]) + FrameDue(s, fs[|fs| - 1], false)
  }

  function Owes(s: Shape, p: Phase): seq<Goal> {
    match p
    case Start => [WholeStream]
    case Between => [Documents]
    case Over => []
    case Inside => [Documents, DocumentTail] + Inner(s)
  }

  // Frames are collections of the arena, and there is no root before the last of them closes.
  predicate Sound(s: Shape, p: Phase) {
    && (forall i | 0 <= i < |s.stack| :: IsSequence(s, s.stack[i].node) || IsMapping(s, s.stack[i].node))
    && (s.stack != [] ==> p.Inside? && s.tree.root.None?)
    && (!p.Inside? ==> s.tree == NoTree)
  }

  // Filing a node pays for it.
  lemma PlacedPays(s: Shape, id: nat, goals: seq<Goal>)
    requires Sound(s, Inside) && (s.stack == [] ==> s.tree.root.None?)
    requires goals == (if s.stack == [] then [] else Below(s, s.stack[..|s.stack| - 1]) + FrameDue(s, Top(s), false))
    ensures Sound(Placed(s, id), Inside) && Owes(Placed(s, id), Inside) == [Documents, DocumentTail] + goals
  {
    hide Below, FrameDue, Filed, Sound;
    PlacedSound(s, id);
    if s.stack != [] {
      var k := |s.stack| - 1;
      var n := Placed(s, id);
      assert n.stack[..k] == s.stack[..k];
      BelowSame(s, n, s.stack[..k]);
      FiledDue(s, n, s.stack[k], id);
    }
  }

  lemma {:induction false} FiledDue(s: Shape, n: Shape, f: Frame, id: nat)
    requires n.tree == s.tree
    ensures FrameDue(n, Filed(f, IsSequence(s, f.node), id), true) == FrameDue(s, f, false)
  {
  }

  lemma {:induction false} PlacedSound(s: Shape, id: nat)
    requires Sound(s, Inside)
    ensures Sound(Placed(s, id), Inside)
  {
  }

  // What frames owe depends on the kinds of their nodes only.
  lemma {:induction false} BelowSame(s: Shape, n: Shape, fs: seq<Frame>)
    requires forall i | 0 <= i < |fs| :: IsSequence(s, fs[i].node) == IsSequence(n, fs[i].node)
    ensures Below(s, fs) == Below(n, fs)
    decreases |fs|
  {
    if fs != [] {
      var below := fs[..|fs| - 1];
      assert fs[|fs| - 1] == fs[|fs| - 1];
      BelowSame(s, n, below);
    }
  }

  // What the frames owe, innermost last; the whole document's end is owed below.
  function Inner(s: Shape): seq<Goal> {
    if s.stack == [] then if s.tree.root.None? then [Node] else []
    else Below(s, s.stack[..|s.stack| - 1]) + FrameDue(s, Top(s), true)
  }

  // What the innermost frame expects.
  lemma TopExpects(s: Shape, e: Event)
    requires Sound(s, Inside) && Advance(Owes(s, Inside), e).Some? && !e.DocumentEnd?
    ensures e.SequenceEnd? ==> s.stack != [] && IsSequence(s, Top(s).node)
    ensures e.MappingEnd? ==> s.stack != [] && IsMapping(s, Top(s).node) && Top(s).pendingKey.None?
    ensures e.SequenceEnd? || e.MappingEnd? || IsNodeEvent(e)
    ensures e.SequenceEnd? || e.MappingEnd? ==>
              Advance(Owes(s, Inside), e) == Some([Documents, DocumentTail] + Below(s, s.stack[..|s.stack| - 1]))
    ensures IsNodeEvent(e) ==> (s.stack == [] ==> s.tree.root.None?)
    ensures IsNodeEvent(e) ==> Advance(Owes(s, Inside), e) == OpenNode([Documents, DocumentTail] + Behind(s), e)
  {
    if s.stack == [] {
      assert [Documents, DocumentTail] + [] == [Documents, DocumentTail];
      assert [Documents, DocumentTail] + [Node] == [Documents, DocumentTail, Node];
      NodePlaces([Documents, DocumentTail], e);
    } else {
      var below := [Documents, DocumentTail] + Below(s, s.stack[..|s.stack| - 1]);
      var due := FrameDue(s, Top(s), true);
      Associate([Documents, DocumentTail], Below(s, s.stack[..|s.stack| - 1]), due);
      assert Owes(s, Inside) == below + due;
      AdvanceFrame(below, due, e);
      if IsNodeEvent(e) {
        TopOpens(due, Top(s).pendingKey.Some?, IsSequence(s, Top(s).node), below, e);
        Associate([Documents, DocumentTail], Below(s, s.stack[..|s.stack| - 1]), FrameDue(s, Top(s), false));
      }
    }
  }

  lemma TopOpens(due: seq<Goal>, keyed: bool, sequence: bool, below: seq<Goal>, e: Event)
    requires IsNodeEvent(e) && due == if sequence then [Items] else if keyed then [Pairs, Node] else [Pairs]
    ensures Advance(below + due, e) ==
            OpenNode(below + if sequence then [Items] else if keyed then [Pairs] else [Pairs, Node], e)
  {
    if sequence {
      NodePlaces(below, e);
    } else if keyed {
      assert below + [Pairs, Node] == below + [Pairs] + [Node];
      NodePlaces(below + [Pairs], e);
    } else {
      assert below + [Pairs, Node] == below + [Pairs] + [Node];
      NodePlaces(below, e);
    }
  }

  // What is owed behind a node that has begun.
  function Behind(s: Shape): seq<Goal> {
    if s.stack == [] then [] else Below(s, s.stack[..|s.stack| - 1]) + FrameDue(s, Top(s), false)
  }

  lemma GrownSame(s: Shape, b: Bone)
    requires Sound(s, Inside)
    ensures var n := Grown(s, b);
            && Sound(n, Inside) && Behind(n) == Behind(s)
            && Below(n, n.stack) == Below(s, s.stack)
  {
    var n := Grown(s, b);
    forall i | 0 <= i < |s.stack| ensures IsSequence(s, s.stack[i].node) == IsSequence(n, n.stack[i].node) {
    }
    BelowSame(s, n, s.stack);
    if s.stack != [] {
      BelowSame(s, n, s.stack[..|s.stack| - 1]);
    }
  }

  lemma LeafPays(s: Shape, e: Event, region: bool)
    requires Sound(s, Inside) && (e.Scalar? || e.Alias?) && Advance(Owes(s, Inside), e).Some?
    ensures Sound(Fed(s, e, region), Inside) && Advance(Owes(s, Inside), e) == Some(Owes(Fed(s, e, region), Inside))
  {
    hide Below, Advance, Placed, Owes, Sound;
    TopExpects(s, e);
    GrownSame(s, BoneOf(e));
    PlacedPays(Grown(s, BoneOf(e)), |s.tree.bones|, Behind(s));
  }

  lemma OpenPays(s: Shape, e: Event, region: bool)
    requires Sound(s, Inside) && (e.SequenceStart? || e.MappingStart?) && Advance(Owes(s, Inside), e).Some?
    ensures Sound(Fed(s, e, region), Inside) && Advance(Owes(s, Inside), e) == Some(Owes(Fed(s, e, region), Inside))
  {
    hide Advance, FrameDue, Below, Opened, Sound, BoneOf, Owes;
    TopExpects(s, e);
    OpensBone(e);
    OpenedSound(s, BoneOf(e));
    OpenedOwes(s, BoneOf(e), e);
    assert Fed(s, e, region) == Opened(s, BoneOf(e));
  }

  lemma OpenedSound(s: Shape, b: Bone)
    requires Sound(s, Inside) && b.IsCollection() && (s.stack == [] ==> s.tree.root.None?)
    ensures Sound(Opened(s, b), Inside)
  {
    GrownSame(s, b);
  }

  lemma OpenedOwes(s: Shape, b: Bone, e: Event)
    requires Sound(s, Inside) && (e.SequenceStart? || e.MappingStart?)
    requires if e.SequenceStart? then b.kind.Sequence? else b.kind.Mapping?
    ensures OpenNode([Documents, DocumentTail] + Behind(s), e) == Some(Owes(Opened(s, b), Inside))
  {
    hide FrameDue, Sound;
    GrownSame(s, b);
    var g, n := Grown(s, b), Opened(s, b);
    assert n.stack[..|n.stack| - 1] == s.stack;
    BelowSame(g, n, s.stack);
    NewFrameDue(n, e);
    BelowIs(s);
    Associate([Documents, DocumentTail], Below(s, s.stack), if e.SequenceStart? then [Items] else [Pairs]);
  }

  lemma BelowIs(s: Shape)
    ensures Behind(s) == Below(s, s.stack)
  {
  }

  lemma NewFrameDue(n: Shape, e: Event)
    requires n.stack != [] && Top(n).pendingKey.None?
    requires (e.SequenceStart? && IsSequence(n, Top(n).node)) || (e.MappingStart? && IsMapping(n, Top(n).node))
    ensures FrameDue(n, Top(n), true) == if e.SequenceStart? then [Items] else [Pairs]
  {
  }

  lemma ClosePays(s: Shape, e: Event, region: bool)
    requires Sound(s, Inside) && (e.SequenceEnd? || e.MappingEnd?) && Advance(Owes(s, Inside), e).Some?
    ensures s.stack != [] && (if e.SequenceEnd? then IsSequence(s, Top(s).node) else IsMapping(s, Top(s).node))
    ensures Sound(Fed(s, e, region), Inside) && Advance(Owes(s, Inside), e) == Some(Owes(Fed(s, e, region), Inside))
  {
    hide Advance, Owes, Below, Placed;
    TopExpects(s, e);
    var f := Top(s);
    var b := s.tree.bones[f.node];
    var popped := Shape(s.tree.(bones := s.tree.bones[f.node := Filled(b, f)]), s.stack[..|s.stack| - 1], s.done);
    assert Fed(s, e, region) == Placed(popped, f.node);
    PoppedSame(s, popped, f.node);
    PlacedPays(popped, f.node, Behind(popped));
  }

  lemma PoppedSame(s: Shape, n: Shape, id: nat)
    requires Sound(s, Inside) && s.stack != [] && id < |s.tree.bones| && n.stack == s.stack[..|s.stack| - 1]
    requires n.tree.root == s.tree.root && |n.tree.bones| == |s.tree.bones|
    requires forall i | 0 <= i < |s.tree.bones| ::
               && n.tree.bones[i].kind.Sequence? == s.tree.bones[i].kind.Sequence?
               && n.tree.bones[i].kind.Mapping? == s.tree.bones[i].kind.Mapping?
    ensures Sound(n, Inside) && Behind(n) == Below(s, n.stack)
  {
    BelowSame(s, n, n.stack);
  }

  // Fed a grammatical event, the frames owe what the grammar says is still to come; a collection
  // that ends is the innermost one, and there is one.
  lemma FedPays(s: Shape, p: Phase, e: Event, region: bool)
    requires Sound(s, p) && Advance(Owes(s, p), e).Some?
    ensures Sound(Fed(s, e, region), PhaseAfter(p, e))
    ensures Advance(Owes(s, p), e) == Some(Owes(Fed(s, e, region), PhaseAfter(p, e)))
    ensures e.SequenceEnd? ==> p.Inside? && s.stack != [] && IsSequence(s, Top(s).node)
    ensures e.MappingEnd? ==> p.Inside? && s.stack != [] && IsMapping(s, Top(s).node)
    ensures IsNodeEvent(e) ==> p.Inside? && (s.stack == [] ==> s.tree.root.None?)
    ensures e.StreamStart? ==> p.Start?
    ensures e.DocumentStart? || e.StreamEnd? ==> p.Between?
    ensures e.DocumentEnd? ==> p.Inside? && s.stack == []
  {
    if p.Inside? {
      hide Sound, Owes, Fed, Advance, IsSequence, IsMapping;
      InnerPays(s, e, region);
    } else {
      assert [WholeStream][..0] + [Documents] == [Documents];
      assert [Documents][..0] == [];
      assert [Documents] + [DocumentTail, Node] == [Documents, DocumentTail] + [Node];
    }
  }

  lemma InnerPays(s: Shape, e: Event, region: bool)
    requires Sound(s, Inside) && Advance(Owes(s, Inside), e).Some?
    ensures Sound(Fed(s, e, region), PhaseAfter(Inside, e))
    ensures Advance(Owes(s, Inside), e) == Some(Owes(Fed(s, e, region), PhaseAfter(Inside, e)))
    ensures e.SequenceEnd? ==> s.stack != [] && IsSequence(s, Top(s).node)
    ensures e.MappingEnd? ==> s.stack != [] && IsMapping(s, Top(s).node)
    ensures IsNodeEvent(e) ==> (s.stack == [] ==> s.tree.root.None?)
    ensures !e.StreamStart? && !e.DocumentStart? && !e.StreamEnd?
    ensures e.DocumentEnd? ==> s.stack == []
  {
    if e.DocumentEnd? {
      TailExpects(s, e);
    } else {
      TopExpects(s, e);
      if e.Scalar? || e.Alias? {
        LeafPays(s, e, region);
      } else if IsNodeEvent(e) {
        OpenPays(s, e, region);
      } else {
        ClosePays(s, e, region);
      }
    }
  }

  // A document ends when no collection is open, and only then.
  lemma TailExpects(s: Shape, e: Event)
    requires Sound(s, Inside) && e.DocumentEnd? && (s.stack == [] ==> s.tree.root.Some?)
    ensures Advance(Owes(s, Inside), e) == if s.stack == [] then Some([Documents]) else None
  {
    if s.stack == [] {
      assert [Documents, DocumentTail] + [] == [Documents, DocumentTail];
      assert [Documents, DocumentTail][..1] == [Documents];
    } else {
      var due := FrameDue(s, Top(s), true);
      var below := [Documents, DocumentTail] + Below(s, s.stack[..|s.stack| - 1]);
      Associate([Documents, DocumentTail], Below(s, s.stack[..|s.stack| - 1]), due);
      AdvanceFrame(below, due, e);
    }
  }
}
