// Reading an arena back into objects: a container is bound to its name before it is filled, so that
// an alias inside it finds it (python/yamluna/constructor.py).
module Constructor {
  import opened Results
  import opened ObjectGraph

  datatype ConstructError = UndefinedAlias(name: string) | DuplicateKey(key: string) | UnsupportedKey | OddChildren

  // ------------------------------------------------------------------ what an arena says, read front to back

  // How many containers there are among the first `i` nodes.
  function Rank(nodes: seq<Node>, i: nat): nat
    requires i <= |nodes|
  {
    if i == 0 then 0 else Rank(nodes, i - 1) + if nodes[i - 1].Collection? then 1 else 0
  }

  lemma {:induction false} RankLess(nodes: seq<Node>, i: nat, j: nat)
    requires i < j <= |nodes| && nodes[i].Collection?
    ensures Rank(nodes, i) < Rank(nodes, j)
    decreases j
  {
    if i < j - 1 { RankLess(nodes, i, j - 1); }
  }

  // A node is known by a name if it has one that is not empty.
  function NameGiven(node: Node): Option<string> {
    if node.Collection? && node.anchor != Some("") then node.anchor else None
  }

  // The container a name stands for in front of node `i`: the last one known by it.
  function Latest(nodes: seq<Node>, i: nat, name: string): (r: Option<nat>)
    requires i <= |nodes|
    ensures r.Some? ==> r.value < i && nodes[r.value].Collection? && NameGiven(nodes[r.value]) == Some(name)
  {
    if i == 0 then None
    else if NameGiven(nodes[i - 1]) == Some(name) then Some(i - 1)
    else Latest(nodes, i - 1, name)
  }

  lemma {:induction false} LatestFrom(nodes: seq<Node>, i: nat, name: string, p: nat)
    requires p < i <= |nodes| && NameGiven(nodes[p]) == Some(name)
    ensures Latest(nodes, i, name).Some? && p <= Latest(nodes, i, name).value
    decreases i
  {
    if p < i - 1 { LatestFrom(nodes, i - 1, name, p); }
  }

  // What node `i` is read as, unless it is an alias for nothing.
  function ValueAt(nodes: seq<Node>, i: nat): Option<Value> {
    if i >= |nodes| then None
    else
      match nodes[i]
      case Scalar(text) => Some(Atom(text))
      case Alias(name) => var p := Latest(nodes, i, name); if p.Some? then Some(Ref(Rank(nodes, p.value))) else None
      case Collection(_, _, _) => Some(Ref(Rank(nodes, i)))
  }

  // How many items the container at `p` has, and the nodes of one of them.
  function Size(node: Node): nat
    requires node.Collection?
  {
    if node.isDict then |node.children| / 2 else |node.children|
  }

  function KeyNode(node: Node, i: nat): nat
    requires node.Collection? && node.isDict && 2 * i < |node.children|
  {
    node.children[2 * i]
  }

  function ItemNode(node: Node, i: nat): nat
    requires node.Collection? && i < Size(node)
  {
    if node.isDict then node.children[2 * i + 1] else node.children[i]
  }

  // The object has the first `k` items of the container at `p`.
  predicate Holds(nodes: seq<Node>, p: nat, k: nat, o: Obj) {
    && p < |nodes| && nodes[p].Collection? && k <= Size(nodes[p])
    && o.isDict == nodes[p].isDict && o.anchor == NameGiven(nodes[p])
    && |o.items| == k && |o.keys| == (if o.isDict then k else 0)
    && (forall i | 0 <= i < k :: ValueAt(nodes, ItemNode(nodes[p], i)) == Some(o.items[i]))
    && (o.isDict ==> forall i | 0 <= i < k :: KeyNode(nodes[p], i) < |nodes| && nodes[KeyNode(nodes[p], i)] == Scalar(o.keys[i]))
  }

  // The containers from `lo` to `hi` have been built, with all they hold.
  predicate Built(nodes: seq<Node>, made: seq<Obj>, lo: nat, hi: nat) {
    forall p | lo <= p < hi && p < |nodes| && nodes[p].Collection? ::
      Rank(nodes, p) < |made| && Holds(nodes, p, Size(nodes[p]), made[Rank(nodes, p)])
  }

  // What is wrong with a node: an alias for nothing, or a dict whose children are not pairs, or
  // have keys that are no scalars, or the same one twice.
  predicate Faulty(nodes: seq<Node>, j: nat, e: ConstructError) {
    && j < |nodes|
    && match e
       case UndefinedAlias(name) => nodes[j] == Alias(name) && Latest(nodes, j, name).None?
       case OddChildren => IsDict(nodes[j]) && |nodes[j].children| % 2 == 1
       case UnsupportedKey => IsDict(nodes[j]) && exists i | 0 <= i < Size(nodes[j]) :: !ScalarAt(nodes, KeyNode(nodes[j], i))
       case DuplicateKey(key) =>
         IsDict(nodes[j]) && exists i, k | 0 <= i < k < Size(nodes[j]) :: KeyIs(nodes, nodes[j], i, key) && KeyIs(nodes, nodes[j], k, key)
  }

  predicate IsDict(node: Node) {
    node.Collection? && node.isDict
  }

  predicate ScalarAt(nodes: seq<Node>, i: nat) {
    i < |nodes| && nodes[i].Scalar?
  }

  predicate KeyIs(nodes: seq<Node>, node: Node, i: nat, key: string)
    requires IsDict(node)
  {
    2 * i < |node.children| && KeyNode(node, i) < |nodes| && nodes[KeyNode(node, i)] == Scalar(key)
  }

  // Nothing is wrong with the nodes from `lo` to `hi`.
  ghost predicate AllFine(nodes: seq<Node>, lo: nat, hi: nat) {
    forall j, e | lo <= j < hi :: !Faulty(nodes, j, e)
  }

  ghost predicate Fails(nodes: seq<Node>, lo: nat, hi: nat, e: ConstructError) {
    exists j | lo <= j < hi :: Faulty(nodes, j, e)
  }

  // The names given so far are bound to what has been built for the last containers known by them.
  ghost predicate Bound(nodes: seq<Node>, anchors: map<string, Value>, i: nat)
    requires i <= |nodes|
  {
    forall n :: BoundTo(nodes, anchors, i, n)
  }

  predicate BoundTo(nodes: seq<Node>, anchors: map<string, Value>, i: nat, n: string)
    requires i <= |nodes|
  {
    var p := Latest(nodes, i, n);
    if p.Some? then n in anchors && anchors[n] == Ref(Rank(nodes, p.value)) else n !in anchors
  }

  // ------------------------------------------------------------------ steps

  lemma BoundMore(nodes: seq<Node>, anchors: map<string, Value>, i: nat, next: map<string, Value>, j: nat)
    requires i < |nodes| && j == i + 1 && Bound(nodes, anchors, i)
    requires next == if NameGiven(nodes[i]).Some? then anchors[NameGiven(nodes[i]).value := Ref(Rank(nodes, i))] else anchors
    ensures Bound(nodes, next, j)
  {
    forall n ensures BoundTo(nodes, next, j, n) {
      assert BoundTo(nodes, anchors, i, n);
    }
  }

  // Filling a container leaves those built inside it alone.
  lemma BuiltSet(nodes: seq<Node>, made: seq<Obj>, index: nat, lo: nat, hi: nat, o: Obj)
    requires Built(nodes, made, lo, hi) && index < lo && index < |nodes| && nodes[index].Collection?
    requires Rank(nodes, index) < |made|
    ensures Built(nodes, made[Rank(nodes, index) := o], lo, hi)
  {
    hide Holds;
    forall p | lo <= p < hi && p < |nodes| && nodes[p].Collection? ensures Rank(nodes, p) != Rank(nodes, index) {
      RankLess(nodes, index, p);
    }
  }

  lemma BuiltJoin(nodes: seq<Node>, made: seq<Obj>, more: seq<Obj>, lo: nat, mid: nat, hi: nat)
    requires Built(nodes, made, lo, mid) && made <= more && Built(nodes, more, mid, hi)
    ensures Built(nodes, more, lo, hi)
  {
    hide Holds;
  }

  lemma BuiltWhole(nodes: seq<Node>, made: seq<Obj>, index: nat, hi: nat)
    requires Built(nodes, made, index + 1, hi) && index < |nodes| && nodes[index].Collection?
    requires Rank(nodes, index) < |made| && Holds(nodes, index, Size(nodes[index]), made[Rank(nodes, index)])
    ensures Built(nodes, made, index, hi)
  {
    hide Holds;
  }

  lemma ForestFirst(nodes: seq<Node>, lo: nat, roots: seq<nat>, hi: nat)
    requires Forest(nodes, lo, roots, hi) && roots != []
    ensures var next := if |roots| > 1 then roots[1] else hi;
            && roots[0] == lo < next <= hi && Tree(nodes, lo, next) && Forest(nodes, next, roots[1..], hi)
  {
  }

  lemma NoneLeft(nodes: seq<Node>, lo: nat, hi: nat)
    requires Forest(nodes, lo, [], hi)
    ensures lo == hi
  {
  }

  lemma TreeInside(nodes: seq<Node>, index: nat, hi: nat)
    requires Tree(nodes, index, hi)
    ensures index < hi <= |nodes|
    ensures nodes[index].Collection? ==> Forest(nodes, index + 1, nodes[index].children, hi)
    ensures !nodes[index].Collection? ==> hi == index + 1
  {
  }

  lemma FineJoin(nodes: seq<Node>, lo: nat, mid: nat, hi: nat)
    requires AllFine(nodes, lo, mid) && AllFine(nodes, mid, hi)
    ensures AllFine(nodes, lo, hi)
  {
    hide Faulty;
  }

  lemma FailsIn(nodes: seq<Node>, lo: nat, hi: nat, lo2: nat, hi2: nat, e: ConstructError)
    requires Fails(nodes, lo, hi, e) && lo2 <= lo && hi <= hi2
    ensures Fails(nodes, lo2, hi2, e)
  {
    hide Faulty;
  }

  lemma FailsAt(nodes: seq<Node>, j: nat, hi: nat, e: ConstructError)
    requires Faulty(nodes, j, e) && j < hi
    ensures Fails(nodes, j, hi, e)
  {
    hide Faulty;
  }

  lemma LeafFine(nodes: seq<Node>, j: nat)
    requires j < |nodes| && !nodes[j].Collection? && ValueAt(nodes, j).Some?
    ensures AllFine(nodes, j, j + 1)
  {
  }

  lemma HoldsNothing(nodes: seq<Node>, p: nat)
    requires p < |nodes| && nodes[p].Collection?
    ensures Holds(nodes, p, 0, Obj(nodes[p].isDict, [], [], NameGiven(nodes[p])))
  {
  }

  lemma HoldsItem(nodes: seq<Node>, p: nat, k: nat, o: Obj, v: Value)
    requires Holds(nodes, p, k, o) && !o.isDict && k < Size(nodes[p]) && ValueAt(nodes, ItemNode(nodes[p], k)) == Some(v)
    ensures Holds(nodes, p, k + 1, o.(items := o.items + [v]))
  {
  }

  lemma HoldsEntry(nodes: seq<Node>, p: nat, k: nat, o: Obj, key: string, v: Value)
    requires Holds(nodes, p, k, o) && o.isDict && k < Size(nodes[p]) && ValueAt(nodes, ItemNode(nodes[p], k)) == Some(v)
    requires KeyNode(nodes[p], k) < |nodes| && nodes[KeyNode(nodes[p], k)] == Scalar(key)
    ensures Holds(nodes, p, k + 1, o.(items := o.items + [v], keys := o.keys + [key]))
  {
  }

  // A list has nothing wrong with it of its own.
  lemma ListFine(nodes: seq<Node>, p: nat)
    requires p < |nodes| && nodes[p].Collection? && !nodes[p].isDict
    ensures AllFine(nodes, p, p + 1)
  {
  }

  // Nor a dict of pairs that has been read, whose keys differ.
  lemma DictFine(nodes: seq<Node>, p: nat, o: Obj)
    requires p < |nodes| && IsDict(nodes[p]) && |nodes[p].children| % 2 == 0
    requires Holds(nodes, p, Size(nodes[p]), o) && Distinct(o.keys)
    ensures AllFine(nodes, p, p + 1)
  {
    forall e ensures !Faulty(nodes, p, e) {
      if e.DuplicateKey? {
        forall i, k | 0 <= i < k < Size(nodes[p]) ensures !(KeyIs(nodes, nodes[p], i, e.key) && KeyIs(nodes, nodes[p], k, e.key)) {
          assert o.keys[i] != o.keys[k];
        }
      }
    }
  }

  lemma KeyFaulty(nodes: seq<Node>, p: nat, i: nat)
    requires p < |nodes| && IsDict(nodes[p]) && i < Size(nodes[p]) && !ScalarAt(nodes, KeyNode(nodes[p], i))
    ensures Faulty(nodes, p, UnsupportedKey)
  {
  }

  lemma KeyTwice(nodes: seq<Node>, p: nat, k: nat, o: Obj, key: string)
    requires Holds(nodes, p, k, o) && o.isDict && k < Size(nodes[p]) && key in o.keys
    requires KeyNode(nodes[p], k) < |nodes| && nodes[KeyNode(nodes[p], k)] == Scalar(key)
    ensures Faulty(nodes, p, DuplicateKey(key))
  {
    var i :| 0 <= i < k && o.keys[i] == key;
    assert KeyIs(nodes, nodes[p], i, key) && KeyIs(nodes, nodes[p], k, key);
  }

  class Constructor {
    const nodes: seq<Node>

    // What each name stands for, and the containers built so far.
    var anchors: map<string, Value>
    var made: seq<Obj>

    constructor (nodes: seq<Node>)
      ensures this.nodes == nodes && anchors == map[] && made == []
      ensures UpTo(0)
    {
      this.nodes := nodes;
      anchors, made := map[], [];
    }

    // Everything before node `i` has been built.
    ghost predicate UpTo(i: nat)
      reads this
    {
      i <= |nodes| && |made| == Rank(nodes, i) && Bound(nodes, anchors, i)
    }

    // Reads the subtree at `index`, or finds the fault that is in it.
    method Build(index: nat, ghost hi: nat) returns (r: Result<Value, ConstructError>)
      requires Tree(nodes, index, hi) && UpTo(index)
      modifies this`anchors, this`made
      ensures old(made) <= made
      ensures r.Ok? ==> ValueAt(nodes, index) == Some(r.value) && UpTo(hi) && Built(nodes, made, index, hi) && AllFine(nodes, index, hi)
      ensures r.Err? ==> Fails(nodes, index, hi, r.error)
      decreases hi - index, 1
    {
      hide Built, Rank, AllFine, Fails, Bound, Faulty;
      TreeInside(nodes, index, hi);
      match nodes[index] {
        case Scalar(text) =>
          LeafRead(index);
          r := Ok(Atom(text));
        case Alias(name) =>
          AliasRead(index, name);
          if name !in anchors {
            FailsAt(nodes, index, hi, UndefinedAlias(name));
            return Err(UndefinedAlias(name));
          }
          LeafRead(index);
          r := Ok(anchors[name]);
        case Collection(_, _, _) =>
          r := BuildCollection(index, hi);
      }
    }

    lemma LeafRead(i: nat)
      requires i < |nodes| && UpTo(i) && !nodes[i].Collection? && ValueAt(nodes, i).Some?
      ensures UpTo(i + 1) && Built(nodes, made, i, i + 1) && AllFine(nodes, i, i + 1)
    {
      BoundMore(nodes, anchors, i, anchors, i + 1);
      LeafFine(nodes, i);
    }

    lemma AliasRead(i: nat, name: string)
      requires i < |nodes| && UpTo(i) && nodes[i] == Alias(name)
      ensures if name in anchors then ValueAt(nodes, i) == Some(anchors[name]) else Faulty(nodes, i, UndefinedAlias(name))
    {
      assert BoundTo(nodes, anchors, i, name);
    }

    method BuildCollection(index: nat, ghost hi: nat) returns (r: Result<Value, ConstructError>)
      requires Tree(nodes, index, hi) && UpTo(index) && nodes[index].Collection?
      modifies this`anchors, this`made
      ensures old(made) <= made
      ensures r.Ok? ==> ValueAt(nodes, index) == Some(r.value) && UpTo(hi) && Built(nodes, made, index, hi) && AllFine(nodes, index, hi)
      ensures r.Err? ==> Fails(nodes, index, hi, r.error)
      decreases hi - index, 0
    {
      hide Built, Rank, AllFine, Fails, Bound, Faulty, Holds, Latest;
      var k := |made|;
      Register(index);
      var filled;
      if nodes[index].isDict {
        filled := FillDict(index, k, hi);
      } else {
        filled := FillList(index, k, hi);
      }
      if filled.Err? {
        return Err(filled.error);
      }
      BuiltWhole(nodes, made, index, hi);
      FineJoin(nodes, index, index + 1, hi);
      r := Ok(Ref(k));
    }

    // A new, empty container, bound to its name before anything is put in it.
    method Register(index: nat)
      requires index < |nodes| && UpTo(index) && nodes[index].Collection?
      modifies this`anchors, this`made
      ensures made == old(made) + [Obj(nodes[index].isDict, [], [], NameGiven(nodes[index]))]
      ensures UpTo(index + 1)
    {
      var name := NameGiven(nodes[index]);
      made := made + [Obj(nodes[index].isDict, [], [], name)];
      ghost var before := anchors;
      if name.Some? {
        anchors := anchors[name.value := Ref(|made| - 1)];
      }
      BoundMore(nodes, before, index, anchors, index + 1);
    }

    // The object `k`, built for the container at `index`, has its first `i` items, and all between
    // that container and `lo` has been built.
    ghost predicate Filling(index: nat, k: nat, i: nat, lo: nat)
      reads this
    {
      && index < lo && UpTo(lo) && k < |made| && k == Rank(nodes, index) && Holds(nodes, index, i, made[k])
      && Built(nodes, made, index + 1, lo) && AllFine(nodes, index + 1, lo)
    }

    lemma NothingFilled(index: nat, k: nat)
      requires index < |nodes| && nodes[index].Collection? && UpTo(index + 1) && |made| == k + 1
      requires made[k] == Obj(nodes[index].isDict, [], [], NameGiven(nodes[index]))
      ensures Filling(index, k, 0, index + 1)
    {
      HoldsNothing(nodes, index);
    }

    method FillList(index: nat, k: nat, ghost hi: nat) returns (r: Result<(), ConstructError>)
      requires Tree(nodes, index, hi) && nodes[index].Collection? && !nodes[index].isDict
      requires UpTo(index + 1) && |made| == k + 1 && made[k] == Obj(false, [], [], NameGiven(nodes[index]))
      modifies this`anchors, this`made
      ensures k < |made| && made[..k] == old(made)[..k]
      ensures r.Ok? ==> Filling(index, k, Size(nodes[index]), hi) && AllFine(nodes, index, index + 1)
      ensures r.Err? ==> Fails(nodes, index, hi, r.error)
      decreases hi - index - 1, 3
    {
      hide Filling, UpTo, AllFine, Fails, Forest;
      var children := nodes[index].children;
      TreeInside(nodes, index, hi);
      NothingFilled(index, k);
      ListFine(nodes, index);
      var i: nat := 0;
      ghost var lo := index + 1;
      assert children[0..] == children;
      while i < |children|
        invariant i <= |children| && index < lo <= hi && Forest(nodes, lo, children[i..], hi)
        invariant k < |made| && made[..k] == old(made)[..k] && Filling(index, k, i, lo)
      {
        ForestFirst(nodes, lo, children[i..], hi);
        ghost var next := if i + 1 < |children| then children[i + 1] else hi;
        assert children[i..][1..] == children[i + 1..];
        r := FillItem(index, k, i, lo, next);
        if r.Err? {
          FailsIn(nodes, index, next, index, hi, r.error);
          return;
        }
        lo := next;
        i := i + 1;
      }
      assert children[i..] == [];
      NoneLeft(nodes, lo, hi);
      r := Ok(());
    }

    // One item of a list.
    method FillItem(index: nat, k: nat, i: nat, ghost lo: nat, ghost next: nat) returns (r: Result<(), ConstructError>)
      requires index < |nodes| && nodes[index].Collection? && !nodes[index].isDict && i < |nodes[index].children|
      requires lo == nodes[index].children[i] && Tree(nodes, lo, next) && Filling(index, k, i, lo)
      modifies this`anchors, this`made
      ensures k < |made| && made[..k] == old(made)[..k]
      ensures r.Ok? ==> Filling(index, k, i + 1, next)
      ensures r.Err? ==> Fails(nodes, index, next, r.error)
      decreases next - lo, 2
    {
      hide Built, Rank, AllFine, Fails, Holds, Bound, Tree, ValueAt;
      ghost var before := made;
      TreeShort(nodes, lo, next);
      var child := nodes[index].children[i];
      var v := Build(child, next);
      if v.Err? {
        FailsIn(nodes, lo, next, index, next, v.error);
        return Err(v.error);
      }
      BuiltJoin(nodes, before, made, index + 1, lo, next);
      FineJoin(nodes, index + 1, lo, next);
      HoldsKind(nodes, index, i, made[k]);
      HoldsItem(nodes, index, i, made[k], v.value);
      Put(index, k, i, made[k].(items := made[k].items + [v.value]), next);
      r := Ok(());
    }

    // The object gets one more item.
    method Put(index: nat, k: nat, ghost i: nat, o: Obj, ghost lo: nat)
      requires Filling(index, k, i, lo) && Holds(nodes, index, i + 1, o)
      modifies this`made
      ensures k < |made| && made == old(made)[k := o] && Filling(index, k, i + 1, lo)
    {
      hide Built, Rank, AllFine, Bound;
      BuiltSet(nodes, made, index, index + 1, lo, o);
      made := made[k := o];
    }

    method FillDict(index: nat, k: nat, ghost hi: nat) returns (r: Result<(), ConstructError>)
      requires Tree(nodes, index, hi) && nodes[index].Collection? && nodes[index].isDict
      requires UpTo(index + 1) && |made| == k + 1 && made[k] == Obj(true, [], [], NameGiven(nodes[index]))
      modifies this`anchors, this`made
      ensures k < |made| && made[..k] == old(made)[..k]
      ensures r.Ok? ==> Filling(index, k, Size(nodes[index]), hi) && AllFine(nodes, index, index + 1)
      ensures r.Err? ==> Fails(nodes, index, hi, r.error)
      decreases hi - index - 1, 3
    {
      hide Filling, UpTo, AllFine, Fails, Forest, Holds;
      var children := nodes[index].children;
      TreeInside(nodes, index, hi);
      if |children| % 2 == 1 {
        FailsAt(nodes, index, hi, OddChildren);
        return Err(OddChildren);
      }
      NothingFilled(index, k);
      var i: nat := 0;
      ghost var lo := index + 1;
      assert children[0..] == children;
      while 2 * i < |children|
        invariant 2 * i <= |children| && index < lo <= hi && Forest(nodes, lo, children[2 * i..], hi)
        invariant k < |made| && made[..k] == old(made)[..k] && Filling(index, k, i, lo) && Distinct(made[k].keys)
      {
        ForestFirst(nodes, lo, children[2 * i..], hi);
        assert children[2 * i..][1..] == children[2 * i + 1..];
        ForestFirst(nodes, children[2 * i + 1], children[2 * i + 1..], hi);
        ghost var next := if 2 * i + 2 < |children| then children[2 * i + 2] else hi;
        assert children[2 * i + 1..][1..] == children[2 * (i + 1)..];
        r := FillEntry(index, k, i, lo, next);
        if r.Err? {
          FailsIn(nodes, index, next, index, hi, r.error);
          return;
        }
        lo := next;
        i := i + 1;
      }
      assert children[2 * i..] == [];
      NoneLeft(nodes, lo, hi);
      Filled(index, k, i, lo);
      DictFine(nodes, index, made[k]);
      r := Ok(());
    }

    lemma Filled(index: nat, k: nat, i: nat, lo: nat)
      requires Filling(index, k, i, lo)
      ensures k < |made| && Holds(nodes, index, i, made[k])
    {
    }

    // One entry of a dict.
    method FillEntry(index: nat, k: nat, i: nat, ghost lo: nat, ghost next: nat)
      returns (r: Result<(), ConstructError>)
      requires index < |nodes| && IsDict(nodes[index]) && 2 * i + 1 < |nodes[index].children|
      requires lo == nodes[index].children[2 * i] && Tree(nodes, lo, nodes[index].children[2 * i + 1])
      requires Tree(nodes, nodes[index].children[2 * i + 1], next)
      requires Filling(index, k, i, lo) && k < |made| && Distinct(made[k].keys)
      modifies this`anchors, this`made
      ensures k < |made| && made[..k] == old(made)[..k]
      ensures r.Ok? ==> Filling(index, k, i + 1, next) && Distinct(made[k].keys)
      ensures r.Err? ==> Fails(nodes, index, next, r.error)
      decreases next - lo - 1, 2
    {
      hide Built, Rank, AllFine, Fails, Holds, Bound, ValueAt, Faulty, Distinct, Tree;
      var key, child := nodes[index].children[2 * i], nodes[index].children[2 * i + 1];
      TreeInside(nodes, key, child);
      TreeShort(nodes, child, next);
      if !nodes[key].Scalar? {
        KeyFaulty(nodes, index, i);
        FailsAt(nodes, index, next, UnsupportedKey);
        return Err(UnsupportedKey);
      }
      var text := nodes[key].text;
      HoldsKind(nodes, index, i, made[k]);
      if text in made[k].keys {
        KeyTwice(nodes, index, i, made[k], text);
        FailsAt(nodes, index, next, DuplicateKey(text));
        return Err(DuplicateKey(text));
      }
      ghost var before := made;
      ScalarValue(nodes, key);
      LeafRead(key);
      BuiltJoin(nodes, before, made, index + 1, key, child);
      FineJoin(nodes, index + 1, key, child);
      var v := Build(child, next);
      if v.Err? {
        FailsIn(nodes, child, next, index, next, v.error);
        return Err(v.error);
      }
      BuiltJoin(nodes, before, made, index + 1, child, next);
      FineJoin(nodes, index + 1, child, next);
      HoldsEntry(nodes, index, i, made[k], text, v.value);
      DistinctMore(made[k].keys, text);
      Put(index, k, i, made[k].(items := made[k].items + [v.value], keys := made[k].keys + [text]), next);
      r := Ok(());
    }
  }

  lemma DistinctMore(keys: seq<string>, key: string)
    requires Distinct(keys) && key !in keys
    ensures Distinct(keys + [key])
  {
  }

  lemma ScalarValue(nodes: seq<Node>, i: nat)
    requires i < |nodes| && nodes[i].Scalar?
    ensures ValueAt(nodes, i) == Some(Atom(nodes[i].text))
  {
  }

  lemma HoldsKind(nodes: seq<Node>, p: nat, k: nat, o: Obj)
    requires Holds(nodes, p, k, o)
    ensures p < |nodes| && nodes[p].Collection? && o.isDict == nodes[p].isDict
  {
  }

  // Reads a whole arena: if nothing is wrong with any of its nodes, the containers are built, each
  // with what its children are read as; and otherwise reading ends with a fault that is there.
  method Construct(nodes: seq<Node>) returns (r: Result<Value, ConstructError>, made: seq<Obj>)
    requires Tree(nodes, 0, |nodes|)
    ensures r.Ok? <==> AllFine(nodes, 0, |nodes|)
    ensures r.Ok? ==> ValueAt(nodes, 0) == Some(r.value) && |made| == Rank(nodes, |nodes|) && Built(nodes, made, 0, |nodes|)
    ensures r.Err? ==> Fails(nodes, 0, |nodes|, r.error)
  {
    hide Built, ValueAt, Rank, Faulty;
    var c := new Constructor(nodes);
    r := c.Build(0, |nodes|);
    made := c.made;
  }
}
