// Writing a graph and reading it back gives the same graph, what was shared shared and cycles closed
// where they were, exactly when no object is mistaken for another of its name and no name is empty
// (python/yamluna/representer.py, python/yamluna/constructor.py).
module GraphRoundTrip {
  import opened Results
  import opened ObjectGraph
  import opened Representer
  import opened Constructor

  // ------------------------------------------------------------------ the same graph

  function Through(f: map<nat, nat>, v: Value): Value {
    if v.Ref? && v.id in f then Ref(f[v.id]) else v
  }

  // `f` matches every object that can be reached from `root` with one of its own in `made`.
  ghost predicate Isomorphic(heap: seq<Obj>, root: Value, made: seq<Obj>, root2: Value, f: map<nat, nat>) {
    && Matched(f, root) && root2 == Through(f, root)
    && (forall a, b | a in f && b in f && f[a] == f[b] :: a == b)
    && (forall k: nat | k < |made| :: Hit(f, k))
    && (forall id | id in f :: id < |heap| && f[id] < |made| && SameObject(f, heap[id], made[f[id]]))
  }

  ghost predicate Hit(f: map<nat, nat>, k: nat) {
    exists id :: id in f && f[id] == k
  }

  predicate Matched(f: map<nat, nat>, v: Value) {
    v.Ref? ==> v.id in f
  }

  // The same kind, keys and items, and the anchor if the object was given one.
  predicate SameObject(f: map<nat, nat>, a: Obj, b: Obj) {
    && a.isDict == b.isDict && a.keys == b.keys && |a.items| == |b.items|
    && (forall i | 0 <= i < |a.items| :: Matched(f, a.items[i]) && b.items[i] == Through(f, a.items[i]))
    && (a.anchor.Some? ==> b.anchor == a.anchor)
  }

  ghost predicate SameGraph(heap: seq<Obj>, root: Value, made: seq<Obj>, root2: Value) {
    exists f :: Isomorphic(heap, root, made, root2, f)
  }

  // ------------------------------------------------------------------ what can be reached

  ghost predicate Reachable(heap: seq<Obj>, root: Value, id: nat) {
    forall s | ClosedUnder(heap, s) && (root.Ref? ==> root.id in s) :: id in s
  }

  // No object that can be reached has been given an empty name.
  ghost predicate NamesNotEmpty(heap: seq<Obj>, root: Value) {
    forall id | 0 <= id < |heap| && Reachable(heap, root, id) :: heap[id].anchor != Some("")
  }

  // And no two have been given the same one.
  ghost predicate NamesApart(heap: seq<Obj>, root: Value) {
    && NamesNotEmpty(heap, root)
    && forall a, b | 0 <= a < b < |heap| && Reachable(heap, root, a) && Reachable(heap, root, b) && heap[a].anchor.Some? ::
         heap[a].anchor != heap[b].anchor
  }

  // Every alias stands for the object it was written for: that is the last container in front of it
  // known by the name.
  predicate Resolves(w: Writing) {
    |w.of| == |w.nodes| &&
    forall j | 0 <= j < |w.nodes| && w.nodes[j].Alias? ::
      w.of[j].Ref? && w.of[j].id in w.pos && Latest(w.nodes, j, w.nodes[j].name) == Some(w.pos[w.of[j].id])
  }

  // Every node but the first is a child of one before it.
  lemma {:induction false} Parent(nodes: seq<Node>, i: nat, hi: nat, j: nat) returns (p: nat, k: nat)
    requires Tree(nodes, i, hi) && i < j < hi
    ensures i <= p < j < |nodes| && nodes[p].Collection? && k < |nodes[p].children| && nodes[p].children[k] == j
    decreases hi - i, 0
  {
    if j in nodes[i].children {
      k :| 0 <= k < |nodes[i].children| && nodes[i].children[k] == j;
      p := i;
    } else {
      p, k := ParentInside(nodes, i + 1, nodes[i].children, hi, j);
    }
  }

  lemma {:induction false} ParentInside(nodes: seq<Node>, lo: nat, roots: seq<nat>, hi: nat, j: nat) returns (p: nat, k: nat)
    requires Forest(nodes, lo, roots, hi) && lo <= j < hi && j !in roots
    ensures lo <= p < j < |nodes| && nodes[p].Collection? && k < |nodes[p].children| && nodes[p].children[k] == j
    decreases hi - lo, 1, |roots|
  {
    var next := if |roots| > 1 then roots[1] else hi;
    assert roots[0] in roots;
    if j < next {
      p, k := Parent(nodes, lo, next, j);
    } else {
      p, k := ParentInside(nodes, next, roots[1..], hi, j);
    }
  }

  // Node `j` is a child of a container that says what it was written for.
  lemma WrittenIn(heap: seq<Obj>, w: Writing, root: Value, j: nat) returns (p: nat, id: nat, i: nat)
    requires Arena(heap, w, root) && Closed(heap) && 0 < j < |w.nodes|
    ensures p < j && w.nodes[p].Collection? && w.of[p] == Ref(id) && id < |heap| && heap[id].Valid() && id in w.pos && w.pos[id] == p
    ensures heap[id].isDict == w.nodes[p].isDict && |heap[id].items| == Size(w.nodes[p]) && i < |heap[id].items|
    ensures if w.nodes[p].isDict && KeyNode(w.nodes[p], i) == j then w.of[j] == Atom(heap[id].keys[i])
            else ItemNode(w.nodes[p], i) == j && w.of[j] == heap[id].items[i]
  {
    var k;
    p, k := Parent(w.nodes, 0, |w.nodes|, j);
    assert w.Says(heap, p);
    id := w.of[p].id;
    i := if w.nodes[p].isDict then k / 2 else k;
  }

  // What is written can be reached, and what can be reached is written.
  lemma {:induction false} WrittenReachable(heap: seq<Obj>, w: Writing, root: Value, j: nat, s: set<nat>)
    requires Arena(heap, w, root) && Closed(heap) && j < |w.nodes| && w.of[j].Ref?
    requires ClosedUnder(heap, s) && (root.Ref? ==> root.id in s)
    ensures w.of[j].id in s
    decreases j
  {
    hide Tree, Forest;
    if j > 0 {
      var p, id, i := WrittenIn(heap, w, root, j);
      WrittenReachable(heap, w, root, p, s);
    }
  }

  lemma ReachableWritten(heap: seq<Obj>, w: Writing, root: Value, id: nat)
    requires Arena(heap, w, root) && Closed(heap)
    ensures Reachable(heap, root, id) <==> id in w.pos
  {
    hide Closed;
    if id in w.pos {
      forall s | ClosedUnder(heap, s) && (root.Ref? ==> root.id in s) ensures id in s {
        WrittenReachable(heap, w, root, w.pos[id], s);
      }
    }
    if Reachable(heap, root, id) {
      assert Reaches(heap, {}, root, {id});
      ReachedWritten(heap, w, root, {id});
    }
  }

  // ------------------------------------------------------------------ if every alias resolves

  // A value of the written graph, as the objects built in its place.
  function Renamed(w: Writing, v: Value): Value {
    match v
    case Atom(_) => v
    case Ref(id) => if id in w.pos && w.pos[id] <= |w.nodes| then Ref(Rank(w.nodes, w.pos[id])) else v
  }

  lemma ReadAsRenamed(heap: seq<Obj>, w: Writing, root: Value, j: nat)
    requires Arena(heap, w, root) && Resolves(w) && j < |w.nodes|
    ensures ValueAt(w.nodes, j) == Some(Renamed(w, w.of[j]))
  {
    hide Tree, Rank;
    assert w.Says(heap, j);
  }

  // Nothing is wrong with what was written, but for aliases that stand for nothing.
  lemma OnlyAliasesFail(heap: seq<Obj>, w: Writing, root: Value, j: nat, e: ConstructError)
    requires Arena(heap, w, root) && Closed(heap) && Faulty(w.nodes, j, e)
    ensures w.nodes[j].Alias? && Latest(w.nodes, j, w.nodes[j].name).None?
  {
    hide Tree, Latest, Rank;
    assert w.Says(heap, j);
    if w.nodes[j].Collection? {
      KeysSaid(heap, w, j);
      assert false;
    }
  }

  lemma KeysSaid(heap: seq<Obj>, w: Writing, j: nat)
    requires Closed(heap) && w.Says(heap, j) && w.nodes[j].Collection?
    requires forall k | 0 <= k < |w.nodes| :: w.Says(heap, k)
    ensures var n := w.nodes[j];
            var id := w.of[j].id;
            n.isDict ==>
              && |n.children| % 2 == 0 && |heap[id].keys| == Size(n) && Distinct(heap[id].keys)
              && forall i | 0 <= i < Size(n) ::
                   KeyNode(n, i) < |w.nodes| && w.nodes[KeyNode(n, i)] == Scalar(heap[id].keys[i])
  {
    var n, id := w.nodes[j], w.of[j].id;
    if n.isDict {
      forall i | 0 <= i < Size(n) ensures KeyNode(n, i) < |w.nodes| && w.nodes[KeyNode(n, i)] == Scalar(heap[id].keys[i]) {
        assert w.Says(heap, KeyNode(n, i));
      }
    }
  }

  lemma ResolvedFine(heap: seq<Obj>, w: Writing, root: Value)
    requires Arena(heap, w, root) && Closed(heap) && Resolves(w)
    ensures AllFine(w.nodes, 0, |w.nodes|)
  {
    hide Arena, Closed, Faulty;
    forall j, e | 0 <= j < |w.nodes| ensures !Faulty(w.nodes, j, e) {
      if Faulty(w.nodes, j, e) {
        OnlyAliasesFail(heap, w, root, j, e);
      }
    }
  }

  // Where each object of an arena is built.
  function Matching(w: Writing): map<nat, nat>
    requires forall id | id in w.pos :: w.pos[id] <= |w.nodes|
  {
    map id | id in w.pos :: Rank(w.nodes, w.pos[id])
  }

  lemma DefinedThere(heap: seq<Obj>, w: Writing, root: Value, id: nat)
    requires Arena(heap, w, root) && id in w.pos
    ensures w.pos[id] < |w.nodes| == |w.of| && w.nodes[w.pos[id]].Collection? && w.of[w.pos[id]] == Ref(id)
    ensures forall k | k in w.pos :: w.pos[k] < |w.nodes|
    ensures id < |heap| && (heap[id].anchor.Some? ==> w.nodes[w.pos[id]].anchor == heap[id].anchor)
  {
    assert w.Says(heap, w.pos[id]);
  }

  lemma ItemMatched(heap: seq<Obj>, w: Writing, root: Value, id: nat, i: nat)
    requires Arena(heap, w, root) && Closed(heap) && id in w.pos && id < |heap| && i < |heap[id].items|
    ensures w.nodes[w.pos[id]].Collection? && i < Size(w.nodes[w.pos[id]]) && w.nodes[w.pos[id]].isDict == heap[id].isDict
    ensures var c := ItemNode(w.nodes[w.pos[id]], i);
            c < |w.nodes| && w.of[c] == heap[id].items[i] && Matched(Matching(w), heap[id].items[i])
  {
    assert w.Says(heap, w.pos[id]);
    assert w.Says(heap, ItemNode(w.nodes[w.pos[id]], i));
  }

  lemma KeysMatch(heap: seq<Obj>, w: Writing, root: Value, id: nat, o: Obj)
    requires Arena(heap, w, root) && Closed(heap) && id in w.pos && id < |heap| && Holds(w.nodes, w.pos[id], |heap[id].items|, o)
    requires heap[id].isDict == o.isDict && |heap[id].items| == Size(w.nodes[w.pos[id]])
    ensures o.keys == heap[id].keys
  {
    hide Tree, Forest, ValueAt;
    assert w.Says(heap, w.pos[id]);
    KeysSaid(heap, w, w.pos[id]);
    if o.isDict {
      forall i | 0 <= i < |o.keys| ensures o.keys[i] == heap[id].keys[i] {
        assert w.nodes[KeyNode(w.nodes[w.pos[id]], i)] == Scalar(o.keys[i]);
      }
    }
  }

  lemma ObjectsMatch(heap: seq<Obj>, w: Writing, root: Value, made: seq<Obj>, id: nat)
    requires Arena(heap, w, root) && Closed(heap) && Resolves(w) && id in w.pos && Built(w.nodes, made, 0, |w.nodes|)
    requires id < |heap| ==> heap[id].anchor != Some("")
    ensures var f := Matching(w); id < |heap| && f[id] < |made| && SameObject(f, heap[id], made[f[id]])
  {
    DefinedThere(heap, w, root, id);
    var p, f := w.pos[id], Matching(w);
    var o := made[f[id]];
    assert Holds(w.nodes, p, Size(w.nodes[p]), o);
    hide Arena, Tree, Resolves, Closed, Latest, Rank, Built, ValueAt;
    SizeSaid(heap, w, root, id);
    KeysMatch(heap, w, root, id, o);
    forall i | 0 <= i < |heap[id].items| ensures Matched(f, heap[id].items[i]) && o.items[i] == Through(f, heap[id].items[i]) {
      ItemMatched(heap, w, root, id, i);
      ReadAsRenamed(heap, w, root, ItemNode(w.nodes[p], i));
    }
  }

  lemma SizeSaid(heap: seq<Obj>, w: Writing, root: Value, id: nat)
    requires Arena(heap, w, root) && Closed(heap) && id in w.pos && id < |heap|
    ensures w.pos[id] < |w.nodes|
    ensures w.nodes[w.pos[id]].Collection? && w.nodes[w.pos[id]].isDict == heap[id].isDict && Size(w.nodes[w.pos[id]]) == |heap[id].items|
  {
    assert w.Says(heap, w.pos[id]);
  }

  // Different objects stand at different nodes.
  lemma MatchingInjective(heap: seq<Obj>, w: Writing, root: Value, a: nat, b: nat)
    requires Arena(heap, w, root) && a in w.pos && b in w.pos && Matching(w)[a] == Matching(w)[b]
    ensures a == b
  {
    DefinedThere(heap, w, root, a);
    DefinedThere(heap, w, root, b);
    SameRank(w.nodes, w.pos[a], w.pos[b]);
  }

  lemma SameRank(nodes: seq<Node>, i: nat, j: nat)
    requires i < |nodes| && j < |nodes| && nodes[i].Collection? && nodes[j].Collection? && Rank(nodes, i) == Rank(nodes, j)
    ensures i == j
  {
    if i < j {
      RankLess(nodes, i, j);
    } else if j < i {
      RankLess(nodes, j, i);
    }
  }

  lemma {:induction false} RankHit(nodes: seq<Node>, i: nat, k: nat) returns (p: nat)
    requires i <= |nodes| && k < Rank(nodes, i)
    ensures p < i && nodes[p].Collection? && Rank(nodes, p) == k
    decreases i
  {
    if nodes[i - 1].Collection? && Rank(nodes, i - 1) == k {
      p := i - 1;
    } else {
      p := RankHit(nodes, i - 1, k);
    }
  }

  // Every container built is some object's.
  lemma MatchingOnto(heap: seq<Obj>, w: Writing, root: Value, k: nat)
    requires Arena(heap, w, root) && k < Rank(w.nodes, |w.nodes|)
    ensures Hit(Matching(w), k)
  {
    var p := RankHit(w.nodes, |w.nodes|, k);
    assert w.Says(heap, p);
    var id := w.of[p].id;
    assert id in Matching(w) && Matching(w)[id] == k;
  }

  lemma RootMatched(heap: seq<Obj>, w: Writing, root: Value)
    requires Arena(heap, w, root)
    ensures Matched(Matching(w), root) && Renamed(w, root) == Through(Matching(w), root)
  {
    assert w.Says(heap, 0);
  }

  lemma ResolvedSame(heap: seq<Obj>, w: Writing, root: Value, made: seq<Obj>)
    requires Arena(heap, w, root) && Closed(heap) && Resolves(w) && NamesNotEmpty(heap, root)
    requires |made| == Rank(w.nodes, |w.nodes|) && Built(w.nodes, made, 0, |w.nodes|)
    ensures Isomorphic(heap, root, made, Renamed(w, root), Matching(w))
  {
    hide Closed, Built, Tree, Writing.Says, SameObject, Rank, Hit, Resolves, Reachable;
    RootMatched(heap, w, root);
    forall k: nat | k < |made| ensures Hit(Matching(w), k) {
      MatchingOnto(heap, w, root, k);
    }
    forall a, b | a in Matching(w) && b in Matching(w) && Matching(w)[a] == Matching(w)[b] ensures a == b {
      MatchingInjective(heap, w, root, a, b);
    }
    forall id | id in Matching(w)
      ensures id < |heap| && Matching(w)[id] < |made| && SameObject(Matching(w), heap[id], made[Matching(w)[id]])
    {
      ReachableWritten(heap, w, root, id);
      ObjectsMatch(heap, w, root, made, id);
    }
  }

  // ------------------------------------------------------------------ only if every alias resolves

  // If the graph read is the same, each node has been read as what it was written for.
  lemma {:induction false} ReadAsWritten(heap: seq<Obj>, w: Writing, root: Value, made: seq<Obj>, root2: Value, f: map<nat, nat>, j: nat)
    requires Arena(heap, w, root) && Closed(heap) && Built(w.nodes, made, 0, |w.nodes|)
    requires Isomorphic(heap, root, made, root2, f) && ValueAt(w.nodes, 0) == Some(root2) && j < |w.nodes|
    ensures Matched(f, w.of[j]) && ValueAt(w.nodes, j) == Some(Through(f, w.of[j]))
    decreases j
  {
    hide Rank, Latest, Tree, Forest, Closed, Built, Hit, Holds, SameObject;
    if j > 0 {
      var p, id, i := WrittenIn(heap, w, root, j);
      ReadAsWritten(heap, w, root, made, root2, f, p);
      ContainerRead(w.nodes, made, p);
      ChildRead(heap, w, root, made, f, p, id, i, j);
    }
  }

  lemma ContainerRead(nodes: seq<Node>, made: seq<Obj>, p: nat)
    requires Built(nodes, made, 0, |nodes|) && p < |nodes| && nodes[p].Collection?
    ensures ValueAt(nodes, p) == Some(Ref(Rank(nodes, p))) && Rank(nodes, p) < |made|
    ensures Holds(nodes, p, Size(nodes[p]), made[Rank(nodes, p)])
  {
  }

  lemma ChildRead(heap: seq<Obj>, w: Writing, root: Value, made: seq<Obj>, f: map<nat, nat>, p: nat, id: nat, i: nat, j: nat)
    requires Arena(heap, w, root) && id < |heap| && j < |w.nodes| && p < |w.nodes| && w.nodes[p].Collection?
    requires Rank(w.nodes, p) < |made| && Holds(w.nodes, p, Size(w.nodes[p]), made[Rank(w.nodes, p)])
    requires SameObject(f, heap[id], made[Rank(w.nodes, p)]) && i < |heap[id].items| == Size(w.nodes[p])
    requires heap[id].isDict ==> |heap[id].keys| == |heap[id].items|
    requires heap[id].isDict == w.nodes[p].isDict
    requires if w.nodes[p].isDict && KeyNode(w.nodes[p], i) == j then w.of[j] == Atom(heap[id].keys[i])
             else ItemNode(w.nodes[p], i) == j && w.of[j] == heap[id].items[i]
    ensures Matched(f, w.of[j]) && ValueAt(w.nodes, j) == Some(Through(f, w.of[j]))
  {
    hide Rank, Latest, Tree, Forest;
    if w.nodes[p].isDict && KeyNode(w.nodes[p], i) == j {
      assert w.Says(heap, j);
    }
  }

  lemma SameResolves(heap: seq<Obj>, w: Writing, root: Value, made: seq<Obj>, root2: Value, f: map<nat, nat>)
    requires Arena(heap, w, root) && Closed(heap) && Built(w.nodes, made, 0, |w.nodes|)
    requires Isomorphic(heap, root, made, root2, f) && ValueAt(w.nodes, 0) == Some(root2)
    ensures Resolves(w)
  {
    hide Rank, Tree, Forest, Closed, Built, Isomorphic, Latest;
    forall j | 0 <= j < |w.nodes| && w.nodes[j].Alias?
      ensures w.of[j].Ref? && w.of[j].id in w.pos && Latest(w.nodes, j, w.nodes[j].name) == Some(w.pos[w.of[j].id])
    {
      assert w.Says(heap, j);
      var id := w.of[j].id;
      DefinedThere(heap, w, root, id);
      ReadAsWritten(heap, w, root, made, root2, f, j);
      ReadAsWritten(heap, w, root, made, root2, f, w.pos[id]);
      SameRank(w.nodes, Latest(w.nodes, j, w.nodes[j].name).value, w.pos[id]);
    }
  }

  lemma SameNotEmpty(heap: seq<Obj>, w: Writing, root: Value, made: seq<Obj>, root2: Value, f: map<nat, nat>)
    requires |made| == Rank(w.nodes, |w.nodes|) && Built(w.nodes, made, 0, |w.nodes|) && Isomorphic(heap, root, made, root2, f)
    ensures NamesNotEmpty(heap, root)
  {
    hide Rank, ValueAt;
    assert ClosedUnder(heap, f.Keys);
    forall id | 0 <= id < |heap| && Reachable(heap, root, id) ensures heap[id].anchor != Some("") {
      assert id in f.Keys;
      var p := RankHit(w.nodes, |w.nodes|, f[id]);
      assert Holds(w.nodes, p, Size(w.nodes[p]), made[f[id]]);
    }
  }

  // ------------------------------------------------------------------ the visits of a graph

  // What an object holds, in the order it is written: the items, each behind its key in a dict.
  function Contents(o: Obj): seq<Value>
    requires o.Valid()
  {
    if o.isDict then Paired(o.keys, o.items) else o.items
  }

  function Paired(keys: seq<string>, items: seq<Value>): (r: seq<Value>)
    requires |keys| == |items|
    ensures |r| == 2 * |items|
    ensures forall i | 0 <= i < |items| :: r[2 * i] == Atom(keys[i]) && r[2 * i + 1] == items[i]
  {
    seq(2 * |items|, k requires 0 <= k < 2 * |items| => if k % 2 == 0 then Atom(keys[k / 2]) else items[k / 2])
  }

  lemma ContentsWithin(heap: seq<Obj>, id: nat)
    requires Closed(heap) && id < |heap|
    ensures heap[id].Valid() && Within(Contents(heap[id]), |heap|)
  {
    var o := heap[id];
    assert Within(o.items, |heap|);
    if o.isDict {
      forall k | 0 <= k < |Contents(o)| ensures In(Contents(o)[k], |heap|) {
        assert Contents(o)[2 * (k / 2)] == Atom(o.keys[k / 2]) && Contents(o)[2 * (k / 2) + 1] == o.items[k / 2];
      }
    }
  }

  // The values met on the way through a graph, depth first, an object's contents only the first time;
  // and the objects met.
  function Visits(heap: seq<Obj>, v: Value, seen: set<nat>): (r: (seq<Value>, set<nat>))
    requires Closed(heap) && In(v, |heap|) && seen <= Ids(|heap|)
    ensures seen <= r.1 <= Ids(|heap|)
    decreases Ids(|heap|) - seen, 0, 0
  {
    if v.Atom? || v.id in seen then ([v], seen)
    else
      ContentsWithin(heap, v.id);
      var (more, after) := AllVisits(heap, Contents(heap[v.id]), seen + {v.id});
      ([v] + more, after)
  }

  function AllVisits(heap: seq<Obj>, vs: seq<Value>, seen: set<nat>): (r: (seq<Value>, set<nat>))
    requires Closed(heap) && Within(vs, |heap|) && seen <= Ids(|heap|)
    ensures seen <= r.1 <= Ids(|heap|)
    decreases Ids(|heap|) - seen, 1, |vs|
  {
    if vs == [] then ([], seen)
    else
      var (first, mid) := Visits(heap, vs[0], seen);
      var (more, after) := AllVisits(heap, vs[1..], mid);
      (first + more, after)
  }

  // An object is met again, and since it was first met another of the same name has been; or its name
  // is empty.
  predicate Mistaken(heap: seq<Obj>, vs: seq<Value>, i: nat, k: nat, j: nat) {
    && i < j < |vs| && vs[i] == vs[j] && vs[j].Ref? && vs[j].id < |heap| && heap[vs[j].id].anchor.Some?
    && (heap[vs[j].id].anchor == Some("")
        || (i < k < j && vs[k].Ref? && vs[k].id < |heap| && vs[k] !in vs[..k] && vs[k] != vs[j]
            && heap[vs[k].id].anchor == heap[vs[j].id].anchor))
  }

  // No object is mistaken for another of its name.
  ghost predicate NamesHold(heap: seq<Obj>, root: Value)
    requires Closed(heap) && In(root, |heap|)
  {
    forall i: nat, k: nat, j: nat :: !Mistaken(heap, Visits(heap, root, {}).0, i, k, j)
  }

  // The objects written in full in front of node `i`.
  function Before(w: Writing, i: nat): set<nat> {
    set id | id in w.pos && w.pos[id] < i
  }

  lemma BeforeLess(heap: seq<Obj>, w: Writing, root: Value, i: nat)
    requires Arena(heap, w, root)
    ensures Before(w, i) <= Ids(|heap|) && Before(w, 0) == {} 
  {
    forall id | id in w.pos ensures id < |heap| {
      DefinedThere(heap, w, root, id);
    }
  }

  lemma BeforeNext(heap: seq<Obj>, w: Writing, root: Value, j: nat)
    requires Arena(heap, w, root) && j < |w.nodes|
    ensures w.nodes[j].Collection? ==> w.of[j].Ref? && w.of[j].id !in Before(w, j) && w.of[j].id < |heap|
    ensures Before(w, j + 1) == if w.nodes[j].Collection? then Before(w, j) + {w.of[j].id} else Before(w, j)
    ensures !w.nodes[j].Collection? ==> w.of[j].Atom? || w.of[j].id in Before(w, j)
  {
    assert w.Says(heap, j);
    forall id | id in w.pos && w.pos[id] == j ensures w.nodes[j].Collection? && w.of[j] == Ref(id) {
      DefinedThere(heap, w, root, id);
    }
  }

  // What the roots of a forest were written for.
  function ValuesOf(w: Writing, roots: seq<nat>): (r: seq<Value>)
    requires forall i | 0 <= i < |roots| :: roots[i] < |w.of|
    ensures |r| == |roots| && forall i | 0 <= i < |roots| :: r[i] == w.of[roots[i]]
  {
    seq(|roots|, i requires 0 <= i < |roots| => w.of[roots[i]])
  }

  lemma ChildrenSaid(heap: seq<Obj>, w: Writing, root: Value, j: nat)
    requires Arena(heap, w, root) && Closed(heap) && j < |w.nodes| && w.nodes[j].Collection?
    ensures w.of[j].Ref? && w.of[j].id < |heap| && heap[w.of[j].id].Valid()
    ensures w.Lists(heap[w.of[j].id], w.nodes[j].children, |heap[w.of[j].id].items|)
  {
    hide Tree, Forest;
    assert w.Says(heap, j);
  }

  lemma ListedAre(w: Writing, o: Obj, c: seq<nat>)
    requires o.Valid() && w.Lists(o, c, |o.items|)
    ensures |c| == |Contents(o)| && forall k | 0 <= k < |c| :: c[k] < |w.of| && w.of[c[k]] == Contents(o)[k]
  {
    if o.isDict {
      forall k | 0 <= k < |c| ensures c[k] < |w.of| && w.of[c[k]] == Contents(o)[k] {
        var i := k / 2;
        assert c[2 * i] < |w.of| && w.of[c[2 * i]] == Atom(o.keys[i]);
        assert c[2 * i + 1] < |w.of| && w.of[c[2 * i + 1]] == o.items[i];
        assert Contents(o)[2 * i] == Atom(o.keys[i]) && Contents(o)[2 * i + 1] == o.items[i];
        assert k == 2 * i || k == 2 * i + 1;
      }
    }
  }

  lemma ChildrenWritten(heap: seq<Obj>, w: Writing, root: Value, j: nat)
    requires Arena(heap, w, root) && Closed(heap) && j < |w.nodes| && w.nodes[j].Collection?
    ensures w.of[j].Ref? && w.of[j].id < |heap| && heap[w.of[j].id].Valid()
    ensures var c := w.nodes[j].children;
            (forall i | 0 <= i < |c| :: c[i] < |w.of|) && ValuesOf(w, c) == Contents(heap[w.of[j].id])
  {
    hide Contents, Writing.Lists;
    ChildrenSaid(heap, w, root, j);
    ListedAre(w, heap[w.of[j].id], w.nodes[j].children);
  }

  lemma VisitsMore(heap: seq<Obj>, vs: seq<Value>, seen: set<nat>)
    requires Closed(heap) && Within(vs, |heap|) && seen <= Ids(|heap|) && vs != []
    ensures In(vs[0], |heap|) && Within(vs[1..], |heap|)
    ensures var a := Visits(heap, vs[0], seen);
            var b := AllVisits(heap, vs[1..], a.1);
            AllVisits(heap, vs, seen) == (a.0 + b.0, b.1)
  {
  }

  lemma VisitsFirst(heap: seq<Obj>, v: Value, seen: set<nat>)
    requires Closed(heap) && In(v, |heap|) && seen <= Ids(|heap|) && v.Ref? && v.id !in seen
    ensures heap[v.id].Valid() && Within(Contents(heap[v.id]), |heap|) && seen + {v.id} <= Ids(|heap|)
    ensures var a := AllVisits(heap, Contents(heap[v.id]), seen + {v.id}); Visits(heap, v, seen) == ([v] + a.0, a.1)
  {
    ContentsWithin(heap, v.id);
  }

  lemma VisitsNothing(heap: seq<Obj>, v: Value, seen: set<nat>)
    requires Closed(heap) && In(v, |heap|) && seen <= Ids(|heap|)
    ensures v.Atom? || v.id in seen ==> Visits(heap, v, seen) == ([v], seen)
    ensures AllVisits(heap, [], seen) == ([], seen)
  {
  }

  // The nodes of a subtree were written for the values met from its root.
  lemma {:induction false} NodeVisits(heap: seq<Obj>, w: Writing, root: Value, j: nat, hi: nat)
    requires Arena(heap, w, root) && Closed(heap) && Tree(w.nodes, j, hi) && In(w.of[j], |heap|)
    ensures Before(w, j) <= Ids(|heap|) && j < hi <= |w.of|
    ensures Visits(heap, w.of[j], Before(w, j)) == (w.of[j..hi], Before(w, hi))
    decreases hi - j, 0
  {
    hide Visits, AllVisits, Arena, Closed, Forest, Before, Contents;
    ArenaSizes(heap, w, root);
    TreeInside(w.nodes, j, hi);
    BeforeLess(heap, w, root, j);
    BeforeNext(heap, w, root, j);
    VisitsNothing(heap, w.of[j], Before(w, j));
    if w.nodes[j].Collection? {
      ChildrenWritten(heap, w, root, j);
      VisitsFirst(heap, w.of[j], Before(w, j));
      ForestVisits(heap, w, root, j + 1, w.nodes[j].children, hi);
      assert w.of[j..hi] == [w.of[j]] + w.of[j + 1..hi];
    } else {
      assert w.of[j..hi] == [w.of[j]];
    }
  }

  lemma ArenaSizes(heap: seq<Obj>, w: Writing, root: Value)
    requires Arena(heap, w, root)
    ensures |w.of| == |w.nodes|
  {
  }

  lemma RestWritten(w: Writing, roots: seq<nat>, n: nat)
    requires roots != [] && (forall i | 0 <= i < |roots| :: roots[i] < |w.of|) && Within(ValuesOf(w, roots), n)
    ensures (forall i | 0 <= i < |roots[1..]| :: roots[1..][i] < |w.of|) && ValuesOf(w, roots)[1..] == ValuesOf(w, roots[1..])
    ensures Within(ValuesOf(w, roots[1..]), n) && ValuesOf(w, roots)[0] == w.of[roots[0]] && In(w.of[roots[0]], n)
  {
    var rest := roots[1..];
    assert forall i | 0 <= i < |rest| :: rest[i] == roots[i + 1];
    assert In(ValuesOf(w, roots)[0], n);
    forall i | 0 <= i < |rest| ensures In(ValuesOf(w, rest)[i], n) {
      assert In(ValuesOf(w, roots)[i + 1], n);
    }
  }

  lemma {:induction false} ForestVisits(heap: seq<Obj>, w: Writing, root: Value, lo: nat, roots: seq<nat>, hi: nat)
    requires Arena(heap, w, root) && Closed(heap) && Forest(w.nodes, lo, roots, hi) && lo <= hi <= |w.nodes|
    requires (forall i | 0 <= i < |roots| :: roots[i] < |w.of|) && Within(ValuesOf(w, roots), |heap|)
    ensures Before(w, lo) <= Ids(|heap|)
    ensures AllVisits(heap, ValuesOf(w, roots), Before(w, lo)) == (w.of[lo..hi], Before(w, hi))
    decreases hi - lo, 1, |roots|
  {
    hide Visits, AllVisits, Arena, Closed, Tree, Before, Within;
    ArenaSizes(heap, w, root);
    BeforeLess(heap, w, root, lo);
    if roots == [] {
      assert w.of[lo..hi] == [];
      assert ValuesOf(w, roots) == [];
      VisitsNothing(heap, Atom(""), Before(w, lo));
    } else {
      ForestFirst(w.nodes, lo, roots, hi);
      var next := if |roots| > 1 then roots[1] else hi;
      RestWritten(w, roots, |heap|);
      NodeVisits(heap, w, root, lo, next);
      VisitsMore(heap, ValuesOf(w, roots), Before(w, lo));
      ForestVisits(heap, w, root, next, roots[1..], hi);
      assert w.of[lo..hi] == w.of[lo..next] + w.of[next..hi];
    }
  }

  // The arena's nodes are the visits.
  lemma VisitsWritten(heap: seq<Obj>, w: Writing, root: Value)
    requires Arena(heap, w, root) && Closed(heap) && In(root, |heap|)
    ensures Visits(heap, root, {}).0 == w.of
  {
    hide Closed;
    BeforeLess(heap, w, root, 0);
    NodeVisits(heap, w, root, 0, |w.nodes|);
    assert w.of[0..|w.nodes|] == w.of;
  }

  lemma FirstMet(heap: seq<Obj>, w: Writing, root: Value, k: nat)
    requires Arena(heap, w, root) && k < |w.nodes| && w.of[k].Ref?
    ensures w.of[k].id in w.pos && w.pos[w.of[k].id] <= k && w.of[w.pos[w.of[k].id]] == w.of[k]
    ensures w.of[k] !in w.of[..k] <==> w.pos[w.of[k].id] == k
    ensures w.nodes[k].Collection? <==> w.pos[w.of[k].id] == k
  {
    assert w.Says(heap, k);
    var id := w.of[k].id;
    DefinedThere(heap, w, root, id);
    if w.pos[id] < k {
      assert w.of[..k][w.pos[id]] == w.of[k];
    } else {
      forall i | 0 <= i < k ensures w.of[i] != w.of[k] {
        assert w.Says(heap, i);
      }
    }
  }

  // Every alias resolves exactly when, on the way through the graph, no object is mistaken.
  lemma ResolvesExactly(heap: seq<Obj>, w: Writing, root: Value)
    requires Arena(heap, w, root) && Closed(heap) && In(root, |heap|)
    ensures Resolves(w) <==> NamesHold(heap, root)
  {
    hide Closed, Tree, Forest, Visits, Latest;
    VisitsWritten(heap, w, root);
    if Resolves(w) {
      forall i: nat, k: nat, j: nat ensures !Mistaken(heap, w.of, i, k, j) {
        if Mistaken(heap, w.of, i, k, j) {
          MistakenFails(heap, w, root, i, k, j);
        }
      }
    }
    if NamesHold(heap, root) {
      HeldResolves(heap, w, root);
    }
  }

  lemma MistakenFails(heap: seq<Obj>, w: Writing, root: Value, i: nat, k: nat, j: nat)
    requires Arena(heap, w, root) && Mistaken(heap, w.of, i, k, j)
    ensures !Resolves(w)
  {
    hide Tree, Forest, Latest;
    var id := w.of[j].id;
    FirstMet(heap, w, root, j);
    FirstMet(heap, w, root, i);
    assert w.Says(heap, j);
    assert w.nodes[j] == Alias(w.names[id]) && heap[id].anchor == Some(w.names[id]);
    if heap[id].anchor != Some("") {
      FirstMet(heap, w, root, k);
      DefinedThere(heap, w, root, w.of[k].id);
      LatestFrom(w.nodes, j, w.names[id], k);
    }
  }

  lemma HeldResolves(heap: seq<Obj>, w: Writing, root: Value)
    requires Arena(heap, w, root) && forall i: nat, k: nat, j: nat :: !Mistaken(heap, w.of, i, k, j)
    ensures Resolves(w)
  {
    hide Tree, Forest, Latest, Mistaken;
    forall j | 0 <= j < |w.nodes| && w.nodes[j].Alias?
      ensures w.of[j].Ref? && w.of[j].id in w.pos && Latest(w.nodes, j, w.nodes[j].name) == Some(w.pos[w.of[j].id])
    {
      AliasHeld(heap, w, root, j);
    }
  }

  lemma AliasHeld(heap: seq<Obj>, w: Writing, root: Value, j: nat)
    requires Arena(heap, w, root) && forall i: nat, k: nat, n: nat :: !Mistaken(heap, w.of, i, k, n)
    requires j < |w.nodes| && w.nodes[j].Alias?
    ensures w.of[j].Ref? && w.of[j].id in w.pos && Latest(w.nodes, j, w.nodes[j].name) == Some(w.pos[w.of[j].id])
  {
    hide Tree, Forest, Latest;
    assert w.Says(heap, j);
    var id := w.of[j].id;
    var p := w.pos[id];
    DefinedThere(heap, w, root, id);
    assert w.Says(heap, p);
    assert !Mistaken(heap, w.of, p, p, j);
    LatestFrom(w.nodes, j, w.names[id], p);
    var q := Latest(w.nodes, j, w.names[id]).value;
    assert !Mistaken(heap, w.of, p, q, j);
    assert w.Says(heap, q);
    FirstMet(heap, w, root, q);
  }

  // ------------------------------------------------------------------ the round trip

  // Any finite graph of lists and scalar-keyed dicts, cycles and all, is written as an arena that
  // reads back the same exactly when, on the way through it, no object is mistaken for another of its
  // name, and no name is empty; and when it does not read at all, it is an alias that stands for
  // nothing.
  method RoundTrip(heap: seq<Obj>, root: Value) returns (r: Result<Value, ConstructError>, made: seq<Obj>, ghost w: Writing)
    requires Closed(heap) && In(root, |heap|)
    ensures Arena(heap, w, root)
    ensures r.Ok? && SameGraph(heap, root, made, r.value) <==> NamesHold(heap, root) && NamesNotEmpty(heap, root)
    ensures NamesApart(heap, root) ==> NamesHold(heap, root)
    ensures r.Err? ==> r.error.UndefinedAlias?
  {
    hide Closed, Tree, Built, Arena, Isomorphic, Resolves, NamesNotEmpty, NamesApart, Faulty, Rank, ValueAt, AllFine, NamesHold;
    var nodes, v, _ := Represent(heap, root);
    w := v;
    ArenaTree(heap, w, root);
    ResolvesExactly(heap, w, root);
    r, made := Construct(nodes);
    if NamesApart(heap, root) {
      ApartResolves(heap, w, root);
    }
    if r.Err? {
      ErrorIs(heap, w, root, r.error);
    }
    if Resolves(w) {
      ResolvedFine(heap, w, root);
      if NamesNotEmpty(heap, root) {
        ResolvedSame(heap, w, root, made);
        ReadAsRenamed(heap, w, root, 0);
      }
    }
    if r.Ok? && SameGraph(heap, root, made, r.value) {
      var f :| Isomorphic(heap, root, made, r.value, f);
      SameResolves(heap, w, root, made, r.value, f);
      SameNotEmpty(heap, w, root, made, r.value, f);
    }
  }

  lemma ArenaTree(heap: seq<Obj>, w: Writing, root: Value)
    requires Arena(heap, w, root)
    ensures Tree(w.nodes, 0, |w.nodes|) && 0 < |w.nodes| == |w.of| && w.of[0] == root
  {
  }

  lemma ErrorIs(heap: seq<Obj>, w: Writing, root: Value, e: ConstructError)
    requires Arena(heap, w, root) && Closed(heap) && Fails(w.nodes, 0, |w.nodes|, e)
    ensures e.UndefinedAlias?
  {
    var j :| 0 <= j < |w.nodes| && Faulty(w.nodes, j, e);
    OnlyAliasesFail(heap, w, root, j, e);
  }

  // Names that are not empty and differ from one another resolve.
  lemma ApartResolves(heap: seq<Obj>, w: Writing, root: Value)
    requires Arena(heap, w, root) && Closed(heap) && NamesApart(heap, root)
    ensures Resolves(w)
  {
    hide Closed, Tree, Reachable;
    forall j | 0 <= j < |w.nodes| && w.nodes[j].Alias?
      ensures w.of[j].Ref? && w.of[j].id in w.pos && Latest(w.nodes, j, w.nodes[j].name) == Some(w.pos[w.of[j].id])
    {
      assert w.Says(heap, j);
      var id := w.of[j].id;
      assert w.Says(heap, w.pos[id]);
      ReachableWritten(heap, w, root, id);
      LatestFrom(w.nodes, j, w.names[id], w.pos[id]);
      var p := Latest(w.nodes, j, w.names[id]).value;
      assert w.Says(heap, p);
      ReachableWritten(heap, w, root, w.of[p].id);
    }
  }

  // ------------------------------------------------------------------ graphs that come back another

  // A list that holds itself, with an empty name.
  const Nameless: seq<Obj> := [Obj(false, [], [Ref(0)], Some(""))]

  // A list is written in full at node `j`, or it has been earlier.
  lemma ListWritten(heap: seq<Obj>, w: Writing, root: Value, j: nat, id: nat, hi: nat)
    requires Arena(heap, w, root) && Tree(w.nodes, j, hi) && w.of[j] == Ref(id) && id < |heap| && !heap[id].isDict
    requires forall k | 0 <= k < j :: w.of[k] != Ref(id)
    ensures id in w.pos && w.pos[id] == j && w.nodes[j].Collection? && !w.nodes[j].isDict && w.nodes[j].anchor == w.NameOf(id)
    ensures |w.nodes[j].children| == |heap[id].items| && Forest(w.nodes, j + 1, w.nodes[j].children, hi)
    ensures forall i | 0 <= i < |heap[id].items| :: w.nodes[j].children[i] < |w.of| && w.of[w.nodes[j].children[i]] == heap[id].items[i]
  {
    assert w.Says(heap, j);
  }

  lemma AliasWritten(heap: seq<Obj>, w: Writing, root: Value, j: nat, id: nat, hi: nat)
    requires Arena(heap, w, root) && Tree(w.nodes, j, hi) && w.of[j] == Ref(id) && id in w.pos && w.pos[id] != j && Own(heap, id)
    ensures w.nodes[j] == Alias(heap[id].anchor.value) && hi == j + 1
  {
    assert w.Says(heap, j);
  }

  // However it is written, the alias in it stands for nothing.
  lemma EmptyNameIsLost(w: Writing)
    requires Arena(Nameless, w, Ref(0))
    ensures w.nodes == [Collection(false, Some(""), [1]), Alias("")]
    ensures Faulty(w.nodes, 1, UndefinedAlias("")) && !Resolves(w)
    ensures Closed(Nameless) && !NamesHold(Nameless, Ref(0))
  {
    var n := |w.nodes|;
    hide Writing.Says;
    ListWritten(Nameless, w, Ref(0), 0, 0, n);
    assert w.nodes[0].children == [1];
    AliasWritten(Nameless, w, Ref(0), 1, 0, n);
    hide Arena, Resolves, NamesHold;
    ResolvesExactly(Nameless, w, Ref(0));
  }

  // Two lists with the same name in a third, the first of them once more behind the second.
  const Namesakes: seq<Obj> :=
    [Obj(false, [], [Ref(1), Ref(2), Ref(1)], None), Obj(false, [], [], Some("a")), Obj(false, [], [], Some("a"))]

  lemma NamesakeNodes(w: Writing)
    requires Arena(Namesakes, w, Ref(0))
    ensures w.nodes[1..] == [Collection(false, Some("a"), []), Collection(false, Some("a"), []), Alias("a")]
    ensures w.of == [Ref(0), Ref(1), Ref(2), Ref(1)] && Latest(w.nodes, 3, "a") == Some(2) && !Resolves(w)
  {
    var n := |w.nodes|;
    hide Writing.Says;
    ListWritten(Namesakes, w, Ref(0), 0, 0, n);
    var c := w.nodes[0].children;
    FirstThree(w.nodes, c, n);
    ListWritten(Namesakes, w, Ref(0), 1, 1, c[1]);
    ListWritten(Namesakes, w, Ref(0), 2, 2, c[2]);
    AliasWritten(Namesakes, w, Ref(0), 3, 1, n);
  }

  lemma NamesakesClosed()
    ensures Closed(Namesakes) && In(Ref(0), |Namesakes|)
  {
  }

  // The alias written for the first stands for the second.
  lemma NamesakeIsTaken(w: Writing)
    requires Arena(Namesakes, w, Ref(0))
    ensures w.nodes[1..] == [Collection(false, Some("a"), []), Collection(false, Some("a"), []), Alias("a")]
    ensures w.of == [Ref(0), Ref(1), Ref(2), Ref(1)] && Latest(w.nodes, 3, "a") == Some(2) && !Resolves(w)
    ensures Closed(Namesakes) && !NamesHold(Namesakes, Ref(0))
  {
    hide Arena, Resolves, NamesHold, Closed, Latest;
    NamesakesClosed();
    NamesakeNodes(w);
    ResolvesExactly(Namesakes, w, Ref(0));
  }

  lemma FirstThree(nodes: seq<Node>, c: seq<nat>, hi: nat)
    requires Forest(nodes, 1, c, hi) && |c| == 3
    ensures c[0] == 1 && Tree(nodes, 1, c[1]) && Tree(nodes, c[1], c[2]) && Tree(nodes, c[2], hi)
  {
    ForestFirst(nodes, 1, c, hi);
    ForestFirst(nodes, c[1], c[1..], hi);
    ForestFirst(nodes, c[2], c[1..][1..], hi);
  }
}
