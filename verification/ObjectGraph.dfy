// Graphs of lists and dicts that may share and contain one another, and the arena of nodes they
// are written to (python/yamluna/representer.py, python/yamluna/constructor.py).
module ObjectGraph {
  import opened Results

  // What a list or a dict holds: a scalar, or an object by its identity.
  datatype Value = Atom(text: string) | Ref(id: nat)

  // A list, or a dict with one scalar key for each item. The anchor is the name set on it, if any.
  datatype Obj = Obj(isDict: bool, keys: seq<string>, items: seq<Value>, anchor: Option<string>) {
    predicate Valid() {
      if isDict then |keys| == |items| && Distinct(keys) else keys == []
    }
  }

  predicate Distinct(keys: seq<string>) {
    forall i, j | 0 <= i < j < |keys| :: keys[i] != keys[j]
  }

  // Objects refer to objects of the same graph.
  predicate Closed(heap: seq<Obj>) {
    forall id | 0 <= id < |heap| :: heap[id].Valid() && Within(heap[id].items, |heap|)
  }

  predicate Within(items: seq<Value>, n: nat) {
    forall i | 0 <= i < |items| :: In(items[i], n)
  }

  predicate In(v: Value, n: nat) {
    v.Ref? ==> v.id < n
  }

  datatype Node =
    | Scalar(text: string)
    | Alias(name: string)
    | Collection(isDict: bool, anchor: Option<string>, children: seq<nat>)

  // ------------------------------------------------------------------ generated names

  // The digits of `n`, at least `width` of them.
  function Padded(n: nat, width: nat): string
    decreases n, width
  {
    if n == 0 && width == 0 then ""
    else Padded(n / 10, if width > 0 then width - 1 else 0) + [('0' as int + n % 10) as char]
  }

  function Number(s: string): nat {
    if s == "" then 0
    else
      var c := s[|s| - 1] as int - '0' as int;
      Number(s[..|s| - 1]) * 10 + if 0 <= c then c else 0
  }

  // `id001`, `id002`, and so on.
  function Generated(n: nat): string {
    "id" + Padded(n, 3)
  }

  lemma {:induction false} PaddedNumber(n: nat, width: nat)
    ensures Number(Padded(n, width)) == n
    decreases n, width
  {
    if n != 0 || width != 0 {
      var rest := Padded(n / 10, if width > 0 then width - 1 else 0);
      PaddedNumber(n / 10, if width > 0 then width - 1 else 0);
      assert Padded(n, width)[..|rest|] == rest;
    }
  }

  lemma GeneratedDistinct(a: nat, b: nat)
    requires Generated(a) == Generated(b)
    ensures a == b
  {
    assert Generated(a)[2..] == Padded(a, 3) && Generated(b)[2..] == Padded(b, 3);
    PaddedNumber(a, 3);
    PaddedNumber(b, 3);
  }

  // ------------------------------------------------------------------ trees in an arena

  // The subtree of node `i` fills the range up to `hi`, each child's behind the one before it.
  predicate Tree(nodes: seq<Node>, i: nat, hi: nat)
    decreases hi - i, 0
  {
    i < hi <= |nodes| &&
    if nodes[i].Collection? then Forest(nodes, i + 1, nodes[i].children, hi) else hi == i + 1
  }

  // Consecutive subtrees with the given roots fill the range from `lo` to `hi`.
  predicate Forest(nodes: seq<Node>, lo: nat, roots: seq<nat>, hi: nat)
    decreases hi - lo, 1, |roots|
  {
    if roots == [] then lo == hi
    else
      && roots[0] == lo
      && var next := if |roots| > 1 then roots[1] else hi;
         lo < next <= hi && Tree(nodes, lo, next) && Forest(nodes, next, roots[1..], hi)
  }

  // What holds of a subtree depends on its own nodes only.
  lemma {:induction false} TreeFrame(a: seq<Node>, b: seq<Node>, i: nat, hi: nat)
    requires Tree(a, i, hi) && hi <= |b| && forall j | i <= j < hi :: b[j] == a[j]
    ensures Tree(b, i, hi)
    decreases hi - i, 0
  {
    if a[i].Collection? { ForestFrame(a, b, i + 1, a[i].children, hi); }
  }

  lemma {:induction false} ForestFrame(a: seq<Node>, b: seq<Node>, lo: nat, roots: seq<nat>, hi: nat)
    requires Forest(a, lo, roots, hi) && hi <= |a| && hi <= |b| && forall j | lo <= j < hi :: b[j] == a[j]
    ensures Forest(b, lo, roots, hi)
    decreases hi - lo, 1, |roots|
  {
    if roots != [] {
      var next := if |roots| > 1 then roots[1] else hi;
      TreeFrame(a, b, lo, next);
      ForestFrame(a, b, next, roots[1..], hi);
    }
  }

  // One more subtree behind the others.
  lemma {:induction false} ForestSnoc(nodes: seq<Node>, lo: nat, roots: seq<nat>, mid: nat, hi: nat)
    requires Forest(nodes, lo, roots, mid) && Tree(nodes, mid, hi)
    ensures Forest(nodes, lo, roots + [mid], hi)
    decreases mid - lo, |roots|
  {
    if roots == [] {
      assert ([] + [mid])[1..] == [];
    } else {
      var next := if |roots| > 1 then roots[1] else mid;
      assert (roots + [mid])[1..] == roots[1..] + [mid];
      ForestSnoc(nodes, next, roots[1..], mid, hi);
    }
  }

  // ------------------------------------------------------------------ what an arena says

  // The arena, the value each node was written for, where each object was written in full, and the
  // names of those that have one.
  datatype Writing = Writing(nodes: seq<Node>, of: seq<Value>, pos: map<nat, nat>, names: map<nat, string>) {
    function NameOf(id: nat): Option<string> {
      if id in names then Some(names[id]) else None
    }

    // The children written so far are the first `k` items of `obj`, for a dict each behind its key.
    predicate Lists(obj: Obj, children: seq<nat>, k: nat) {
      && k <= |obj.items| && |of| == |nodes|
      && if obj.isDict then
           && |obj.keys| == |obj.items| && |children| == 2 * k
           && forall i | 0 <= i < k ::
                && children[2 * i] < |of| && of[children[2 * i]] == Atom(obj.keys[i])
                && children[2 * i + 1] < |of| && of[children[2 * i + 1]] == obj.items[i]
         else
           && |children| == k && forall i | 0 <= i < k :: children[i] < |of| && of[children[i]] == obj.items[i]
    }

    // Node `j` says what it was written for: a scalar its text, an object everything it holds where
    // it is written in full, and elsewhere the name it was given there, earlier.
    predicate Says(heap: seq<Obj>, j: nat) {
      && j < |nodes| == |of|
      && match of[j]
         case Atom(text) => nodes[j] == Scalar(text)
         case Ref(id) =>
           && id < |heap| && id in pos
           && if pos[id] == j then
                && nodes[j].Collection? && nodes[j].isDict == heap[id].isDict && nodes[j].anchor == NameOf(id)
                && Lists(heap[id], nodes[j].children, |heap[id].items|)
              else
                pos[id] < j && id in names && nodes[j] == Alias(names[id])
    }
  }

  // More has been written, and what was there has been kept.
  predicate Grows(a: Writing, b: Writing) {
    && |a.of| == |a.nodes| && |b.of| == |b.nodes| && a.of <= b.of
    && (forall id | id in a.pos :: id in b.pos && b.pos[id] == a.pos[id] && b.NameOf(id) == a.NameOf(id))
  }

  lemma SaysStill(heap: seq<Obj>, a: Writing, b: Writing, j: nat)
    requires Grows(a, b) && a.Says(heap, j) && b.nodes[j] == a.nodes[j]
    ensures b.Says(heap, j)
  {
  }

  lemma GrowsTwice(a: Writing, b: Writing, c: Writing)
    requires Grows(a, b) && Grows(b, c)
    ensures Grows(a, c)
  {
  }

  // An object being written at `index`: `k` of its items have been.
  predicate Partial(heap: seq<Obj>, w: Writing, id: nat, index: nat, k: nat) {
    && id < |heap| && id in w.pos && w.pos[id] == index && index < |w.nodes| == |w.of| && w.of[index] == Ref(id)
    && w.nodes[index].Collection? && w.nodes[index].isDict == heap[id].isDict && w.nodes[index].anchor == w.NameOf(id)
    && w.Lists(heap[id], w.nodes[index].children, k)
    && Forest(w.nodes, index + 1, w.nodes[index].children, |w.nodes|)
    && forall j | index < j < |w.nodes| :: w.Says(heap, j)
  }

  // The node at `index` with more children.
  function WithChildren(w: Writing, index: nat, more: seq<nat>): Writing
    requires index < |w.nodes| && w.nodes[index].Collection?
  {
    w.(nodes := w.nodes[index := w.nodes[index].(children := w.nodes[index].children + more)])
  }

  lemma ListsMore(heap: seq<Obj>, a: Writing, b: Writing, id: nat, index: nat, k: nat, more: seq<nat>)
    requires Partial(heap, a, id, index, k) && Grows(a, b) && a.nodes <= b.nodes && heap[id].Valid() && k < |heap[id].items|
    requires Adds(heap[id], a, b, k, more)
    ensures WithChildren(b, index, more).Lists(heap[id], a.nodes[index].children + more, k + 1)
  {
  }

  lemma SaysMore(heap: seq<Obj>, a: Writing, b: Writing, id: nat, index: nat, k: nat, more: seq<nat>)
    requires Partial(heap, a, id, index, k) && Grows(a, b) && a.nodes <= b.nodes
    requires forall j | |a.nodes| <= j < |b.nodes| :: b.Says(heap, j)
    ensures var c := WithChildren(b, index, more); forall j | index < j < |c.nodes| :: c.Says(heap, j)
  {
    var c := WithChildren(b, index, more);
    forall j | index < j < |c.nodes| ensures c.Says(heap, j) {
      if j < |a.nodes| {
        assert a.Says(heap, j);
        SaysStill(heap, a, b, j);
      }
      SaysStill(heap, b, c, j);
    }
  }

  // The subtrees that the roots `more` stand for, one behind the other, are all there is from `mid` on.
  predicate Subtrees(nodes: seq<Node>, mid: nat, more: seq<nat>) {
    if |more| == 1 then more[0] == mid && Tree(nodes, mid, |nodes|)
    else |more| == 2 && more[0] == mid && mid < more[1] && Tree(nodes, mid, more[1]) && Tree(nodes, more[1], |nodes|)
  }

  lemma ForestMore(a: seq<Node>, b: seq<Node>, c: seq<Node>, lo: nat, roots: seq<nat>, more: seq<nat>)
    requires Forest(a, lo, roots, |a|) && a <= b && |c| == |b| && lo <= |a| && forall j | lo <= j < |b| :: c[j] == b[j]
    requires Subtrees(b, |a|, more)
    ensures Forest(c, lo, roots + more, |c|)
  {
    hide Tree, Forest;
    TreeShort(b, more[|more| - 1], |b|);
    ForestFrame(a, c, lo, roots, |a|);
    if |more| == 1 {
      TreeFrame(b, c, |a|, |b|);
      ForestSnoc(c, lo, roots, |a|, |b|);
      assert more == [|a|];
    } else {
      TreeFrame(b, c, |a|, more[1]);
      TreeFrame(b, c, more[1], |b|);
      ForestSnoc(c, lo, roots, |a|, more[1]);
      ForestSnoc(c, lo, roots + [|a|], more[1], |b|);
      assert roots + [|a|] + [more[1]] == roots + more;
    }
  }

  lemma TreeShort(nodes: seq<Node>, i: nat, hi: nat)
    requires Tree(nodes, i, hi)
    ensures i < hi <= |nodes|
  {
  }

  // `more` has been written for item `k`, behind its key in a dict.
  predicate Adds(obj: Obj, a: Writing, b: Writing, k: nat, more: seq<nat>) {
    && Grows(a, b) && a.nodes <= b.nodes && k < |obj.items| && Subtrees(b.nodes, |a.nodes|, more)
    && (forall c | c in more :: c < |b.nodes|)
    && (if obj.isDict then
          |more| == 2 && k < |obj.keys| && b.of[more[0]] == Atom(obj.keys[k]) && b.of[more[1]] == obj.items[k]
        else |more| == 1 && b.of[more[0]] == obj.items[k])
  }

  // One more item has been written.
  lemma PartialMore(heap: seq<Obj>, a: Writing, b: Writing, id: nat, index: nat, k: nat, more: seq<nat>)
    requires Partial(heap, a, id, index, k) && heap[id].Valid() && Adds(heap[id], a, b, k, more)
    requires forall j | |a.nodes| <= j < |b.nodes| :: b.Says(heap, j)
    ensures Partial(heap, WithChildren(b, index, more), id, index, k + 1)
  {
    hide Tree, Forest, Writing.Says, Writing.Lists;
    ListsMore(heap, a, b, id, index, k, more);
    SaysMore(heap, a, b, id, index, k, more);
    ForestMore(a.nodes, b.nodes, WithChildren(b, index, more).nodes, index + 1, a.nodes[index].children, more);
  }

  // With all its items written, an object's node says what it was written for.
  lemma PartialDone(heap: seq<Obj>, w: Writing, id: nat, index: nat)
    requires Partial(heap, w, id, index, if id < |heap| then |heap[id].items| else 0)
    ensures index < |w.of| && w.of[index] == Ref(id) && id in w.pos
    ensures Tree(w.nodes, index, |w.nodes|) && forall j | index <= j < |w.nodes| :: w.Says(heap, j)
  {
  }

  lemma PartialShape(heap: seq<Obj>, w: Writing, id: nat, index: nat, k: nat)
    requires Partial(heap, w, id, index, k)
    ensures index < |w.nodes| && w.nodes[index].Collection?
  {
  }

  lemma AddsKeeps(obj: Obj, a: Writing, b: Writing, k: nat, more: seq<nat>, index: nat)
    requires Adds(obj, a, b, k, more) && index < |a.nodes|
    ensures Grows(a, b) && index < |b.nodes| && b.nodes[index] == a.nodes[index] && b.nodes[..index] == a.nodes[..index]
  {
  }

  // What writing a value leaves: a subtree of its own, at the end, in which every node says what
  // it was written for.
  ghost predicate Wrote(heap: seq<Obj>, a: Writing, b: Writing, index: nat, v: Value) {
    && index == |a.nodes| && a.nodes <= b.nodes && Grows(a, b)
    && (forall j | index <= j < |b.nodes| :: b.Says(heap, j))
    && Tree(b.nodes, index, |b.nodes|) && index < |b.of| && b.of[index] == v && (v.Ref? ==> v.id in b.pos)
  }

  lemma AddsOne(heap: seq<Obj>, a: Writing, b: Writing, obj: Obj, k: nat, item: nat)
    requires k < |obj.items| && !obj.isDict && Wrote(heap, a, b, item, obj.items[k])
    ensures Adds(obj, a, b, k, [item])
    ensures forall j | |a.nodes| <= j < |b.nodes| :: b.Says(heap, j)
  {
    hide Tree, Writing.Says;
    TreeShort(b.nodes, item, |b.nodes|);
  }

  lemma AddsTwo(heap: seq<Obj>, a: Writing, m: Writing, b: Writing, obj: Obj, k: nat, key: nat, item: nat)
    requires k < |obj.items| && obj.isDict && k < |obj.keys|
    requires Wrote(heap, a, m, key, Atom(obj.keys[k])) && Wrote(heap, m, b, item, obj.items[k])
    ensures Adds(obj, a, b, k, [key, item])
    ensures forall j | |a.nodes| <= j < |b.nodes| :: b.Says(heap, j)
  {
    hide Tree, Writing.Says;
    GrowsTwice(a, m, b);
    TreeShort(m.nodes, key, |m.nodes|);
    TreeShort(b.nodes, item, |b.nodes|);
    TreeFrame(m.nodes, b.nodes, key, item);
    forall j | |a.nodes| <= j < |b.nodes| ensures b.Says(heap, j) {
      if j < item { SaysStill(heap, m, b, j); }
    }
  }

  // A node's children change nothing but that node.
  lemma ChildrenGrow(heap: seq<Obj>, a: Writing, b: Writing, index: nat, more: seq<nat>)
    requires Grows(a, b) && index < |b.nodes| && b.nodes[index].Collection?
    ensures Grows(a, WithChildren(b, index, more))
  {
  }
}
