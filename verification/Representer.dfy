// Writing an object graph: a pre-pass counts how often each object is reached, so that those
// reached more than once get a name and are written once (python/yamluna/representer.py).
module Representer {
  import opened Results
  import opened ObjectGraph

  // A place where a value stands: the root, or a position in an object.
  datatype Place = Root | Item(owner: nat, pos: nat)

  function Ids(n: nat): (r: set<nat>)
    ensures forall id: nat :: id in r <==> id < n
    ensures |r| == n
  {
    if n == 0 then {} else Ids(n - 1) + {n - 1}
  }

  // The places at which an object has been reached.
  function Where(places: map<nat, set<Place>>, id: nat): set<Place> {
    if id in places then places[id] else {}
  }

  // The object `id` stands at `at`.
  predicate Stands(heap: seq<Obj>, root: Value, id: nat, at: Place) {
    match at
    case Root => root == Ref(id)
    case Item(owner, pos) => owner < |heap| && pos < |heap[owner].items| && heap[owner].items[pos] == Ref(id)
  }

  // Only places at which an object stands have been counted.
  ghost predicate Genuine(heap: seq<Obj>, root: Value, p: map<nat, set<Place>>) {
    forall id: nat, at | at in Where(p, id) :: Stands(heap, root, id, at)
  }

  lemma GenuineMore(heap: seq<Obj>, root: Value, p: map<nat, set<Place>>, q: map<nat, set<Place>>, id: nat, o: Place)
    requires Genuine(heap, root, p) && Stands(heap, root, id, o) && q == p[id := Where(p, id) + {o}]
    ensures Genuine(heap, root, q)
  {
  }

  predicate ClosedUnder(heap: seq<Obj>, s: set<nat>) {
    forall id, i | id in s && id < |heap| && 0 <= i < |heap[id].items| && heap[id].items[i].Ref? :: heap[id].items[i].id in s
  }

  // Nothing has been seen but what was, `v`, and what can be reached from there.
  ghost predicate Reaches(heap: seq<Obj>, seen: set<nat>, v: Value, seen2: set<nat>) {
    forall s | ClosedUnder(heap, s) && seen <= s && (v.Ref? ==> v.id in s) :: seen2 <= s
  }

  lemma ReachesItem(heap: seq<Obj>, seen: set<nat>, id: nat, mid: set<nat>, i: nat, seen2: set<nat>)
    requires Reaches(heap, seen, Ref(id), mid) && id < |heap| && i < |heap[id].items|
    requires Reaches(heap, mid, heap[id].items[i], seen2)
    ensures Reaches(heap, seen, Ref(id), seen2)
  {
  }

  lemma ReachesSelf(heap: seq<Obj>, seen: set<nat>, v: Value)
    ensures Reaches(heap, seen, v, seen)
    ensures v.Ref? ==> Reaches(heap, seen, v, seen + {v.id})
  {
  }

  // The places `q` are those of `p`, `o`, and places in objects seen since `before`.
  ghost predicate Extends(p: map<nat, set<Place>>, q: map<nat, set<Place>>, o: Place, before: set<nat>, seen: set<nat>) {
    && (forall id: nat :: Where(p, id) <= Where(q, id))
    && (forall id: nat, at | at in Where(q, id) ::
          at in Where(p, id) || at == o || (at.Item? && at.owner in seen && at.owner !in before))
  }

  // No item of `id` from the `i`th on has been counted.
  ghost predicate FreeFrom(p: map<nat, set<Place>>, id: nat, i: nat) {
    forall j: nat, k: nat | i <= j :: Item(id, j) !in Where(p, k)
  }

  lemma StillFree(p: map<nat, set<Place>>, q: map<nat, set<Place>>, id: nat, i: nat, mid: set<nat>, seen: set<nat>)
    requires Extends(p, q, Item(id, i), mid, seen) && id in mid && FreeFrom(p, id, i)
    ensures FreeFrom(q, id, i + 1)
  {
  }

  lemma ExtendsTwice(p: map<nat, set<Place>>, q: map<nat, set<Place>>, r: map<nat, set<Place>>, o: Place, o2: Place,
                     before: set<nat>, mid: set<nat>, seen: set<nat>)
    requires Extends(p, q, o, before, mid) && Extends(q, r, o2, mid, seen) && before <= mid <= seen
    requires o2 == o || (o2.Item? && o2.owner in mid && o2.owner !in before)
    ensures Extends(p, r, o, before, seen)
  {
  }

  lemma Stays(p: map<nat, set<Place>>, q: map<nat, set<Place>>, o: Place, before: set<nat>, seen: set<nat>, id: nat)
    requires Extends(p, q, o, before, seen)
    ensures Where(p, id) <= Where(q, id)
  {
  }

  // Objects have only been reached from the root or from objects that have been seen.
  ghost predicate FromSeen(p: map<nat, set<Place>>, seen: set<nat>) {
    forall id: nat, at | at in Where(p, id) :: at.Item? ==> at.owner in seen
  }

  lemma StillFresh(p: map<nat, set<Place>>, q: map<nat, set<Place>>, o: Place, seen: set<nat>)
    requires FromSeen(p, seen) && Extends(p, q, o, seen, seen) && (o.Item? ==> o.owner in seen)
    ensures FromSeen(q, seen)
  {
  }

  // The first items of `u` have been reached from it.
  ghost predicate Walked(heap: seq<Obj>, p: map<nat, set<Place>>, u: nat, upTo: nat, seen: set<nat>) {
    && u < |heap| && upTo <= |heap[u].items|
    && forall i: nat | i < upTo && heap[u].items[i].Ref? ::
         Item(u, i) in Where(p, heap[u].items[i].id) && heap[u].items[i].id in seen
  }

  ghost predicate AllWalked(heap: seq<Obj>, p: map<nat, set<Place>>, before: set<nat>, seen: set<nat>) {
    forall u | u in seen && u !in before :: u < |heap| && Walked(heap, p, u, |heap[u].items|, seen)
  }

  lemma WalkedStays(heap: seq<Obj>, p: map<nat, set<Place>>, q: map<nat, set<Place>>, o: Place, u: nat, upTo: nat,
                    mid: set<nat>, seen: set<nat>)
    requires Extends(p, q, o, mid, seen) && mid <= seen && Walked(heap, p, u, upTo, mid)
    ensures Walked(heap, q, u, upTo, seen)
  {
  }

  lemma AllWalkedOn(heap: seq<Obj>, p: map<nat, set<Place>>, q: map<nat, set<Place>>, o: Place,
                    before: set<nat>, mid: set<nat>, seen: set<nat>)
    requires Extends(p, q, o, mid, seen) && mid <= seen
    requires AllWalked(heap, p, before, mid) && AllWalked(heap, q, mid, seen)
    ensures AllWalked(heap, q, before, seen)
  {
    forall u | u in seen && u !in before ensures u < |heap| && Walked(heap, q, u, |heap[u].items|, seen) {
      if u in mid { WalkedStays(heap, p, q, o, u, |heap[u].items|, mid, seen); }
    }
  }

  // Item `i` of `u` has been reached too.
  lemma WalkedMore(heap: seq<Obj>, p: map<nat, set<Place>>, u: nat, i: nat, seen: set<nat>)
    requires Walked(heap, p, u, i, seen) && i < |heap[u].items|
    requires heap[u].items[i].Ref? ==> Item(u, i) in Where(p, heap[u].items[i].id) && heap[u].items[i].id in seen
    ensures Walked(heap, p, u, i + 1, seen)
  {
  }

  // With all of its items reached, an object joins those that have been walked.
  lemma WalkedSelf(heap: seq<Obj>, p: map<nat, set<Place>>, before: set<nat>, u: nat, seen: set<nat>)
    requires u < |heap| && Walked(heap, p, u, |heap[u].items|, seen) && AllWalked(heap, p, before + {u}, seen)
    ensures AllWalked(heap, p, before, seen)
  {
  }

  lemma ExtendsSelf(p: map<nat, set<Place>>, o: Place, before: set<nat>, seen: set<nat>)
    ensures Extends(p, p, o, before, seen)
  {
  }

  lemma ItemsBegin(heap: seq<Obj>, p: map<nat, set<Place>>, o: Place, id: nat, seen: set<nat>)
    requires id < |heap| && id !in seen && FromSeen(p, seen)
    ensures Extends(p, p, o, seen, seen + {id}) && FromSeen(p, seen + {id}) && FreeFrom(p, id, 0)
    ensures Walked(heap, p, id, 0, seen + {id}) && AllWalked(heap, p, seen + {id}, seen + {id})
  {
  }

  // An object has been given a name.
  predicate Own(heap: seq<Obj>, id: nat) {
    id < |heap| && heap[id].anchor.Some?
  }

  // A name that is used has been noted as taken; one that is not an object's own is no other's, and
  // no object that can be reached has it for its own.
  ghost predicate Named(heap: seq<Obj>, w: Writing, taken: set<string>, reachable: set<nat>) {
    && (forall id | id in w.names :: id in w.pos && (w.names[id] in taken || w.names[id] == ""))
    && (forall id | id in w.pos && Own(heap, id) :: id in w.names && w.names[id] == heap[id].anchor.value)
    && (forall a, b | a in w.names && b in w.names && w.names[a] == w.names[b] :: a == b || (Own(heap, a) && Own(heap, b)))
    && (forall id | id in w.names && w.names[id] == "" :: Own(heap, id))
    && (forall id, u | id in w.names && u in reachable && u < |heap| && heap[u].anchor == Some(w.names[id]) :: Own(heap, id))
  }

  // The name is the object's own, if it has one; otherwise no object has it or is to get it.
  ghost predicate NameFits(heap: seq<Obj>, names: map<nat, string>, reachable: set<nat>, id: nat, name: string) {
    && id < |heap|
    && if heap[id].anchor.Some? then heap[id].anchor.value == name
       else
         && name != "" && (forall a | a in names :: names[a] != name)
         && (forall u | u in reachable && u < |heap| :: heap[u].anchor != Some(name))
  }

  function Tally(shared: map<nat, nat>, id: nat): nat {
    if id in shared then shared[id] else 0
  }

  // An object has a name only if it was given one or is reached more than once.
  ghost predicate Deserved(heap: seq<Obj>, w: Writing, shared: map<nat, nat>) {
    forall id | id in w.names && id < |heap| :: heap[id].anchor.Some? || Tally(shared, id) > 1
  }

  // One of the places an object stands at has been written.
  ghost predicate ComeUpon(written: set<Place>, places: map<nat, set<Place>>, id: nat) {
    exists o :: o in written && o in Where(places, id)
  }

  // Objects written in full stand where they are said to; without a name only those that are
  // reached at one place, which has been written.
  ghost predicate Placed(w: Writing, written: set<Place>, places: map<nat, set<Place>>, shared: map<nat, nat>, reachable: set<nat>) {
    && |w.of| == |w.nodes|
    && (forall id | id in w.pos :: id in reachable && w.pos[id] < |w.nodes| && w.of[w.pos[id]] == Ref(id))
    && (forall id | id in w.pos && id !in w.names :: Tally(shared, id) <= 1 && ComeUpon(written, places, id))
    && (forall o | o in written :: o.Item? ==> o.owner in w.pos)
  }

  lemma PlacedMore(heap: seq<Obj>, w: Writing, written: set<Place>, places: map<nat, set<Place>>, shared: map<nat, nat>,
                   reachable: set<nat>, id: nat, name: Option<string>, o: Place)
    requires Placed(w, written, places, shared, reachable) && id < |heap| && id in reachable && id !in w.pos
    requires o in written && o in Where(places, id) && (name.None? ==> Tally(shared, id) <= 1)
    ensures Placed(WithObject(heap, w, id, name), written, places, shared, reachable)
  {
    assert ComeUpon(written, places, id);
  }

  lemma PlacedWider(w: Writing, before: set<Place>, written: set<Place>, places: map<nat, set<Place>>, shared: map<nat, nat>,
                    reachable: set<nat>)
    requires Placed(w, before, places, shared, reachable) && before <= written
    requires forall o | o in written && o !in before :: o.Item? ==> o.owner in w.pos
    ensures Placed(w, written, places, shared, reachable)
  {
    forall id | id in w.pos && id !in w.names ensures ComeUpon(written, places, id) {
      assert ComeUpon(before, places, id);
    }
  }

  // The places `written` is those written before, `o`, and places in objects written since.
  ghost predicate Since(before: set<Place>, keys: set<nat>, written: set<Place>, keys2: set<nat>, o: Place) {
    && before <= written && keys <= keys2
    && forall p | p in written :: p in before || p == o || (p.Item? && p.owner in keys2 && p.owner !in keys)
  }

  lemma SinceTwice(a: set<Place>, ka: set<nat>, b: set<Place>, kb: set<nat>, c: set<Place>, kc: set<nat>, o: Place, o2: Place)
    requires Since(a, ka, b, kb, o) && Since(b, kb, c, kc, o2)
    requires o2 == o || (o2.Item? && o2.owner in kb && o2.owner !in ka)
    ensures Since(a, ka, c, kc, o) && b <= c && ka <= kc
  {
  }

  lemma SinceSelf(a: set<Place>, k: set<nat>, k2: set<nat>, o: Place)
    requires k <= k2
    ensures Since(a, k, a, k2, o) && Since(a, k, a + {o}, k2, o)
  {
  }

  // The items of `id` from the `i`th on have not been written.
  ghost predicate Unwritten(written: set<Place>, id: nat, i: nat) {
    forall j: nat | i <= j :: Item(id, j) !in written
  }

  lemma StillUnwritten(a: set<Place>, ka: set<nat>, b: set<Place>, kb: set<nat>, id: nat, i: nat)
    requires Since(a, ka, b, kb, Item(id, i)) && id in ka && Unwritten(a, id, i)
    ensures Unwritten(b, id, i + 1) && id in kb && ka <= kb
  {
  }

  // The writing once an object's own node is there.
  function WithObject(heap: seq<Obj>, w: Writing, id: nat, name: Option<string>): Writing
    requires id < |heap|
  {
    Writing(w.nodes + [Collection(heap[id].isDict, name, [])], w.of + [Ref(id)], w.pos[id := |w.nodes|],
            if name.Some? then w.names[id := name.value] else w.names)
  }

  function WithLeaf(w: Writing, node: Node, v: Value): Writing {
    w.(nodes := w.nodes + [node], of := w.of + [v])
  }

  lemma NamedMore(heap: seq<Obj>, w: Writing, taken: set<string>, reachable: set<nat>, id: nat, name: Option<string>)
    requires Named(heap, w, taken, reachable) && id < |heap| && id !in w.names && id !in w.pos
    requires id in reachable
    requires if name.Some? then (name.value in taken || name.value == "") && NameFits(heap, w.names, reachable, id, name.value)
             else heap[id].anchor.None?
    ensures Named(heap, WithObject(heap, w, id, name), taken, reachable)
  {
  }

  lemma ObjectGrows(heap: seq<Obj>, w: Writing, id: nat, name: Option<string>)
    requires id < |heap| && heap[id].Valid() && id !in w.names && id !in w.pos && |w.of| == |w.nodes|
    ensures Grows(w, WithObject(heap, w, id, name)) && Partial(heap, WithObject(heap, w, id, name), id, |w.nodes|, 0)
  {
  }

  class Representer {
    const heap: seq<Obj>
    ghost const root: Value

    var nodes: seq<Node>
    var shared: map<nat, nat>
    var names: map<nat, string>
    var taken: set<string>
    var counter: nat

    // The places at which each object has been reached, and the objects that have been.
    ghost var places: map<nat, set<Place>>
    ghost var reachable: set<nat>

    // The value each node was written for, the node at which each object is written in full, and
    // the places written so far.
    ghost var of: seq<Value>
    ghost var pos: map<nat, nat>
    ghost var written: set<Place>

    constructor (heap: seq<Obj>, ghost root: Value)
      requires Closed(heap)
      ensures this.root == root && Genuine(heap, root, places)
      ensures this.heap == heap && nodes == [] && names == map[] && counter == 0
      ensures Counted() && FromSeen(places, {}) && NotYet(Root) && of == [] && pos == map[] && written == {}
    {
      this.heap, this.root := heap, root;
      nodes, shared, names, taken, counter := [], map[], map[], {}, 0;
      places := map[];
      reachable, of, pos, written := {}, [], map[], {};
    }

    // ---------------------------------------------------------------- the pre-pass

    ghost function All(): set<nat> {
      Ids(|heap|)
    }

    function Reached(id: nat): nat
      reads this`shared
    {
      Tally(shared, id)
    }

    ghost function At(id: nat): set<Place>
      reads this`places
    {
      Where(places, id)
    }

    // The count of an object is the number of places it has been reached at.
    ghost predicate Counted()
      reads this`shared, this`places
    {
      forall id: nat :: |At(id)| == Reached(id)
    }

    ghost predicate NotYet(o: Place)
      reads this`places
    {
      forall id: nat :: o !in At(id)
    }

    // The own names of the objects seen are taken, but for an empty one.
    ghost predicate Taken(seen: set<nat>)
      reads this`taken
    {
      forall u | u in seen && Own(heap, u) :: heap[u].anchor.value in taken || heap[u].anchor.value == ""
    }

    // Counts the places at which each object stands, and collects the names in use.
    method Scan(v: Value, seen: set<nat>, ghost o: Place) returns (seen2: set<nat>)
      requires Closed(heap) && In(v, |heap|) && seen <= All()
      requires Counted() && FromSeen(places, seen) && NotYet(o) && (o.Item? ==> o.owner in seen) && Taken(seen)
      requires Genuine(heap, root, places) && (v.Ref? ==> Stands(heap, root, v.id, o))
      modifies this`shared, this`taken, this`places
      ensures Counted() && FromSeen(places, seen2) && seen <= seen2 <= All() && Taken(seen2)
      ensures Extends(old(places), places, o, seen, seen2) && AllWalked(heap, places, seen, seen2) && old(taken) <= taken
      ensures v.Ref? ==> o in At(v.id) && v.id in seen2
      ensures Genuine(heap, root, places) && Reaches(heap, seen, v, seen2)
      decreases All() - seen, 1
    {
      hide Closed, Extends, FromSeen, Genuine, Stands, Reaches;
      ReachesSelf(heap, seen, v);
      ExtendsSelf(places, o, seen, seen);
      if v.Atom? {
        return seen;
      }
      var id := v.id;
      if heap[id].anchor.Some? && heap[id].anchor.value != "" {
        taken := taken + {heap[id].anchor.value};
      }
      ghost var before := places;
      Reach(id, o, seen);
      StillFresh(before, places, o, seen);
      if id in seen {
        return seen;
      }
      ghost var mid := places;
      seen2 := ScanItems(id, seen, o);
      ExtendsTwice(before, mid, places, o, o, seen, seen, seen2);
      Stays(mid, places, o, seen, seen2, id);
    }

    // One more place at which an object stands.
    method Reach(id: nat, ghost o: Place, ghost seen: set<nat>)
      requires Counted() && NotYet(o) && Genuine(heap, root, places) && Stands(heap, root, id, o)
      modifies this`shared, this`places
      ensures Genuine(heap, root, places)
      ensures Counted() && o in At(id) && Extends(old(places), places, o, seen, seen)
    {
      hide Stands;
      shared := shared[id := Reached(id) + 1];
      places := places[id := At(id) + {o}];
      GenuineMore(heap, root, old(places), places, id, o);
      forall k: nat ensures |At(k)| == Reached(k) {
        if k != id { assert At(k) == old(At(k)); }
      }
    }

    method ScanItems(id: nat, seen: set<nat>, ghost o: Place) returns (seen2: set<nat>)
      requires Closed(heap) && id < |heap| && seen <= All() && id !in seen
      requires Counted() && FromSeen(places, seen) && (o.Item? ==> o.owner in seen) && Taken(seen)
      requires (Own(heap, id) ==> heap[id].anchor.value in taken || heap[id].anchor.value == "") && Genuine(heap, root, places)
      modifies this`shared, this`taken, this`places
      ensures Counted() && FromSeen(places, seen2) && seen + {id} <= seen2 <= All() && Taken(seen2)
      ensures Extends(old(places), places, o, seen, seen2) && AllWalked(heap, places, seen, seen2) && old(taken) <= taken
      ensures Genuine(heap, root, places) && Reaches(heap, seen, Ref(id), seen2)
      decreases All() - seen, 0
    {
      hide Closed, Extends, FromSeen, FreeFrom, Walked, AllWalked, Genuine, Reaches, Counted;
      ReachesSelf(heap, seen, Ref(id));
      var items := heap[id].items;
      seen2 := seen + {id};
      var i: nat := 0;
      ItemsBegin(heap, places, o, id, seen);
      while i < |items|
        invariant i <= |items| && seen + {id} <= seen2 <= All()
        invariant Counted() && FromSeen(places, seen2) && Taken(seen2) && old(taken) <= taken
        invariant Extends(old(places), places, o, seen, seen2) && AllWalked(heap, places, seen + {id}, seen2) && Walked(heap, places, id, i, seen2)
        invariant FreeFrom(places, id, i) && Genuine(heap, root, places) && Reaches(heap, seen, Ref(id), seen2)
      {
        ghost var before, mid := places, seen2;
        ItemWithin(id, i);
        FreeNow(id, i);
        seen2 := Scan(items[i], seen2, Item(id, i));
        ExtendsTwice(old(places), before, places, o, Item(id, i), seen, mid, seen2);
        StillFree(before, places, id, i, mid, seen2);
        AllWalkedOn(heap, before, places, Item(id, i), seen + {id}, mid, seen2);
        WalkedStays(heap, before, places, Item(id, i), id, i, mid, seen2);
        WalkedMore(heap, places, id, i, seen2);
        ReachesItem(heap, seen, id, mid, i, seen2);
        i := i + 1;
      }
      WalkedSelf(heap, places, seen, id, seen2);
    }

    lemma ItemWithin(id: nat, i: nat)
      requires Closed(heap) && id < |heap| && i < |heap[id].items|
      ensures In(heap[id].items[i], |heap|)
    {
    }

    lemma FreeNow(id: nat, i: nat)
      requires FreeFrom(places, id, i)
      ensures NotYet(Item(id, i))
    {
    }

    // ---------------------------------------------------------------- names

    // The next generated name that is not in use.
    method Generate() returns (name: string)
      modifies this`counter, this`taken
      ensures name !in old(taken) && taken == old(taken) + {name} && name != ""
    {
      ghost var left := taken;
      while true
        invariant taken == old(taken)
        invariant forall m: nat | m > counter && Generated(m) in taken :: Generated(m) in left
        decreases left
      {
        counter := counter + 1;
        name := Generated(counter);
        if name !in taken {
          taken := taken + {name};
          return;
        }
        forall m: nat | m > counter && Generated(m) in taken ensures Generated(m) in left - {name} {
          if Generated(m) == name { GeneratedDistinct(m, counter); }
        }
        left := left - {name};
      }
    }

    // ---------------------------------------------------------------- the walk

    ghost function Now(): Writing
      reads this`nodes, this`of, this`pos, this`names
    {
      ObjectGraph.Writing(nodes, of, pos, names)
    }

    lemma InHeap(id: nat)
      requires Ready() && id in names
      ensures id in pos
      ensures id < |heap| && pos[id] < |nodes| == |of|
    {
    }

    // What the pre-pass has found out.
    ghost predicate Known()
      reads this`places, this`shared, this`reachable, this`taken
    {
      && Closed(heap) && reachable <= All() && Counted() && AllWalked(heap, places, {}, reachable) && Taken(reachable)
      && Genuine(heap, root, places)
    }

    ghost predicate Ready()
      reads this
    {
      && Known() && Named(heap, Now(), taken, reachable) && Placed(Now(), written, places, shared, reachable)
      && Deserved(heap, Now(), shared)
    }

    // An object that has no name when it is come upon has not been written.
    lemma NotWritten(id: nat, o: Place)
      requires Ready() && o !in written && o in At(id) && id !in names
      ensures id !in pos
    {
      if id in pos {
        var o2 :| o2 in written && o2 in At(id);
        TwoPlaces(At(id), o, o2);
      }
    }

    method AddScalar(text: string) returns (index: nat)
      requires Ready()
      modifies this`nodes, this`of
      ensures Ready() && Wrote(heap, old(Now()), Now(), index, Atom(text))
    {
      hide Known, Named, Deserved, Writing.Says, Tree, Grows;
      index := |nodes|;
      AddLeaf(Scalar(text), Atom(text));
      LeafWrites(old(Now()), Scalar(text), Atom(text));
    }

    method AddAlias(id: nat) returns (index: nat)
      requires Ready() && id in names
      modifies this`nodes, this`of
      ensures Ready() && Wrote(heap, old(Now()), Now(), index, Ref(id))
    {
      hide Known, Named, Deserved, Writing.Says, Tree, Grows;
      index := |nodes|;
      InHeap(id);
      AddLeaf(Alias(names[id]), Ref(id));
      LeafWrites(old(Now()), Alias(names[id]), Ref(id));
    }

    // What names and places say does not depend on what the nodes are.
    lemma NodesOnly(a: Writing, b: Writing)
      requires b == a.(nodes := b.nodes, of := b.of) && (|a.of| == |a.nodes| ==> |b.of| == |b.nodes| >= |a.nodes|) && a.of <= b.of
      ensures Named(heap, a, taken, reachable) ==> Named(heap, b, taken, reachable)
      ensures Deserved(heap, a, shared) ==> Deserved(heap, b, shared)
      ensures Placed(a, written, places, shared, reachable) ==> Placed(b, written, places, shared, reachable)
    {
    }

    lemma LeafWrites(a: Writing, node: Node, v: Value)
      requires |a.of| == |a.nodes| && !node.Collection?
      requires match v
               case Atom(text) => node == Scalar(text)
               case Ref(id) => id < |heap| && id in a.pos && a.pos[id] < |a.nodes| && id in a.names && node == Alias(a.names[id])
      ensures Wrote(heap, a, WithLeaf(a, node, v), |a.nodes|, v)
    {
    }

    // A node without children, at the end.
    method AddLeaf(node: Node, ghost v: Value)
      requires Ready()
      modifies this`nodes, this`of
      ensures Ready() && Now() == WithLeaf(old(Now()), node, v)
    {
      hide Known, Named, Deserved, Placed;
      NodesOnly(Now(), WithLeaf(Now(), node, v));
      nodes := nodes + [node];
      of := of + [v];
    }

    // The name an object gets: its own, or a generated one if it is reached more than once.
    method ChooseName(id: nat) returns (name: Option<string>)
      requires Ready() && id in reachable && id !in pos && id !in names
      modifies this`counter, this`taken
      ensures Ready() && old(taken) <= taken
      ensures name.Some? ==> (name.value in taken || name.value == "") && NameFits(heap, names, reachable, id, name.value)
      ensures if name.None? then Reached(id) <= 1 && heap[id].anchor.None? else heap[id].anchor.Some? || Reached(id) > 1
    {
      name := heap[id].anchor;
      OwnNameFits(id);
      if name.None? && Reached(id) > 1 {
        var n := Generate();
        name := Some(n);
      }
    }

    lemma OwnNameFits(id: nat)
      requires Ready() && id in reachable && id !in names
      ensures id < |heap|
      ensures heap[id].anchor.Some? ==>
                (heap[id].anchor.value in taken || heap[id].anchor.value == "") && NameFits(heap, names, reachable, id, heap[id].anchor.value)
    {
    }

    // Writes an object's own node, with nothing in it yet. Its name is recorded before what it
    // holds is walked.
    method OpenObject(id: nat, name: Option<string>, ghost o: Place) returns (index: nat)
      requires Ready() && id in reachable && id !in pos && id !in names && o in written && o in At(id)
      requires id < |heap|
      requires if name.Some? then (name.value in taken || name.value == "") && NameFits(heap, names, reachable, id, name.value)
               else Reached(id) <= 1 && heap[id].anchor.None?
      requires name.Some? ==> heap[id].anchor.Some? || Reached(id) > 1
      modifies this`nodes, this`of, this`pos, this`names
      ensures Ready() && index == |old(nodes)| && Now() == WithObject(heap, old(Now()), id, name)
    {
      hide Known, Named, NameFits, Placed, Where;
      NamedMore(heap, Now(), taken, reachable, id, name);
      PlacedMore(heap, Now(), written, places, shared, reachable, id, name, o);
      index := |nodes|;
      if name.Some? {
        names := names[id := name.value];
      }
      nodes := nodes + [Collection(heap[id].isDict, name, [])];
      of := of + [Ref(id)];
      pos := pos[id := index];
    }

    // Appends the nodes of a value, as an alias when it is an object already written, and gives
    // back the index of the first of them.
    method Emit(v: Value, ghost o: Place) returns (index: nat)
      requires Ready() && o !in written && (o.Item? ==> o.owner in pos)
      requires v.Ref? ==> o in At(v.id) && v.id in reachable
      modifies this`nodes, this`of, this`pos, this`names, this`written, this`taken, this`counter
      ensures Ready() && Wrote(heap, old(Now()), Now(), index, v)
      ensures Since(old(written), old(pos.Keys), written, pos.Keys, o) && o in written
      decreases All() - pos.Keys, 2
    {
      hide Known, Named, NameFits, Tree, Writing.Says, Grows, Placed, Wrote, Since;
      if v.Ref? && v.id !in names {
        NotWritten(v.id, o);
      }
      Come(o);
      SinceSelf(old(written), pos.Keys, pos.Keys, o);
      match v {
        case Atom(text) =>
          index := AddScalar(text);
        case Ref(id) =>
          if id in names {
            index := AddAlias(id);
          } else {
            ValidObject(id);
            var name := ChooseName(id);
            index := WriteObject(id, name, o);
            SinceTwice(old(written), old(pos.Keys), old(written) + {o}, old(pos.Keys), written, pos.Keys, o, o);
          }
      }
    }

    method Come(ghost o: Place)
      requires Ready() && (o.Item? ==> o.owner in pos)
      modifies this`written
      ensures Ready() && written == old(written) + {o}
    {
      hide Known, Named;
      ghost var before := written;
      written := written + {o};
      PlacedWider(Now(), before, written, places, shared, reachable);
    }

    method WriteObject(id: nat, name: Option<string>, ghost o: Place) returns (index: nat)
      requires Ready() && id in reachable && id !in pos && id !in names && o in written && o in At(id) && id < |heap|
      requires if name.Some? then (name.value in taken || name.value == "") && NameFits(heap, names, reachable, id, name.value)
               else Reached(id) <= 1 && heap[id].anchor.None?
      requires name.Some? ==> heap[id].anchor.Some? || Reached(id) > 1
      modifies this`nodes, this`of, this`pos, this`names, this`written, this`taken, this`counter
      ensures Ready() && Wrote(heap, old(Now()), Now(), index, Ref(id))
      ensures Since(old(written), old(pos.Keys), written, pos.Keys, o)
      decreases All() - pos.Keys, 1
    {
      hide Known, Named, NameFits, Tree, Forest, Writing.Says, Grows, Placed, Partial, Since, Unwritten;
      NothingWritten(id);
      ValidObject(id);
      ObjectGrows(heap, Now(), id, name);
      index := OpenObject(id, name, o);
      SinceSelf(written, old(pos.Keys), pos.Keys, o);
      var i: nat := 0;
      while i < |heap[id].items|
        invariant i <= |heap[id].items| && Ready() && Partial(heap, Now(), id, index, i)
        invariant index < |nodes| && old(nodes) == nodes[..index] && Grows(old(Now()), Now())
        invariant id in pos && id in All() && old(pos.Keys) <= pos.Keys && id !in old(pos.Keys) && Since(old(written), old(pos.Keys), written, pos.Keys, o) && Unwritten(written, id, i)
      {
        ghost var w, ps, ks := Now(), written, pos.Keys;
        WriteItem(id, index, i);
        GrowsTwice(old(Now()), w, Now());
        SinceTwice(old(written), old(pos.Keys), ps, ks, written, pos.Keys, o, Item(id, i));
        i := i + 1;
      }
      PartialDone(heap, Now(), id, index);
    }

    lemma NothingWritten(id: nat)
      requires Placed(Now(), written, places, shared, reachable) && id !in pos
      ensures Unwritten(written, id, 0)
    {
    }

    lemma ValidObject(id: nat)
      requires Ready() && id in reachable
      ensures id < |heap| && heap[id].Valid() && Walked(heap, places, id, |heap[id].items|, reachable)
      ensures |of| == |nodes|
    {
    }

    // The pre-pass is over and nothing has been written.
    method Begin(ghost seen: set<nat>)
      requires Closed(heap) && seen <= All() && Counted() && AllWalked(heap, places, {}, seen) && Taken(seen)
      requires Genuine(heap, root, places)
      requires nodes == [] && of == [] && pos == map[] && names == map[] && written == {}
      modifies this`reachable
      ensures Ready() && reachable == seen
    {
      reachable := seen;
    }

    // One item, behind its key in a dict, and its place among the children.
    method WriteItem(id: nat, index: nat, i: nat)
      requires Ready() && id in pos && id in reachable && id < |heap| && i < |heap[id].items|
      requires Partial(heap, Now(), id, index, i) && index < |nodes| && Unwritten(written, id, i)
      modifies this`nodes, this`of, this`pos, this`names, this`written, this`taken, this`counter
      ensures Ready() && Partial(heap, Now(), id, index, i + 1)
      ensures index < |nodes| && old(nodes)[..index] == nodes[..index] && Grows(old(Now()), Now())
      ensures Since(old(written), old(pos.Keys), written, pos.Keys, Item(id, i)) && Unwritten(written, id, i + 1) && id in pos
      ensures old(pos.Keys) <= pos.Keys
      decreases All() - pos.Keys, 4
    {
      hide Known, Named, NameFits, Tree, Forest, Writing.Says, Grows, Placed, Partial, Wrote, Since, Unwritten, Adds;
      ValidObject(id);
      ItemPlace(id, i);
      FirstUnwritten(id, i);
      ghost var a := Now();
      var more;
      if heap[id].isDict {
        more := WriteEntry(id, i);
      } else {
        var item := Emit(heap[id].items[i], Item(id, i));
        AddsOne(heap, a, Now(), heap[id], i, item);
        more := [item];
      }
      ghost var b := Now();
      PartialShape(heap, a, id, index, i);
      AddsKeeps(heap[id], a, b, i, more, index);
      PartialMore(heap, a, b, id, index, i, more);
      AddChildren(index, more);
      StillUnwritten(old(written), old(pos.Keys), written, pos.Keys, id, i);
      ChildrenGrow(heap, a, b, index, more);
    }

    lemma ItemPlace(id: nat, i: nat)
      requires Ready() && id in reachable && id < |heap| && i < |heap[id].items|
      ensures var v := heap[id].items[i]; v.Ref? ==> Item(id, i) in At(v.id) && v.id in reachable
    {
    }

    lemma FirstUnwritten(id: nat, i: nat)
      requires Unwritten(written, id, i)
      ensures Item(id, i) !in written
    {
    }

    method AddChildren(index: nat, more: seq<nat>)
      requires Ready() && index < |nodes| && nodes[index].Collection?
      modifies this`nodes
      ensures Ready() && Now() == WithChildren(old(Now()), index, more)
    {
      hide Known, Named, Deserved, Placed;
      NodesOnly(Now(), WithChildren(Now(), index, more));
      nodes := nodes[index := nodes[index].(children := nodes[index].children + more)];
    }

    // A key and the value behind it.
    method WriteEntry(id: nat, i: nat) returns (more: seq<nat>)
      requires Ready() && id in pos && id in reachable && id < |heap| && i < |heap[id].items|
      requires heap[id].isDict && Item(id, i) !in written
      modifies this`nodes, this`of, this`pos, this`names, this`written, this`taken, this`counter
      ensures Ready() && Adds(heap[id], old(Now()), Now(), i, more)
      ensures forall j | |old(Now()).nodes| <= j < |nodes| :: Now().Says(heap, j)
      ensures Since(old(written), old(pos.Keys), written, pos.Keys, Item(id, i))
      decreases All() - pos.Keys, 3
    {
      hide Known, Named, NameFits, Tree, Forest, Writing.Says, Grows, Placed, Partial, Wrote, Since, Adds;
      ValidObject(id);
      ItemPlace(id, i);
      ghost var a := Now();
      var key := AddScalar(heap[id].keys[i]);
      ghost var m := Now();
      var item := Emit(heap[id].items[i], Item(id, i));
      AddsTwo(heap, a, m, Now(), heap[id], i, key, item);
      more := [key, item];
    }
  }

  // What a finished arena is: a tree in pre-order whose nodes say what they were written for, the
  // first of them for the root. Objects keep the names they were given, and the names of the others
  // are not empty and no other object's.
  ghost predicate Arena(heap: seq<Obj>, w: Writing, root: Value) {
    && Tree(w.nodes, 0, |w.nodes|) && |w.of| == |w.nodes| && w.of[0] == root
    && (forall j | 0 <= j < |w.nodes| :: w.Says(heap, j))
    && (forall id | id in w.pos :: w.pos[id] < |w.nodes| && w.of[w.pos[id]] == Ref(id))
    && (forall id | id in w.pos && Own(heap, id) :: w.NameOf(id) == heap[id].anchor)
    && (forall a, b | a in w.names && b in w.names && w.names[a] == w.names[b] :: a == b || (Own(heap, a) && Own(heap, b)))
    && (forall id | id in w.names && w.names[id] == "" :: Own(heap, id))
  }

  // An object is named exactly when it was given a name or stands at more than one place; `places`
  // are all the places at which anything that is written stands.
  ghost predicate NamedWhenShared(heap: seq<Obj>, w: Writing, root: Value, places: map<nat, set<Place>>) {
    && (forall id | id in w.pos && id < |heap| :: id in w.names <==> heap[id].anchor.Some? || |Where(places, id)| > 1)
    && (forall id: nat, at | id in w.pos ::
          at in Where(places, id) <==> Stands(heap, root, id, at) && (at.Item? ==> at.owner in w.pos))
  }

  // Writes the graph that hangs from `root`.
  method Represent(heap: seq<Obj>, root: Value) returns (nodes: seq<Node>, ghost w: Writing, ghost places: map<nat, set<Place>>)
    requires Closed(heap) && In(root, |heap|)
    ensures w.nodes == nodes && Arena(heap, w, root) && NamedWhenShared(heap, w, root, places)
  {
    hide Closed, Tree, Writing.Says, Grows, AllWalked, FromSeen, NamedWhenShared, Genuine;
    var r := new Representer(heap, root);
    var seen := r.Scan(root, {}, Root);
    r.Begin(seen);
    var index := r.Emit(root, Root);
    nodes := r.nodes;
    w := r.Now();
    places := r.places;
    Finished(r, root);
    AllReached(r, seen);
  }

  // What was found by the pre-pass is what has been written.
  lemma ReachedWritten(heap: seq<Obj>, w: Writing, root: Value, seen: set<nat>)
    requires Arena(heap, w, root) && Reaches(heap, {}, root, seen)
    ensures seen <= w.pos.Keys
  {
    assert w.Says(heap, 0);
    forall id, i | id in w.pos && id < |heap| && 0 <= i < |heap[id].items| && heap[id].items[i].Ref?
      ensures heap[id].items[i].id in w.pos
    {
      assert w.Says(heap, w.pos[id]);
      var children := w.nodes[w.pos[id]].children;
      assert w.Says(heap, if heap[id].isDict then children[2 * i + 1] else children[i]);
    }
    assert ClosedUnder(heap, w.pos.Keys);
  }

  // The places counted are those at which the object stands.
  lemma PlacesExact(heap: seq<Obj>, root: Value, places: map<nat, set<Place>>, seen: set<nat>, id: nat, at: Place)
    requires Genuine(heap, root, places) && FromSeen(places, seen) && AllWalked(heap, places, {}, seen)
    requires root.Ref? ==> Root in Where(places, root.id)
    ensures at in Where(places, id) <==> Stands(heap, root, id, at) && (at.Item? ==> at.owner in seen)
  {
    if at.Item? && at.owner in seen && Stands(heap, root, id, at) {
      assert Walked(heap, places, at.owner, |heap[at.owner].items|, seen);
    }
  }

  lemma AllReached(r: Representer, seen: set<nat>)
    requires r.Ready() && Arena(r.heap, r.Now(), r.root) && r.reachable == seen
    requires Reaches(r.heap, {}, r.root, seen) && FromSeen(r.places, seen)
    requires r.root.Ref? ==> Root in r.At(r.root.id)
    ensures NamedWhenShared(r.heap, r.Now(), r.root, r.places)
  {
    hide Arena, Reaches, Closed, Genuine, FromSeen, AllWalked, Stands, Where, Tally;
    ReachedWritten(r.heap, r.Now(), r.root, seen);
    assert r.pos.Keys == seen;
    forall id: nat, at | id in r.pos
      ensures at in Where(r.places, id) <==> Stands(r.heap, r.root, id, at) && (at.Item? ==> at.owner in r.pos)
    {
      PlacesExact(r.heap, r.root, r.places, seen, id, at);
    }
    forall id | id in r.pos && id < |r.heap|
      ensures id in r.names <==> r.heap[id].anchor.Some? || |Where(r.places, id)| > 1
    {
      assert |r.At(id)| == r.Reached(id);
    }
  }

  lemma Finished(r: Representer, root: Value)
    requires r.Ready() && Wrote(r.heap, Writing([], [], map[], map[]), r.Now(), 0, root)
    ensures Arena(r.heap, r.Now(), root)
  {
  }

  lemma TwoPlaces(s: set<Place>, a: Place, b: Place)
    requires a in s && b in s && a != b
    ensures |s| >= 2
  {
    assert a in s - {b};
    assert |s - {b}| >= 1;
  }
}
