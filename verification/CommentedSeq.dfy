// A list and, beside it, the records of the comments written against its elements
// (python/yamluna/comments.py).
module CommentedSeq {
  import opened Results

  // An element with its record.
  datatype Slot<T, R> = Slot(item: T, record: Option<R>)

  // ------------------------------------------------------------------ Python's positions

  // An index, negative ones counted from the end; None when it is out of range.
  function At(i: int, n: nat): (r: Option<nat>)
    ensures r.Some? ==> r.value < n
  {
    var k := if i < 0 then i + n else i;
    if 0 <= k < n then Some(k) else None
  }

  // A position brought into range, as `insert` and slices do.
  function Clip(i: int, n: nat): (r: nat)
    ensures r <= n
  {
    var k := if i < 0 then i + n else i;
    if k < 0 then 0 else if k > n then n else k
  }

  // How many positions the slice `a:b` of a list of `n` covers.
  function Width(a: int, b: int, n: nat): (w: nat)
    ensures Clip(a, n) + w <= n
  {
    if Clip(b, n) > Clip(a, n) then Clip(b, n) - Clip(a, n) else 0
  }

  // `s[a:b] = vs`.
  function Splice<X>(s: seq<X>, a: int, b: int, vs: seq<X>): (r: seq<X>)
    ensures |r| == |s| - Width(a, b, |s|) + |vs|
  {
    var lo := Clip(a, |s|);
    s[..lo] + vs + s[lo + Width(a, b, |s|)..]
  }

  function Without<X>(s: seq<X>, i: nat): seq<X>
    requires i < |s|
  {
    s[..i] + s[i + 1..]
  }

  function Inserted<X>(s: seq<X>, i: int, x: X): seq<X> {
    s[..Clip(i, |s|)] + [x] + s[Clip(i, |s|)..]
  }

  function Reversed<X>(s: seq<X>): (r: seq<X>)
    ensures |r| == |s| && forall k | 0 <= k < |s| :: r[k] == s[|s| - 1 - k]
  {
    seq(|s|, k requires 0 <= k < |s| => s[|s| - 1 - k])
  }

  function First<X(==)>(s: seq<X>, x: X): (i: nat)
    ensures i <= |s| && x !in s[..i]
    ensures i < |s| ==> s[i] == x
    ensures i == |s| ==> x !in s
  {
    if s == [] || s[0] == x then 0 else 1 + First(s[1..], x)
  }

  // ------------------------------------------------------------------ sorting positions

  // Whether position `i` is sorted in front of `j`: by its key, and among equal keys by where it is.
  predicate Ahead(keys: seq<int>, reverse: bool, i: nat, j: nat)
    requires i < |keys| && j < |keys|
  {
    if keys[i] == keys[j] then i < j else (keys[i] < keys[j]) != reverse
  }

  predicate Positions(order: seq<nat>, n: nat) {
    forall k | 0 <= k < |order| :: order[k] < n
  }

  function Placed(keys: seq<int>, reverse: bool, x: nat, order: seq<nat>): (r: seq<nat>)
    requires x < |keys| && Positions(order, |keys|)
    ensures |r| == |order| + 1 && Positions(r, |keys|)
  {
    if order == [] || Ahead(keys, reverse, x, order[0]) then [x] + order
    else [order[0]] + Placed(keys, reverse, x, order[1..])
  }

  // `sorted(range(n), key=...)`.
  function Order(keys: seq<int>, reverse: bool, n: nat): (r: seq<nat>)
    requires n <= |keys|
    ensures |r| == n && Positions(r, |keys|)
  {
    if n == 0 then [] else Placed(keys, reverse, n - 1, Order(keys, reverse, n - 1))
  }

  function Picked<X>(s: seq<X>, order: seq<nat>): (r: seq<X>)
    requires Positions(order, |s|)
    ensures |r| == |order| && forall k | 0 <= k < |order| :: r[k] == s[order[k]]
  {
    seq(|order|, k requires 0 <= k < |order| => s[order[k]])
  }

  ghost predicate InOrder(keys: seq<int>, reverse: bool, order: seq<nat>)
    requires Positions(order, |keys|)
  {
    forall a, b | 0 <= a < b < |order| :: Ahead(keys, reverse, order[a], order[b])
  }

  lemma {:induction false} PlacedInOrder(keys: seq<int>, reverse: bool, x: nat, order: seq<nat>)
    requires x < |keys| && Positions(order, |keys|) && InOrder(keys, reverse, order) && x !in order
    ensures var r := Placed(keys, reverse, x, order);
            InOrder(keys, reverse, r) && forall y :: y in r <==> y == x || y in order
  {
    if order != [] && !Ahead(keys, reverse, x, order[0]) {
      PlacedInOrder(keys, reverse, x, order[1..]);
      assert order == [order[0]] + order[1..];
      var r := Placed(keys, reverse, x, order[1..]);
      forall b | 0 <= b < |r| ensures Ahead(keys, reverse, order[0], r[b]) {
        assert r[b] in r;
      }
    }
  }

  // The order is stable: it puts all positions in it once, by key and then by where they were.
  lemma {:induction false} OrderSorts(keys: seq<int>, reverse: bool, n: nat)
    requires n <= |keys|
    ensures InOrder(keys, reverse, Order(keys, reverse, n))
    ensures forall y: nat :: y in Order(keys, reverse, n) <==> y < n
  {
    if n > 0 {
      OrderSorts(keys, reverse, n - 1);
      PlacedInOrder(keys, reverse, n - 1, Order(keys, reverse, n - 1));
    } else {
      assert Order(keys, reverse, n) == [];
    }
  }

  lemma PickedCons<X>(s: seq<X>, x: nat, order: seq<nat>)
    requires x < |s| && Positions(order, |s|)
    ensures multiset(Picked(s, [x] + order)) == multiset{s[x]} + multiset(Picked(s, order))
  {
    assert Picked(s, [x] + order) == [s[x]] + Picked(s, order);
  }

  lemma {:induction false} PlacedPicks<X>(s: seq<X>, keys: seq<int>, reverse: bool, x: nat, order: seq<nat>)
    requires |keys| == |s| && x < |keys| && Positions(order, |keys|)
    ensures multiset(Picked(s, Placed(keys, reverse, x, order))) == multiset(Picked(s, order)) + multiset{s[x]}
  {
    hide Picked, Ahead;
    if order == [] || Ahead(keys, reverse, x, order[0]) {
      PickedCons(s, x, order);
    } else {
      assert order == [order[0]] + order[1..];
      PlacedPicks(s, keys, reverse, x, order[1..]);
      PickedCons(s, order[0], Placed(keys, reverse, x, order[1..]));
      PickedCons(s, order[0], order[1..]);
    }
  }

  lemma Longer<X>(s: seq<X>, n: nat)
    requires n < |s|
    ensures multiset(s[..n + 1]) == multiset(s[..n]) + multiset{s[n]}
  {
    assert s[..n + 1] == s[..n] + [s[n]];
  }

  lemma {:induction false} OrderPicks<X>(s: seq<X>, keys: seq<int>, reverse: bool, n: nat)
    requires |keys| == |s| && n <= |s|
    ensures multiset(Picked(s, Order(keys, reverse, n))) == multiset(s[..n])
  {
    if n == 0 {
      assert Picked(s, []) == s[..0];
    } else {
      hide Picked, Placed;
      OrderPicks(s, keys, reverse, n - 1);
      PlacedPicks(s, keys, reverse, n - 1, Order(keys, reverse, n - 1));
      Longer(s, n - 1);
    }
  }

  // ------------------------------------------------------------------ operations on slots

  function Bare<T, R>(items: seq<T>): (r: seq<Slot<T, R>>)
    ensures |r| == |items| && forall k | 0 <= k < |r| :: r[k] == Slot(items[k], None)
  {
    seq(|items|, k requires 0 <= k < |items| => Slot(items[k], None))
  }

  function Zipped<T, R>(items: seq<T>, store: seq<Option<R>>): (r: seq<Slot<T, R>>)
    requires |items| == |store|
    ensures |r| == |items| && forall k | 0 <= k < |r| :: r[k] == Slot(items[k], store[k])
  {
    seq(|items|, k requires 0 <= k < |items| => Slot(items[k], store[k]))
  }

  function Items<T, R>(slots: seq<Slot<T, R>>): (r: seq<T>)
    ensures |r| == |slots| && forall k | 0 <= k < |r| :: r[k] == slots[k].item
  {
    seq(|slots|, k requires 0 <= k < |slots| => slots[k].item)
  }

  function Keys<T>(items: seq<T>, key: T -> int): (r: seq<int>)
    ensures |r| == |items| && forall k | 0 <= k < |r| :: r[k] == key(items[k])
  {
    seq(|items|, k requires 0 <= k < |items| => key(items[k]))
  }

  function Nones<R>(n: nat): (r: seq<Option<R>>)
    ensures |r| == n && forall k | 0 <= k < n :: r[k] == None
  {
    seq(n, _ => None)
  }

  datatype Act<!T> =
    | Insert(i: int, value: T)
    | Append(value: T)
    | Extend(values: seq<T>)
    | Delete(i: int)
    | DeleteSlice(a: int, b: int)
    | Remove(value: T)
    | Clear
    | Reverse
    | Sort(key: T -> int, reverse: bool)
    | Assign(a: int, b: int, values: seq<T>)
    | Set(i: int, value: T)

  // What an operation does to elements and records together. One that raises changes nothing.
  function Do<T(==), R>(s: seq<Slot<T, R>>, act: Act<T>): seq<Slot<T, R>> {
    match act
    case Insert(i, value) => Inserted(s, i, Slot(value, None))
    case Append(value) => s + [Slot(value, None)]
    case Extend(values) => s + Bare(values)
    case Delete(i) => if At(i, |s|).Some? then Without(s, At(i, |s|).value) else s
    case DeleteSlice(a, b) => Splice(s, a, b, [])
    case Remove(value) => var i := First(Items(s), value); if i < |s| then Without(s, i) else s
    case Clear => []
    case Reverse => Reversed(s)
    case Sort(key, reverse) => Picked(s, Order(Keys(Items(s), key), reverse, |s|))
    case Assign(a, b, values) => Splice(s, a, b, Bare(values))
    case Set(i, value) => if At(i, |s|).Some? then s[At(i, |s|).value := s[At(i, |s|).value].(item := value)] else s
  }

  function Run<T(==), R>(s: seq<Slot<T, R>>, acts: seq<Act<T>>): seq<Slot<T, R>>
    decreases |acts|
  {
    if acts == [] then s else Run(Do(s, acts[0]), acts[1..])
  }

  // ------------------------------------------------------------------ where a value goes

  // A value is put in front of the element at the position given, which is counted from the end when it
  // is negative; in front of everything or at the end when there is none there. It has no record, and
  // everything else stays in order.
  lemma InsertedThere<T, R>(s: seq<Slot<T, R>>, i: int, value: T)
    ensures var n, r := |s|, Do(s, Insert(i, value));
            && |r| == n + 1
            && (0 <= i < n ==> r[i] == Slot(value, None) && r[i + 1] == s[i])
            && (-n <= i < 0 ==> r[n + i] == Slot(value, None) && r[n + i + 1] == s[n + i])
            && (i < -n ==> r[0] == Slot(value, None) && r[1..] == s)
            && (i >= n ==> r[n] == Slot(value, None) && r[..n] == s)
    ensures var r := Do(s, Insert(i, value));
            exists k | 0 <= k <= |s| :: r[..k] == s[..k] && r[k] == Slot(value, None) && r[k + 1..] == s[k..]
  {
    var n, k, r := |s|, Clip(i, |s|), Do(s, Insert(i, value));
    assert r == s[..k] + [Slot(value, None)] + s[k..];
    assert r[..k] == s[..k] && r[k + 1..] == s[k..];
    if i < -n {
      assert s[0..] == s;
    } else if i >= n {
      assert s[..n] == s;
    } else {
      assert r[k + 1] == s[k..][0];
    }
  }

  // ------------------------------------------------------------------ records stay with elements

  predicate Removes<T>(act: Act<T>) {
    act.Delete? || act.DeleteSlice? || act.Remove? || act.Clear? || act.Assign?
  }

  lemma WithoutCounts<X>(s: seq<X>, i: nat)
    requires i < |s|
    ensures multiset(Without(s, i)) + multiset{s[i]} == multiset(s)
  {
    assert s == s[..i] + [s[i]] + s[i + 1..];
  }

  lemma SpliceCounts<X>(s: seq<X>, a: int, b: int, vs: seq<X>)
    ensures var lo := Clip(a, |s|);
            multiset(Splice(s, a, b, vs)) + multiset(s[lo..lo + Width(a, b, |s|)]) == multiset(s) + multiset(vs)
    ensures forall x :: multiset(Splice(s, a, b, vs))[x] <= multiset(s)[x] + multiset(vs)[x]
  {
    var lo, hi := Clip(a, |s|), Clip(a, |s|) + Width(a, b, |s|);
    assert s == s[..lo] + s[lo..hi] + s[hi..];
    var all := multiset(s) + multiset(vs);
    forall x ensures multiset(Splice(s, a, b, vs))[x] <= all[x] {
      assert (multiset(Splice(s, a, b, vs)) + multiset(s[lo..hi]))[x] == all[x];
    }
  }

  lemma InsertedCounts<X>(s: seq<X>, i: int, x: X)
    ensures multiset(Inserted(s, i, x)) == multiset(s) + multiset{x}
  {
    assert s == s[..Clip(i, |s|)] + s[Clip(i, |s|)..];
  }

  lemma {:induction false} ReversedCounts<X>(s: seq<X>)
    ensures multiset(Reversed(s)) == multiset(s)
  {
    if s == [] {
      assert Reversed(s) == [];
    } else {
      ReversedCounts(s[1..]);
      assert Reversed(s) == Reversed(s[1..]) + [s[0]];
      assert s == [s[0]] + s[1..];
    }
  }

  lemma BareCounts<T, R>(items: seq<T>, x: Slot<T, R>)
    requires x.record.Some?
    ensures multiset(Bare<T, R>(items))[x] == 0
  {
    assert x !in Bare<T, R>(items);
  }

  lemma WithoutStays<X>(s: seq<X>, i: Option<nat>, x: X)
    requires i.Some? ==> i.value < |s|
    ensures multiset(if i.Some? then Without(s, i.value) else s)[x] <= multiset(s)[x]
  {
    if i.Some? {
      WithoutCounts(s, i.value);
    }
  }

  lemma SpliceStays<T, R>(s: seq<Slot<T, R>>, a: int, b: int, values: seq<T>, x: Slot<T, R>)
    requires x.record.Some?
    ensures multiset(Splice(s, a, b, Bare(values)))[x] <= multiset(s)[x]
  {
    SpliceCounts(s, a, b, Bare(values));
    BareCounts<T, R>(values, x);
    hide Splice, Width, Clip, Bare;
  }

  lemma SortStays<T, R>(s: seq<Slot<T, R>>, key: T -> int, reverse: bool)
    ensures multiset(Picked(s, Order(Keys(Items(s), key), reverse, |s|))) == multiset(s)
  {
    OrderPicks(s, Keys(Items(s), key), reverse, |s|);
    assert s[..|s|] == s;
  }

  // An element that carries a record carries it wherever an operation takes it: none is given to
  // another element, and only deleting loses one.
  lemma RecordStays<T, R>(s: seq<Slot<T, R>>, act: Act<T>, x: Slot<T, R>)
    requires x.record.Some? && !act.Set?
    ensures multiset(Do(s, act))[x] <= multiset(s)[x]
    ensures !Removes(act) ==> multiset(Do(s, act))[x] == multiset(s)[x]
  {
    hide Splice, Without, Inserted, Reversed, Picked, Order, Bare, Items, Keys, First, Width, Clip;
    match act {
      case Insert(i, value) => InsertedCounts(s, i, Slot(value, None));
      case Append(value) =>
      case Extend(values) => BareCounts<T, R>(values, x);
      case Delete(i) => WithoutStays(s, At(i, |s|), x);
      case DeleteSlice(a, b) => SpliceCounts(s, a, b, []);
      case Remove(value) => WithoutStays(s, if First(Items(s), value) < |s| then Some(First(Items(s), value)) else None, x);
      case Clear =>
      case Reverse => ReversedCounts(s);
      case Sort(key, reverse) => SortStays(s, key, reverse);
      case Assign(a, b, values) => SpliceStays(s, a, b, values, x);
    }
  }

  // ------------------------------------------------------------------ records alone

  function Records<T, R>(slots: seq<Slot<T, R>>): (r: seq<Option<R>>)
    ensures |r| == |slots| && forall k | 0 <= k < |r| :: r[k] == slots[k].record
  {
    seq(|slots|, k requires 0 <= k < |slots| => slots[k].record)
  }

  lemma RecordsParts<T, R>(a: seq<Slot<T, R>>, b: seq<Slot<T, R>>)
    ensures Records(a + b) == Records(a) + Records(b)
  {
  }

  lemma RecordsCut<T, R>(s: seq<Slot<T, R>>, i: nat, j: nat)
    requires i <= j <= |s|
    ensures Records(s[i..j]) == Records(s)[i..j]
  {
  }

  lemma RecordsSplice<T, R>(s: seq<Slot<T, R>>, a: int, b: int, vs: seq<Slot<T, R>>)
    ensures Records(Splice(s, a, b, vs)) == Splice(Records(s), a, b, Records(vs))
  {
    var lo := Clip(a, |s|);
    var hi := lo + Width(a, b, |s|);
    RecordsParts(s[..lo] + vs, s[hi..]);
    RecordsParts(s[..lo], vs);
    RecordsCut(s, 0, lo);
    RecordsCut(s, hi, |s|);
  }

  lemma RecordsInserted<T, R>(s: seq<Slot<T, R>>, i: int, x: Slot<T, R>)
    ensures Records(Inserted(s, i, x)) == Inserted(Records(s), i, x.record)
  {
    assert Inserted(s, i, x) == s[..Clip(i, |s|)] + [x] + s[Clip(i, |s|)..];
    RecordsCut(s, 0, Clip(i, |s|));
    RecordsCut(s, Clip(i, |s|), |s|);
  }

  lemma RecordsWithout<T, R>(s: seq<Slot<T, R>>, i: nat)
    requires i < |s|
    ensures Records(Without(s, i)) == Without(Records(s), i)
  {
    RecordsCut(s, 0, i);
    RecordsCut(s, i + 1, |s|);
    RecordsParts(s[..i], s[i + 1..]);
  }

  lemma NoneCount<T, R>(items: seq<T>, r: R)
    ensures multiset(Records(Bare<T, R>(items)))[Some(r)] == 0
  {
    assert Some(r) !in Records(Bare<T, R>(items));
  }

  lemma RecordSplice<T, R>(s: seq<Slot<T, R>>, a: int, b: int, values: seq<T>, r: R)
    ensures multiset(Records(Splice(s, a, b, Bare(values))))[Some(r)] <= multiset(Records(s))[Some(r)]
  {
    RecordsSplice(s, a, b, Bare(values));
    NoneCount<T, R>(values, r);
    SpliceCounts(Records(s), a, b, Records(Bare<T, R>(values)));
    hide Splice, Width, Clip, Bare, Records;
  }

  lemma RecordWithout<T, R>(s: seq<Slot<T, R>>, i: Option<nat>, r: R)
    requires i.Some? ==> i.value < |s|
    ensures multiset(Records(if i.Some? then Without(s, i.value) else s))[Some(r)] <= multiset(Records(s))[Some(r)]
  {
    if i.Some? {
      RecordsWithout(s, i.value);
      WithoutCounts(Records(s), i.value);
    }
  }

  lemma RecordSort<T, R>(s: seq<Slot<T, R>>, key: T -> int, reverse: bool)
    ensures multiset(Records(Picked(s, Order(Keys(Items(s), key), reverse, |s|)))) == multiset(Records(s))
  {
    var order := Order(Keys(Items(s), key), reverse, |s|);
    assert Records(Picked(s, order)) == Picked(Records(s), order);
    OrderPicks(Records(s), Keys(Items(s), key), reverse, |s|);
    assert Records(s)[..|s|] == Records(s);
  }

  // Every record is there as often as before, or, where an operation deletes, at most as often. To
  // set an element leaves each record where it is.
  lemma RecordKept<T, R>(s: seq<Slot<T, R>>, act: Act<T>, r: R)
    ensures multiset(Records(Do(s, act)))[Some(r)] <= multiset(Records(s))[Some(r)]
    ensures !Removes(act) ==> multiset(Records(Do(s, act)))[Some(r)] == multiset(Records(s))[Some(r)]
    ensures act.Set? ==> Records(Do(s, act)) == Records(s)
  {
    hide Splice, Without, Inserted, Reversed, Picked, Order, Bare, Items, Keys, First, Width, Clip;
    match act {
      case Insert(i, value) =>
        RecordsInserted(s, i, Slot(value, None));
        InsertedCounts(Records(s), i, None);
      case Append(value) => RecordsParts(s, [Slot(value, None)]);
      case Extend(values) =>
        RecordsParts(s, Bare(values));
        NoneCount<T, R>(values, r);
      case Delete(i) => RecordWithout(s, At(i, |s|), r);
      case DeleteSlice(a, b) =>
        RecordsSplice(s, a, b, []);
        SpliceCounts(Records(s), a, b, []);
        assert Records<T, R>([]) == [];
      case Remove(value) => RecordWithout(s, if First(Items(s), value) < |s| then Some(First(Items(s), value)) else None, r);
      case Clear =>
      case Reverse =>
        assert Records(Reversed(s)) == Reversed(Records(s)) by { RecordsReversed(s); }
        ReversedCounts(Records(s));
      case Sort(key, reverse) => RecordSort(s, key, reverse);
      case Assign(a, b, values) => RecordSplice(s, a, b, values, r);
      case Set(i, value) => assert Records(Do(s, act)) == Records(s);
    }
  }

  lemma RecordsReversed<T, R>(s: seq<Slot<T, R>>)
    ensures Records(Reversed(s)) == Reversed(Records(s))
  {
  }

  // Over every run of operations no record is ever copied, and without a deletion none is lost; and
  // as long as no element is set, each stays with its element or goes with it.
  lemma {:induction false} RecordsTravel<T, R>(s: seq<Slot<T, R>>, acts: seq<Act<T>>, r: R)
    ensures multiset(Records(Run(s, acts)))[Some(r)] <= multiset(Records(s))[Some(r)]
    ensures (forall a | a in acts :: !Removes(a)) ==> multiset(Records(Run(s, acts)))[Some(r)] == multiset(Records(s))[Some(r)]
    ensures (forall a | a in acts :: !a.Set?) ==>
              forall item :: multiset(Run(s, acts))[Slot(item, Some(r))] <= multiset(s)[Slot(item, Some(r))]
    ensures (forall a | a in acts :: !a.Set? && !Removes(a)) ==>
              forall item :: multiset(Run(s, acts))[Slot(item, Some(r))] == multiset(s)[Slot(item, Some(r))]
    decreases |acts|
  {
    hide Do, Records;
    if acts != [] {
      assert acts[0] in acts && forall a | a in acts[1..] :: a in acts;
      RecordKept(s, acts[0], r);
      RecordsTravel(Do(s, acts[0]), acts[1..], r);
      if !acts[0].Set? {
        forall item ensures multiset(Do(s, acts[0]))[Slot(item, Some(r))] <= multiset(s)[Slot(item, Some(r))]
                    ensures !Removes(acts[0]) ==> multiset(Do(s, acts[0]))[Slot(item, Some(r))] == multiset(s)[Slot(item, Some(r))] {
          RecordStays(s, acts[0], Slot(item, Some(r)));
        }
      }
    }
  }

  // ------------------------------------------------------------------ slices before the store

  // A slice assigned before there are records: the store is made as long as the new list and then
  // spliced like the old one. The two stay in step exactly when the slice, read on the new list,
  // is as wide as what was put there.
  predicate InStep(n: nat, a: int, b: int, count: nat) {
    Width(a, b, n - Width(a, b, n) + count) == count
  }

  // In place of as many elements, anywhere, the two stay in step.
  lemma SameWidthInStep(n: nat, a: int, b: int, count: nat)
    requires count == Width(a, b, n)
    ensures InStep(n, a, b, count)
  {
  }

  // `[1, 2, 3][0:1] = [9, 9]` leaves four elements beside five records.
  lemma OneForTwoOutOfStep()
    ensures !InStep(3, 0, 1, 2)
  {
  }

  lemma SpliceZips<T, R>(items: seq<T>, store: seq<Option<R>>, a: int, b: int, values: seq<T>)
    requires |items| == |store|
    ensures Zipped(Splice(items, a, b, values), Splice(store, a, b, Nones(|values|)))
         == Splice(Zipped(items, store), a, b, Bare(values))
  {
    hide Clip;
  }

  lemma NoneZips<T, R>(values: seq<T>)
    ensures Bare<T, R>([]) == [] && Nones<R>(0) == []
    ensures Zipped<T, R>(values, Nones(|values|)) == Bare(values)
  {
  }

  // The store made after the list was changed, when it has the right length all the same.
  lemma NoneSplices<T, R>(items: seq<T>, a: int, b: int, values: seq<T>)
    ensures var after := Splice(items, a, b, values);
            var store := Splice(Nones<R>(|after|), a, b, Nones(|values|));
            && (|store| == |after| <==> InStep(|items|, a, b, |values|))
            && (|store| == |after| ==> Zipped(after, store) == Splice(Bare<T, R>(items), a, b, Bare(values)))
  {
    hide Clip;
  }

  lemma PickedZips<T, R>(items: seq<T>, store: seq<Option<R>>, order: seq<nat>)
    requires |items| == |store| && Positions(order, |items|)
    ensures Zipped(Picked(items, order), Picked(store, order)) == Picked(Zipped(items, store), order)
  {
  }

  lemma SortOf<T, R>(slots: seq<Slot<T, R>>, items: seq<T>, key: T -> int, reverse: bool)
    requires Items(slots) == items
    ensures Do(slots, Act.Sort(key, reverse)) == Picked(slots, Order(Keys(items, key), reverse, |items|))
  {
    hide Splice, Without, Inserted, Reversed, Picked, Order, Bare, Items, Keys, First, Width, Clip, At;
  }

  lemma ReversedZips<T, R>(items: seq<T>, store: seq<Option<R>>)
    requires |items| == |store|
    ensures Zipped(Reversed(items), Reversed(store)) == Reversed(Zipped(items, store))
  {
  }

  lemma WithoutZips<T, R>(items: seq<T>, store: seq<Option<R>>, i: nat)
    requires |items| == |store| && i < |items|
    ensures Zipped(Without(items, i), Without(store, i)) == Without(Zipped(items, store), i)
  {
  }

  lemma InsertedZips<T, R>(items: seq<T>, store: seq<Option<R>>, i: int, value: T)
    requires |items| == |store|
    ensures Zipped(Inserted(items, i, value), Inserted(store, i, None)) == Inserted(Zipped(items, store), i, Slot(value, None))
  {
    hide Clip;
  }

  datatype IndexError = IndexError

  datatype ValueError = ValueError

  class CommentedSeq<T(==), R> {
    var items: seq<T>
    var store: Option<seq<Option<R>>>

    ghost predicate Valid()
      reads this
    {
      store.Some? ==> |store.value| == |items|
    }

    // The elements with their records.
    ghost function Slots(): (r: seq<Slot<T, R>>)
      reads this
      requires Valid()
    {
      if store.Some? then Zipped(items, store.value) else Bare(items)
    }

    constructor (items: seq<T>)
      ensures Valid() && store == None && this.items == items && Slots() == Bare(items)
    {
      this.items := items;
      store := None;
    }

    // The records, made on first use.
    method CaStore() returns (records: seq<Option<R>>)
      requires Valid()
      modifies this`store
      ensures Valid() && store == Some(records) && Slots() == old(Slots())
    {
      if store.None? {
        store := Some(Nones(|items|));
      }
      records := store.value;
    }

    method Insert(i: int, value: T)
      requires Valid()
      modifies this
      ensures Valid() && Slots() == Do(old(Slots()), Act.Insert(i, value))
    {
      var records := CaStore();
      InsertedZips(items, records, i, value);
      hide Inserted, Zipped, Bare;
      items := Inserted(items, i, value);
      store := Some(Inserted(records, i, None));
    }

    method Append(value: T)
      requires Valid()
      modifies this
      ensures Valid() && Slots() == Do(old(Slots()), Act.Append(value))
    {
      var records := CaStore();
      store := Some(records + [None]);
      items := items + [value];
    }

    method Extend(values: seq<T>)
      requires Valid()
      modifies this
      ensures Valid() && Slots() == Do(old(Slots()), Act.Extend(values))
    {
      var records := CaStore();
      store := Some(records + Nones(|values|));
      items := items + values;
    }

    method Delete(i: int) returns (r: Result<(), IndexError>)
      requires Valid()
      modifies this
      ensures Valid() && Slots() == Do(old(Slots()), Act.Delete(i))
      ensures r.Ok? <==> At(i, |old(items)|).Some?
    {
      var records := CaStore();
      var k := At(i, |items|);
      if k.None? {
        return Err(IndexError);
      }
      WithoutZips(items, records, k.value);
      hide Without, Zipped, Bare;
      items := Without(items, k.value);
      store := Some(Without(records, k.value));
      r := Ok(());
    }

    method DeleteSlice(a: int, b: int)
      requires Valid()
      modifies this
      ensures Valid() && Slots() == Do(old(Slots()), Act.DeleteSlice(a, b))
    {
      var records := CaStore();
      NoneZips<T, R>([]);
      SpliceZips(items, records, a, b, []);
      hide Splice, Zipped, Bare, Nones;
      items := Splice(items, a, b, []);
      store := Some(Splice(records, a, b, []));
    }

    method Pop(i: int) returns (r: Result<T, IndexError>)
      requires Valid()
      modifies this
      ensures Valid() && Slots() == Do(old(Slots()), Act.Delete(i))
      ensures match At(i, |old(items)|) case None => r.Err? case Some(k) => r == Ok(old(items)[k])
    {
      var records := CaStore();
      var k := At(i, |items|);
      if k.None? {
        return Err(IndexError);
      }
      var value := items[k.value];
      WithoutZips(items, records, k.value);
      hide Without, Zipped, Bare;
      items := Without(items, k.value);
      store := Some(Without(records, k.value));
      r := Ok(value);
    }

    method Remove(value: T) returns (r: Result<(), ValueError>)
      requires Valid()
      modifies this
      ensures Valid() && Slots() == Do(old(Slots()), Act.Remove(value))
      ensures r.Ok? <==> value in old(items)
    {
      var i := First(items, value);
      assert Items(Slots()) == items;
      if i == |items| {
        return Err(ValueError);
      }
      var _ := Delete(i);
      r := Ok(());
    }

    method Clear()
      requires Valid()
      modifies this
      ensures Valid() && Slots() == []
    {
      items := [];
      if store.None? {
        store := Some(Nones(|items|));
      }
      store := Some([]);
    }

    method Reverse()
      requires Valid()
      modifies this
      ensures Valid() && Slots() == Do(old(Slots()), Act.Reverse)
    {
      NoneZips<T, R>(items);
      ReversedZips<T, R>(items, if store.Some? then store.value else Nones(|items|));
      NoneZips<T, R>(Reversed(items));
      assert Reversed(Nones<R>(|items|)) == Nones(|items|);
      hide Reversed, Zipped, Bare, Nones;
      items := Reversed(items);
      if store.None? {
        store := Some(Nones(|items|));
      }
      store := Some(Reversed(store.value));
    }

    // Sorts the positions and moves elements and records alike.
    method Sort(key: T -> int, reverse: bool)
      requires Valid()
      modifies this
      ensures Valid() && Slots() == Do(old(Slots()), Act.Sort(key, reverse))
    {
      assert Items(Slots()) == items;
      SortOf(Slots(), items, key, reverse);
      hide Order, Keys, Items, Zipped, Bare, Picked, Do;
      var order := Order(Keys(items, key), reverse, |items|);
      var records := CaStore();
      PickedZips(items, records, order);
      var sorted := Picked(items, order);
      store := Some(Picked(records, order));
      items := sorted;
    }

    method Set(i: int, value: T) returns (r: Result<(), IndexError>)
      requires Valid()
      modifies this
      ensures Valid() && Slots() == Do(old(Slots()), Act.Set(i, value))
      ensures r.Ok? <==> At(i, |old(items)|).Some?
    {
      var k := At(i, |items|);
      if k.None? {
        return Err(IndexError);
      }
      items := items[k.value := value];
      r := Ok(());
    }

    // Changes the list before it asks for the store.
    method Assign(a: int, b: int, values: seq<T>)
      requires Valid()
      modifies this
      ensures items == Splice(old(items), a, b, values)
      ensures Valid() <==> old(store).Some? || InStep(|old(items)|, a, b, |values|)
      ensures Valid() ==> Slots() == Do(old(Slots()), Act.Assign(a, b, values))
    {
      ghost var before, had := items, store;
      if store.Some? {
        SpliceZips(items, store.value, a, b, values);
      } else {
        NoneSplices<T, R>(items, a, b, values);
      }
      hide Splice, Zipped, Bare, Nones, Width;
      items := Splice(items, a, b, values);
      if store.None? {
        store := Some(Nones(|items|));
      }
      store := Some(Splice(store.value, a, b, Nones(|values|)));
    }
  }
}
