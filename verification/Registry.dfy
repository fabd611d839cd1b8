// The tag registry: which tag a document writes for a class, and which class a tag names
// (python/yamluna/registry.py).
module Registry {
  import opened Results
  import opened TagText

  // A class object. `stamp` tells apart two objects of one path, as a reloaded module leaves them.
  datatype Class = Class(module_: string, qualname: string, name: string, stamp: nat) {
    function Path(): string {
      module_ + "." + qualname
    }
  }

  datatype Registration = Registration(
    cls: Class, tagName: string, source: string, declared: string, pinned: bool)
  {
    function Id(): Identity {
      Identity(source, tagName)
    }
  }

  type Registrations = map<string, Registration>

  datatype Directive = Directive(handle: string, prefix: string)

  datatype WirePlan = WirePlan(directives: seq<Directive>, tags: map<Class, string>)

  datatype ResolveError = Unresolved | Ambiguous(candidates: set<string>)

  // ------------------------------------------------------------------ registering

  // Python's `a or b` on strings that may be missing.
  function Or(a: Option<string>, b: Option<string>): Option<string> {
    if a.Some? && a.value != "" then a else b
  }

  function Root(module_: string): string {
    module_[..UpTo(module_, '.')]
  }

  // The record of a class: `tag` and `source` as given, `yamlTag` and `yamlSource` as the class
  // carries them.
  function RecordOf(cls: Class, tag: Option<string>, source: Option<string>,
                    yamlTag: Option<string>, yamlSource: Option<string>): Registration
  {
    var declared := Or(source, yamlSource);
    var name := match Or(tag, Or(yamlTag, Some(cls.name))) case Some(n) => n case None => cls.name;
    var space := if declared.Some? && declared.value != "" then declared.value else Root(cls.module_);
    Registration(cls, if name != "" && name[0] == '!' then name[1..] else name, space, space, declared.Some?)
  }

  // Whether another class declares the same source and tag name.
  predicate Clashes(regs: Registrations, p: string)
    requires p in regs
  {
    exists q | q in regs :: q != p && regs[q].declared == regs[p].declared && regs[q].tagName == regs[p].tagName
  }

  function Effective(regs: Registrations, p: string): Registration
    requires p in regs
  {
    var r := regs[p];
    r.(source := if !r.pinned && Clashes(regs, p) then r.cls.module_ else r.declared)
  }

  function Promoted(regs: Registrations): Registrations {
    map p | p in regs :: Effective(regs, p)
  }

  // The records as declared, one for each path.
  function Declared(regs: Registrations): Registrations {
    map p | p in regs :: regs[p].(source := regs[p].declared)
  }

  function Registered(regs: Registrations, r: Registration): Registrations {
    Promoted(regs[r.cls.Path() := r])
  }

  function RegisteredAll(regs: Registrations, rs: seq<Registration>): Registrations
    decreases |rs|
  {
    if rs == [] then regs else RegisteredAll(Registered(regs, rs[0]), rs[1..])
  }

  // The last record of each path.
  function Overlaid(regs: Registrations, rs: seq<Registration>): Registrations
    decreases |rs|
  {
    if rs == [] then regs else Overlaid(regs[rs[0].cls.Path() := rs[0].(source := rs[0].declared)], rs[1..])
  }

  lemma SameDeclared(a: Registrations, b: Registrations)
    requires Declared(a) == Declared(b)
    ensures a.Keys == b.Keys
    ensures forall p | p in a :: b[p] == a[p].(source := b[p].source)
  {
    assert a.Keys == Declared(a).Keys && b.Keys == Declared(b).Keys;
    forall p | p in a ensures b[p] == a[p].(source := b[p].source) {
      assert Declared(a)[p] == a[p].(source := a[p].declared);
      assert Declared(b)[p] == b[p].(source := b[p].declared);
    }
  }

  // The source a class ends with does not depend on sources decided before.
  lemma PromotedAgain(a: Registrations, b: Registrations)
    requires Declared(a) == Declared(b)
    ensures Promoted(a) == Promoted(b) && Declared(Promoted(a)) == Declared(a)
  {
    SameDeclared(a, b);
    hide Clashes, Declared;
    forall p | p in a ensures Effective(a, p) == Effective(b, p) {
      ClashesAlike(a, b, p);
    }
    PromotedDeclares(a);
  }

  lemma ClashesAlike(a: Registrations, b: Registrations, p: string)
    requires Declared(a) == Declared(b) && p in a && p in b
    ensures Clashes(a, p) <==> Clashes(b, p)
  {
    SameDeclared(a, b);
    hide Declared;
  }

  lemma PromotedDeclares(a: Registrations)
    ensures Declared(Promoted(a)) == Declared(a)
  {
  }

  lemma DeclaredUpdate(a: Registrations, b: Registrations, r: Registration)
    requires Declared(a) == Declared(b)
    ensures Declared(a[r.cls.Path() := r]) == Declared(b)[r.cls.Path() := r.(source := r.declared)]
  {
    assert forall p | p in a :: p in b && Declared(a)[p] == Declared(b)[p];
    assert forall p | p in b :: p in Declared(b);
  }

  lemma {:induction false} RegisteredAllIs(a: Registrations, b: Registrations, rs: seq<Registration>)
    requires b == Declared(b) && Declared(a) == b && a == Promoted(b)
    ensures RegisteredAll(a, rs) == Promoted(Overlaid(b, rs))
    decreases |rs|
  {
    if rs != [] {
      var r := rs[0];
      var p := r.cls.Path();
      var a2, b2 := a[p := r], b[p := r.(source := r.declared)];
      DeclaredUpdate(a, b, r);
      assert Declared(b2) == b2;
      PromotedAgain(a2, b2);
      RegisteredAllIs(Promoted(a2), b2, rs[1..]);
    }
  }

  // Registering classes in any order gives one registry, as long as each path is last registered
  // with the same record.
  lemma OrderDoesNotMatter(a: seq<Registration>, b: seq<Registration>)
    requires Overlaid(map[], a) == Overlaid(map[], b)
    ensures RegisteredAll(map[], a) == RegisteredAll(map[], b) == Promoted(Overlaid(map[], b))
  {
    RegisteredAllIs(map[], map[], a);
    RegisteredAllIs(map[], map[], b);
  }

  ghost predicate Keyed(regs: Registrations) {
    && (forall p | p in regs :: regs[p].cls.Path() == p)
    && Promoted(regs) == regs
  }

  // Two classes that declare one source, neither of them pinned, share a tag only when they have
  // one name in one module.
  lemma UnpinnedApart(regs: Registrations, p: string, q: string)
    requires Keyed(regs) && p in regs && q in regs && p != q
    requires !regs[p].pinned && !regs[q].pinned && regs[p].declared == regs[q].declared
    ensures regs[p].Id() == regs[q].Id()
       <==> regs[p].tagName == regs[q].tagName && regs[p].cls.module_ == regs[q].cls.module_
  {
    assert Promoted(regs)[p] == Effective(regs, p) && Promoted(regs)[q] == Effective(regs, q);
  }

  // ------------------------------------------------------------------ what a document uses

  function Uses(counts: map<string, nat>, source: string): nat {
    if source in counts then counts[source] else 0
  }

  function Tallied(regs: Registrations, counts: map<string, nat>, c: Class): map<string, nat> {
    if c.Path() !in regs then counts
    else
      var source := regs[c.Path()].source;
      counts[source := Uses(counts, source) + 1]
  }

  // How many of the classes are written in each source.
  function Counts(regs: Registrations, classes: seq<Class>): (m: map<string, nat>)
    decreases |classes|
  {
    if classes == [] then map[]
    else Tallied(regs, Counts(regs, classes[..|classes| - 1]), classes[|classes| - 1])
  }

  function Used(regs: Registrations, classes: seq<Class>): map<Class, Registration> {
    map c | c in classes && c.Path() in regs :: regs[c.Path()]
  }

  lemma {:induction false} UsedAreCounted(regs: Registrations, classes: seq<Class>, c: Class)
    requires c in classes && c.Path() in regs
    ensures regs[c.Path()].source in Counts(regs, classes)
    decreases |classes|
  {
    var n := |classes| - 1;
    if c in classes[..n] {
      UsedAreCounted(regs, classes[..n], c);
    }
  }

  lemma TalliedSwap(regs: Registrations, m: map<string, nat>, a: Class, b: Class)
    ensures Tallied(regs, Tallied(regs, m, a), b) == Tallied(regs, Tallied(regs, m, b), a)
  {
  }

  lemma CountedUpTo(regs: Registrations, classes: seq<Class>, k: nat)
    requires k < |classes|
    ensures Counts(regs, classes[..k + 1]) == Tallied(regs, Counts(regs, classes[..k]), classes[k])
    ensures Used(regs, classes[..k + 1]) ==
            if classes[k].Path() in regs then Used(regs, classes[..k])[classes[k] := regs[classes[k].Path()]]
            else Used(regs, classes[..k])
  {
    hide Tallied;
    assert classes[..k + 1][..k] == classes[..k];
    assert classes[..k + 1] == classes[..k] + [classes[k]];
  }

  lemma {:induction false} CountedLast(regs: Registrations, classes: seq<Class>, i: nat)
    requires i < |classes|
    ensures Counts(regs, classes) == Tallied(regs, Counts(regs, classes[..i] + classes[i + 1..]), classes[i])
    decreases |classes|
  {
    hide Tallied;
    var n := |classes| - 1;
    var without := classes[..i] + classes[i + 1..];
    if i == n {
      assert without == classes[..n];
    } else {
      TalliedSwap(regs, Counts(regs, classes[..n][..i] + classes[..n][i + 1..]), classes[i], classes[n]);
      CountedLast(regs, classes[..n], i);
      assert without[..n - 1] == classes[..n][..i] + classes[..n][i + 1..];
      assert without[n - 1] == classes[n];
    }
  }

  lemma Without(a: seq<Class>, b: seq<Class>) returns (i: nat)
    requires multiset(a) == multiset(b) && a != []
    ensures i < |b| && b[i] == a[|a| - 1] && multiset(a[..|a| - 1]) == multiset(b[..i] + b[i + 1..])
  {
    var n := |a| - 1;
    assert a[n] in multiset(a);
    i :| 0 <= i < |b| && b[i] == a[n];
    assert a == a[..n] + [a[n]];
    assert b == b[..i] + [b[i]] + b[i + 1..];
    assert multiset(b) == multiset(b[..i]) + multiset{b[i]} + multiset(b[i + 1..]);
    assert multiset(b[..i] + b[i + 1..]) == multiset(b) - multiset{b[i]};
    assert multiset(a[..n]) == multiset(a) - multiset{a[n]};
  }

  lemma SameClasses(regs: Registrations, a: seq<Class>, b: seq<Class>)
    requires multiset(a) == multiset(b)
    ensures Used(regs, a) == Used(regs, b)
  {
    assert forall c :: c in a <==> c in multiset(a);
    assert forall c :: c in b <==> c in multiset(b);
  }

  // The order in which the classes come does not matter.
  lemma {:induction false} CountsOfAny(regs: Registrations, a: seq<Class>, b: seq<Class>)
    requires multiset(a) == multiset(b)
    ensures Counts(regs, a) == Counts(regs, b)
    decreases |a|
  {
    assert |a| == |multiset(a)| == |b|;
    if a != [] {
      var i := Without(a, b);
      CountsOfAny(regs, a[..|a| - 1], b[..i] + b[i + 1..]);
      CountedLast(regs, b, i);
    }
  }

  // ------------------------------------------------------------------ ordering the sources

  // More used sources first, ties by name.
  predicate Ahead(use: map<string, nat>, a: string, b: string) {
    Uses(use, a) > Uses(use, b) || (Uses(use, a) == Uses(use, b) && Before(a, b))
  }

  predicate Ascending(names: seq<string>, use: map<string, nat>) {
    forall i, j | 0 <= i < j < |names| :: Ahead(use, names[i], names[j])
  }

  function Insert(x: string, names: seq<string>, use: map<string, nat>): seq<string> {
    if names == [] || Ahead(use, x, names[0]) then [x] + names
    else [names[0]] + Insert(x, names[1..], use)
  }

  // `sorted`, by the number of uses and then by name.
  function Sorted(names: seq<string>, use: map<string, nat>): seq<string> {
    if names == [] then [] else Insert(names[0], Sorted(names[1..], use), use)
  }

  ghost predicate NoTwice(names: seq<string>) {
    forall i, j | 0 <= i < j < |names| :: names[i] != names[j]
  }

  lemma AheadTotal(use: map<string, nat>, a: string, b: string)
    ensures a == b || Ahead(use, a, b) || Ahead(use, b, a)
    ensures !(Ahead(use, a, b) && Ahead(use, b, a)) && !Ahead(use, a, a)
  {
    BeforeTotal(a, b);
    BeforeTotal(a, a);
  }

  lemma AheadChains(use: map<string, nat>, a: string, b: string, c: string)
    requires Ahead(use, a, b) && Ahead(use, b, c)
    ensures Ahead(use, a, c)
  {
    if Uses(use, a) == Uses(use, c) {
      BeforeChains(a, b, c);
    }
  }

  lemma {:induction false} InsertSorts(x: string, names: seq<string>, use: map<string, nat>)
    requires Ascending(names, use) && x !in names
    ensures var r := Insert(x, names, use);
            Ascending(r, use) && |r| == |names| + 1 && forall y :: y in r <==> y == x || y in names
  {
    hide Ahead;
    if names != [] {
      AheadTotal(use, x, names[0]);
      if Ahead(use, x, names[0]) {
        forall j | 0 < j < |names| ensures Ahead(use, x, names[j]) {
          AheadChains(use, x, names[0], names[j]);
        }
      } else {
        InsertSorts(x, names[1..], use);
        var r := Insert(x, names[1..], use);
        assert names == [names[0]] + names[1..];
        forall y | y in r ensures Ahead(use, names[0], y) {
        }
      }
    }
  }

  lemma {:induction false} SortedSorts(names: seq<string>, use: map<string, nat>)
    requires NoTwice(names)
    ensures var r := Sorted(names, use);
            Ascending(r, use) && |r| == |names| && forall y :: y in r <==> y in names
  {
    if names != [] {
      SortedSorts(names[1..], use);
      assert names == [names[0]] + names[1..];
      InsertSorts(names[0], Sorted(names[1..], use), use);
    }
  }

  // There is one way to put a set of names in order.
  lemma {:induction false} SortedOnce(a: seq<string>, b: seq<string>, use: map<string, nat>)
    requires Ascending(a, use) && Ascending(b, use) && (forall y :: y in a <==> y in b)
    ensures a == b
    decreases |a|
  {
    hide Ahead;
    SameEmpty(a, b);
    if a != [] {
      assert a[0] in b && b[0] in a;
      FirstOnce(a, b, use);
      forall y ensures y in a[1..] <==> y in b[1..] {
        AheadTotal(use, a[0], a[0]);
        assert y in a[1..] ==> y != a[0] && y in b;
        assert y in b[1..] ==> y != b[0] && y in a;
      }
      SortedOnce(a[1..], b[1..], use);
    }
  }

  lemma SameEmpty(a: seq<string>, b: seq<string>)
    requires forall y :: y in a <==> y in b
    ensures a == [] <==> b == []
  {
    assert a != [] ==> a[0] in b;
    assert b != [] ==> b[0] in a;
  }

  lemma FirstOnce(a: seq<string>, b: seq<string>, use: map<string, nat>)
    requires Ascending(a, use) && Ascending(b, use) && a != [] && b != [] && a[0] in b && b[0] in a
    ensures a[0] == b[0]
  {
    AheadTotal(use, a[0], b[0]);
  }

  // ------------------------------------------------------------------ a document's plan

  // The sources in the order of their directives: the most used first, the others by name.
  ghost predicate Arranged(order: seq<string>, counts: map<string, nat>) {
    && order != []
    && (forall s :: s in order <==> s in counts)
    && Ascending(order[1..], map[])
    && forall i | 1 <= i < |order| :: Ahead(counts, order[0], order[i])
  }

  function Bodies(bodies: seq<string>): set<string> {
    set b | b in bodies
  }

  ghost predicate Handled(order: seq<string>, bodies: seq<string>) {
    && |bodies| + 1 == |order|
    && forall i | 0 <= i < |bodies| :: FirstFree(Sanitised(order[i + 1]), Bodies(bodies[..i]), bodies[i])
  }

  function Handle(bodies: seq<string>, i: nat): string
    requires i <= |bodies|
  {
    if i == 0 then "!" else "!" + bodies[i - 1] + "!"
  }

  ghost predicate Tags(tag: string, r: Registration, order: seq<string>, bodies: seq<string>) {
    exists i | 0 <= i < |order| && i <= |bodies| ::
      order[i] == r.source && tag == Handle(bodies, i) + r.tagName
  }

  ghost predicate Lays(plan: WirePlan, order: seq<string>, bodies: seq<string>, used: map<Class, Registration>) {
    && Handled(order, bodies)
    && plan.directives == seq(|order|, i requires 0 <= i < |order| && |bodies| + 1 == |order| => Directive(Handle(bodies, i), "tag:" + order[i] + "/"))
    && plan.tags.Keys == used.Keys
    && forall c | c in used :: Tags(plan.tags[c], used[c], order, bodies)
  }

  ghost predicate Plans(plan: WirePlan, counts: map<string, nat>, used: map<Class, Registration>) {
    && plan.tags.Keys == used.Keys
    && if counts == map[] then plan == WirePlan([], map[])
       else exists order, bodies :: Arranged(order, counts) && Lays(plan, order, bodies, used)
  }

  lemma RestOf(order: seq<string>, counts: map<string, nat>, y: string)
    requires Arranged(order, counts)
    ensures y in order[1..] <==> y in counts && y != order[0]
  {
    hide Ahead, Ascending;
    AheadTotal(counts, y, y);
    assert order == [order[0]] + order[1..];
    if y in order[1..] {
      var i :| 0 <= i < |order[1..]| && order[1..][i] == y;
      assert order[i + 1] == y;
    }
  }

  lemma ArrangedOnce(a: seq<string>, b: seq<string>, counts: map<string, nat>)
    requires Arranged(a, counts) && Arranged(b, counts)
    ensures a == b
  {
    hide Ahead, Ascending;
    assert a[0] in b && b[0] in a;
    AheadTotal(counts, a[0], b[0]);
    assert a[0] == b[0];
    forall y ensures y in a[1..] <==> y in b[1..] {
      RestOf(a, counts, y);
      RestOf(b, counts, y);
    }
    SortedOnce(a[1..], b[1..], map[]);
    assert a == [a[0]] + a[1..] && b == [b[0]] + b[1..];
  }

  lemma {:induction false} HandledOnce(order: seq<string>, a: seq<string>, b: seq<string>, n: nat)
    requires Handled(order, a) && Handled(order, b) && n <= |a|
    ensures |a| == |b| && a[..n] == b[..n]
  {
    hide FirstFree, Sanitised, Bodies;
    if n > 0 {
      HandledOnce(order, a, b, n - 1);
      assert FirstFree(Sanitised(order[n - 1 + 1]), Bodies(a[..n - 1]), a[n - 1]);
      assert FirstFree(Sanitised(order[n - 1 + 1]), Bodies(b[..n - 1]), b[n - 1]);
      FirstFreeIsOne(Sanitised(order[n]), Bodies(a[..n - 1]), a[n - 1], b[n - 1]);
      assert a[..n] == a[..n - 1] + [a[n - 1]] && b[..n] == b[..n - 1] + [b[n - 1]];
    }
  }

  lemma ArrangedApart(order: seq<string>, counts: map<string, nat>, i: nat, j: nat)
    requires Arranged(order, counts) && i < j < |order|
    ensures order[i] != order[j]
  {
    hide Ahead;
    AheadTotal(counts, order[i], order[i]);
    AheadTotal(map[], order[i], order[i]);
    if i > 0 {
      assert Ahead(map[], order[1..][i - 1], order[1..][j - 1]);
    }
  }

  lemma LaidOnce(a: WirePlan, b: WirePlan, order: seq<string>, bodies: seq<string>, counts: map<string, nat>,
                 used: map<Class, Registration>)
    requires Arranged(order, counts) && Lays(a, order, bodies, used) && Lays(b, order, bodies, used)
    ensures a == b
  {
    hide Arranged, Handled, Handle;
    forall c | c in used ensures a.tags[c] == b.tags[c] {
      var i :| 0 <= i < |order| && i <= |bodies| && order[i] == used[c].source && a.tags[c] == Handle(bodies, i) + used[c].tagName;
      var j :| 0 <= j < |order| && j <= |bodies| && order[j] == used[c].source && b.tags[c] == Handle(bodies, j) + used[c].tagName;
      if i < j {
        ArrangedApart(order, counts, i, j);
      } else if j < i {
        ArrangedApart(order, counts, j, i);
      }
    }
    assert a.tags == b.tags;
  }

  // One document has one plan.
  lemma PlansOnce(a: WirePlan, b: WirePlan, counts: map<string, nat>, used: map<Class, Registration>)
    requires Plans(a, counts, used) && Plans(b, counts, used)
    ensures a == b
  {
    if counts != map[] {
      var o1, b1 :| Arranged(o1, counts) && Lays(a, o1, b1, used);
      var o2, b2 :| Arranged(o2, counts) && Lays(b, o2, b2, used);
      assert Handled(o1, b1) && Handled(o2, b2);
      hide Arranged, Handled, Lays;
      ArrangedOnce(o1, o2, counts);
      HandledOnce(o1, b1, b2, |b1|);
      assert b1 == b1[..|b1|] && b2 == b2[..|b2|];
      LaidOnce(a, b, o1, b1, counts, used);
    }
  }

  // The plan does not depend on the order of registration or of the classes used.
  lemma PlanOfAnyOrder(rs: seq<Registration>, rs2: seq<Registration>, classes: seq<Class>, classes2: seq<Class>,
                       a: WirePlan, b: WirePlan)
    requires Overlaid(map[], rs) == Overlaid(map[], rs2) && multiset(classes) == multiset(classes2)
    requires var regs := RegisteredAll(map[], rs); Plans(a, Counts(regs, classes), Used(regs, classes))
    requires var regs := RegisteredAll(map[], rs2); Plans(b, Counts(regs, classes2), Used(regs, classes2))
    ensures a == b
  {
    hide Plans, Counts;
    OrderDoesNotMatter(rs, rs2);
    var regs := RegisteredAll(map[], rs);
    CountsOfAny(regs, classes, classes2);
    SameClasses(regs, classes, classes2);
    PlansOnce(a, b, Counts(regs, classes), Used(regs, classes));
  }

  // ------------------------------------------------------------------ resolving a tag

  // `dict(directives)`: the last directive of a handle counts.
  function InScope(directives: seq<Directive>, handle: string): Option<string>
    decreases |directives|
  {
    if directives == [] then None
    else
      var last := directives[|directives| - 1];
      if last.handle == handle then Some(last.prefix) else InScope(directives[..|directives| - 1], handle)
  }

  function Carrying(regs: Registrations, i: Identity): set<string> {
    set p | p in regs && regs[p].Id() == i
  }

  function Called(regs: Registrations, name: string): set<string> {
    set p | p in regs && regs[p].tagName == name
  }

  lemma OnlyOne(found: set<string>)
    requires |found| == 1
    ensures exists p :: found == {p}
  {
    var p :| p in found;
    assert |found - {p}| == 0;
    assert found == {p};
  }

  function Only(found: set<string>): (p: string)
    requires |found| == 1
    ensures found == {p}
  {
    OnlyOne(found);
    var p :| p in found;
    p
  }

  function ByUri(regs: Registrations, uri: string): Result<Option<Registration>, ResolveError> {
    match ReadUri(uri)
    case None => Ok(None)
    case Some(i) =>
      var found := Carrying(regs, i);
      if |found| == 1 then Ok(Some(regs[Only(found)]))
      else if found != {} then Err(Ambiguous(found))
      else if exists p | p in regs :: regs[p].source == i.source then Err(Unresolved)
      else Ok(None)
  }

  function ByName(regs: Registrations, name: string): Result<Option<Registration>, ResolveError> {
    var found := Called(regs, name);
    if |found| == 1 then Ok(Some(regs[Only(found)]))
    else if found != {} then Err(Ambiguous(found))
    else Ok(None)
  }

  function Resolve(regs: Registrations, tag: string, directives: seq<Directive>)
    : Result<Option<Registration>, ResolveError>
  {
    var parts := SplitTag(tag);
    if parts.handle.Some? && InScope(directives, parts.handle.value).Some? then
      ByUri(regs, InScope(directives, parts.handle.value).value + parts.suffix)
    else if parts.handle == Some("!") && parts.suffix != "" then ByName(regs, parts.suffix)
    else Ok(None)
  }

  // ------------------------------------------------------------------ tags come back

  lemma BodiesApart(order: seq<string>, bodies: seq<string>, i: nat, j: nat)
    requires Handled(order, bodies) && i < j < |bodies|
    ensures bodies[i] != bodies[j]
  {
    var n :| n >= 1 && IsFirstFree(Sanitised(order[j + 1]), Bodies(bodies[..j]), n) && bodies[j] == Numbered(Sanitised(order[j + 1]), n);
    assert bodies[..j][i] == bodies[i];
    assert bodies[i] in Bodies(bodies[..j]);
  }

  lemma BodyIsBody(order: seq<string>, bodies: seq<string>, i: nat)
    requires Handled(order, bodies) && i < |bodies|
    ensures IsHandleBody(bodies[i])
  {
    var base := Sanitised(order[i + 1]);
    var n :| n >= 1 && IsFirstFree(base, Bodies(bodies[..i]), n) && bodies[i] == Numbered(base, n);
    NumberedIsBody(base, n);
  }

  // No two directives of a plan share a handle.
  lemma HandlesApart(order: seq<string>, bodies: seq<string>, i: nat, j: nat)
    requires Handled(order, bodies) && i < j <= |bodies|
    ensures Handle(bodies, i) != Handle(bodies, j)
  {
    BodyIsBody(order, bodies, j - 1);
    if i > 0 {
      BodiesApart(order, bodies, i - 1, j - 1);
      assert Handle(bodies, i)[1..|bodies[i - 1]| + 1] == bodies[i - 1];
      assert Handle(bodies, j)[1..|bodies[j - 1]| + 1] == bodies[j - 1];
    }
  }

  lemma {:induction false} ScopedAt(directives: seq<Directive>, i: nat)
    requires i < |directives| && forall j | i < j < |directives| :: directives[j].handle != directives[i].handle
    ensures InScope(directives, directives[i].handle) == Some(directives[i].prefix)
    decreases |directives|
  {
    var n := |directives| - 1;
    if i < n {
      ScopedAt(directives[..n], i);
    }
  }

  // In a plan every handle stands for its own source.
  lemma PlanScopes(plan: WirePlan, order: seq<string>, bodies: seq<string>, used: map<Class, Registration>, i: nat)
    requires Lays(plan, order, bodies, used) && i <= |bodies|
    ensures InScope(plan.directives, Handle(bodies, i)) == Some("tag:" + order[i] + "/")
  {
    assert |plan.directives| == |order| == |bodies| + 1;
    hide Handle, Handled;
    forall j | i < j < |plan.directives| ensures plan.directives[j].handle != plan.directives[i].handle {
      HandlesApart(order, bodies, i, j);
    }
    ScopedAt(plan.directives, i);
  }

  // Whether the tag of a class can be told from every other: its source is a dotted path, its name
  // is not empty and has no slash, and, in the source that has the primary handle, no `!` either
  // and no pair of angle brackets around it.
  predicate Tellable(r: Registration, primary: bool) {
    IsSource(r.source) && IsName(r.tagName) && (primary ==> PlainName(r.tagName))
  }

  // What a class's own global tag means.
  lemma OwnUri(regs: Registrations, p: string)
    requires p in regs
    ensures var r := regs[p];
            ByUri(regs, "tag:" + r.source + "/" + r.tagName) ==
            if !(IsSource(r.source) && IsName(r.tagName)) then Ok(None)
            else if Carrying(regs, r.Id()) == {p} then Ok(Some(r))
            else Err(Ambiguous(Carrying(regs, r.Id())))
  {
    hide ReadUri, IsSource, IsName;
    var r := regs[p];
    UriReadBack(r.Id());
    assert Uri(r.Id()) == "tag:" + r.source + "/" + r.tagName;
    var found := Carrying(regs, r.Id());
    assert p in found;
    if |found| == 1 {
      assert Only(found) == p;
    }
  }

  lemma {:induction false} ScopeFrom(directives: seq<Directive>, handle: string)
    requires InScope(directives, handle).Some?
    ensures exists i | 0 <= i < |directives| :: directives[i] == Directive(handle, InScope(directives, handle).value)
    decreases |directives|
  {
    var n := |directives| - 1;
    if directives[n].handle != handle {
      ScopeFrom(directives[..n], handle);
      var i :| 0 <= i < n && directives[..n][i] == Directive(handle, InScope(directives[..n], handle).value);
      assert directives[i] == directives[..n][i];
    } else {
      assert directives[n] == Directive(handle, directives[n].prefix);
    }
  }

  // A class found under a source's prefix carries what stands behind the prefix as its name.
  lemma NamedBehind(regs: Registrations, source: string, suffix: string)
    ensures var r := ByUri(regs, "tag:" + source + "/" + suffix);
            r.Ok? && r.value.Some? ==> r.value.value.tagName == suffix
  {
    hide ReadUri, IsSource, IsName;
    var i := Identity(source, suffix);
    UriReadBack(i);
    assert Uri(i) == "tag:" + source + "/" + suffix;
    var found := Carrying(regs, i);
    if |found| == 1 {
      assert Only(found) in found;
    }
  }

  // A tag that is read behind the handle of another source than the first.
  ghost predicate Misread(regs: Registrations, tag: string, directives: seq<Directive>) {
    exists i | 0 < i < |directives| ::
      && directives[i].handle <= tag
      && Resolve(regs, tag, directives) == ByUri(regs, directives[i].prefix + tag[|directives[i].handle|..])
  }

  // A name that does not survive the split never leads back to its class: it leads nowhere, or to
  // what the rest of it means in another source.
  lemma SplitLosesName(regs: Registrations, p: string, plan: WirePlan, order: seq<string>, bodies: seq<string>,
                       used: map<Class, Registration>)
    requires p in regs && !PlainName(regs[p].tagName) && Lays(plan, order, bodies, used)
    ensures var found := Resolve(regs, "!" + regs[p].tagName, plan.directives);
            && found != Ok(Some(regs[p]))
            && (found == Ok(None) || Misread(regs, "!" + regs[p].tagName, plan.directives))
  {
    hide Handled, PlainName, ByUri, ByName;
    var tag := "!" + regs[p].tagName;
    var parts := SplitTag(tag);
    PrimarySplits(regs[p].tagName);
    SplitJoins(tag);
    hide SplitTag;
    if parts.handle.Some? && InScope(plan.directives, parts.handle.value).Some? {
      var h := parts.handle.value;
      ScopeFrom(plan.directives, h);
      var i :| 0 <= i < |plan.directives| && plan.directives[i] == Directive(h, InScope(plan.directives, h).value);
      NamedBehind(regs, order[i], parts.suffix);
      assert plan.directives[0].handle == "!" by { FirstHandle(bodies); }
      assert i > 0;
      assert tag[|h|..] == parts.suffix;
    }
  }

  // The tag of a class stands behind the handle of its source.
  lemma TagResolves(regs: Registrations, p: string, plan: WirePlan, order: seq<string>, bodies: seq<string>,
                    used: map<Class, Registration>, i: nat)
    requires p in regs && Lays(plan, order, bodies, used) && i <= |bodies| && order[i] == regs[p].source
    requires i == 0 ==> PlainName(regs[p].tagName)
    ensures Resolve(regs, Handle(bodies, i) + regs[p].tagName, plan.directives)
         == ByUri(regs, "tag:" + regs[p].source + "/" + regs[p].tagName)
  {
    var name := regs[p].tagName;
    assert Handled(order, bodies);
    PlanScopes(plan, order, bodies, used, i);
    SplitsThere(order, bodies, i, name);
    hide *;
    ResolvesThere(regs, Handle(bodies, i), name, "tag:" + regs[p].source + "/", plan.directives);
  }

  lemma SplitsThere(order: seq<string>, bodies: seq<string>, i: nat, name: string)
    requires Handled(order, bodies) && i <= |bodies| && (i == 0 ==> PlainName(name))
    ensures SplitTag(Handle(bodies, i) + name) == Parts(Some(Handle(bodies, i)), name)
  {
    hide Handled, PlainName, SplitTag;
    if i == 0 {
      PrimarySplits(name);
    } else {
      BodyIsBody(order, bodies, i - 1);
      NamedSplits(bodies[i - 1], name);
    }
  }

  lemma ResolvesThere(regs: Registrations, handle: string, name: string, prefix: string, directives: seq<Directive>)
    requires SplitTag(handle + name) == Parts(Some(handle), name) && InScope(directives, handle) == Some(prefix)
    ensures Resolve(regs, handle + name, directives) == ByUri(regs, prefix + name)
  {
    hide SplitTag, InScope, ByUri, ByName;
  }

  // A local tag whose handle no directive declares is found by its name, whatever the source: the one
  // class of that name, none, or an error that names them all.
  lemma LocalTagByName(regs: Registrations, name: string, directives: seq<Directive>)
    requires name != "" && PlainName(name) && forall i | 0 <= i < |directives| :: directives[i].handle != "!"
    ensures var found := Resolve(regs, "!" + name, directives);
            && (found == Ok(None) <==> forall p | p in regs :: regs[p].tagName != name)
            && (forall p | p in regs && regs[p].tagName == name ::
                  if forall r | r in regs && regs[r].tagName == name :: r == p then found == Ok(Some(regs[p]))
                  else found == Err(Ambiguous(Called(regs, name))))
  {
    hide PlainName, SplitTag;
    PrimarySplits(name);
    NotInScope(directives, "!");
    assert Resolve(regs, "!" + name, directives) == ByName(regs, name);
    forall p | p in regs && regs[p].tagName == name
      ensures |Called(regs, name)| == 1 <==> forall r | r in regs && regs[r].tagName == name :: r == p
      ensures |Called(regs, name)| == 1 ==> Only(Called(regs, name)) == p
      ensures Called(regs, name) != {}
    {
      OneCalled(regs, name, p);
    }
    if p :| p in Called(regs, name) {
      OneCalled(regs, name, p);
    }
  }

  lemma OneCalled(regs: Registrations, name: string, p: string)
    requires p in Called(regs, name)
    ensures |Called(regs, name)| == 1 <==> forall r | r in regs && regs[r].tagName == name :: r == p
    ensures |Called(regs, name)| == 1 ==> Only(Called(regs, name)) == p
  {
    var called := Called(regs, name);
    if |called| == 1 {
      assert called == {Only(called)};
      forall r | r in regs && regs[r].tagName == name ensures r == p {
        assert r in called;
      }
    }
    if forall r | r in regs && regs[r].tagName == name :: r == p {
      assert called == {p};
    }
  }

  lemma {:induction false} NotInScope(directives: seq<Directive>, handle: string)
    requires forall i | 0 <= i < |directives| :: directives[i].handle != handle
    ensures InScope(directives, handle) == None
    decreases |directives|
  {
    if directives != [] {
      NotInScope(directives[..|directives| - 1], handle);
    }
  }

  // Whether the source has the primary handle.
  predicate HasPrimary(plan: WirePlan, source: string) {
    plan.directives != [] && plan.directives[0].prefix == "tag:" + source + "/"
  }

  // The tag a plan writes for a class is resolved under the plan's own directives to that class
  // exactly when it can be told from every other and no other class carries it. Otherwise,
  // if it can be told, the ambiguity is reported with every candidate; and if it cannot, it leads
  // nowhere, or, from the source that has the primary handle, to what the name means in another.
  lemma TagComesBack(regs: Registrations, classes: seq<Class>, plan: WirePlan, c: Class)
    requires Plans(plan, Counts(regs, classes), Used(regs, classes)) && c in Used(regs, classes)
    ensures var r := regs[c.Path()];
            var found := Resolve(regs, plan.tags[c], plan.directives);
            var tellable := Tellable(r, HasPrimary(plan, r.source));
            && (found == Ok(Some(r)) <==> tellable && Carrying(regs, r.Id()) == {c.Path()})
            && (tellable && Carrying(regs, r.Id()) != {c.Path()} ==> found == Err(Ambiguous(Carrying(regs, r.Id()))))
            && (!tellable ==>
                  found == Ok(None)
                  || (HasPrimary(plan, r.source) && !PlainName(r.tagName) && Misread(regs, plan.tags[c], plan.directives)))
  {
    hide Counts, Arranged, Handled, Handle, Resolve, ByUri, IsSource, IsName, PlainName, Carrying;
    var r := regs[c.Path()];
    UsedAreCounted(regs, classes, c);
    var order, bodies :| Arranged(order, Counts(regs, classes)) && Lays(plan, order, bodies, Used(regs, classes));
    var i :| 0 <= i < |order| && i <= |bodies| && order[i] == r.source && plan.tags[c] == Handle(bodies, i) + r.tagName;
    assert plan.directives[0].prefix == "tag:" + order[0] + "/";
    SameSource(order, Counts(regs, classes), i);
    OwnUri(regs, c.Path());
    if i == 0 && !PlainName(r.tagName) {
      assert Handle(bodies, 0) == "!" by { FirstHandle(bodies); }
      SplitLosesName(regs, c.Path(), plan, order, bodies, Used(regs, classes));
    } else {
      TagResolves(regs, c.Path(), plan, order, bodies, Used(regs, classes), i);
    }
  }

  lemma FirstHandle(bodies: seq<string>)
    ensures Handle(bodies, 0) == "!"
  {
  }

  lemma SameSource(order: seq<string>, counts: map<string, nat>, i: nat)
    requires Arranged(order, counts) && i < |order|
    ensures "tag:" + order[0] + "/" == "tag:" + order[i] + "/" <==> i == 0
  {
    if i > 0 {
      ArrangedApart(order, counts, 0, i);
      assert ("tag:" + order[0] + "/")[4..|order[0]| + 4] == order[0];
      assert ("tag:" + order[i] + "/")[4..|order[i]| + 4] == order[i];
    }
  }

  lemma NoneUsed(regs: Registrations, classes: seq<Class>)
    ensures Counts(regs, classes) == map[] ==> Used(regs, classes) == map[]
    ensures forall c | c in Used(regs, classes) :: regs[c.Path()].source in Counts(regs, classes)
  {
    forall c | c in Used(regs, classes) ensures regs[c.Path()].source in Counts(regs, classes) {
      UsedAreCounted(regs, classes, c);
    }
  }

  // Sorting the sources by use and all but the first again by name puts them in a plan's order.
  lemma SourcesArranged(keys: seq<string>, counts: map<string, nat>)
    requires NoTwice(keys) && keys != [] && forall s :: s in keys <==> s in counts
    ensures var sorted := Sorted(keys, counts);
            && sorted != []
            && var rest := Sorted(sorted[1..], map[]);
               Arranged([sorted[0]] + rest, counts) && NoTwice([sorted[0]] + rest)
  {
    hide Ahead, Sorted;
    SortedSorts(keys, counts);
    var sorted := Sorted(keys, counts);
    AscendingApart(sorted, counts);
    RestApart(sorted);
    SortedSorts(sorted[1..], map[]);
    Rearranged(sorted, Sorted(sorted[1..], map[]), counts);
  }

  lemma Rearranged(sorted: seq<string>, rest: seq<string>, counts: map<string, nat>)
    requires sorted != [] && Ascending(sorted, counts) && NoTwice(sorted) && forall s :: s in sorted <==> s in counts
    requires Ascending(rest, map[]) && forall s :: s in rest <==> s in sorted[1..]
    ensures Arranged([sorted[0]] + rest, counts) && NoTwice([sorted[0]] + rest)
  {
    hide Ahead;
    AscendingApart(rest, map[]);
    var order := [sorted[0]] + rest;
    assert sorted == [sorted[0]] + sorted[1..];
    assert order[1..] == rest;
    forall s ensures s in order <==> s in counts {
      assert s in order <==> s == sorted[0] || s in rest;
      assert s in sorted <==> s == sorted[0] || s in sorted[1..];
    }
    forall i | 1 <= i < |order| ensures Ahead(counts, order[0], order[i]) && order[0] != order[i] {
      assert order[i] in sorted[1..];
      var j :| 0 <= j < |sorted[1..]| && sorted[1..][j] == order[i];
      assert sorted[j + 1] == order[i];
    }
  }

  lemma AscendingApart(names: seq<string>, use: map<string, nat>)
    requires Ascending(names, use)
    ensures NoTwice(names)
  {
    forall i, j | 0 <= i < j < |names| ensures names[i] != names[j] {
      AheadTotal(use, names[i], names[i]);
    }
  }

  // A name holding a `!` can be taken for another class's tag: behind the primary handle,
  // `liby!Gate` is the tag of `Gate` in the source whose handle is `!liby!`.
  lemma NameTakenForAnother(regs: Registrations, p: string, q: string, directives: seq<Directive>, body: string)
    requires p in regs && q in regs && IsHandleBody(body)
    requires regs[p].tagName == body + "!" + regs[q].tagName
    requires InScope(directives, "!" + body + "!") == Some("tag:" + regs[q].source + "/")
    requires IsSource(regs[q].source) && IsName(regs[q].tagName) && Carrying(regs, regs[q].Id()) == {q}
    ensures Resolve(regs, "!" + regs[p].tagName, directives) == Ok(Some(regs[q])) && p != q
  {
    hide IsSource, IsName, ByUri, InScope, IsHandleBody, Carrying, SplitTag;
    var name := regs[q].tagName;
    assert "!" + (body + "!" + name) == "!" + body + "!" + name;
    NamedSplits(body, name);
    OwnUri(regs, q);
  }

  // Two such classes, `liby!Gate` of `libx` and `Gate` of `liby`.
  function GateOf(a: Class): Registration {
    Registration(a, "liby!Gate", "libx", "libx", true)
  }

  function LibyGateOf(b: Class): Registration {
    Registration(b, "Gate", "liby", "liby", true)
  }

  function Gates(a: Class, b: Class): Registrations {
    map[a.Path() := GateOf(a), b.Path() := LibyGateOf(b)]
  }

  lemma GateCounts(a: Class, b: Class)
    requires a.Path() != b.Path()
    ensures Counts(Gates(a, b), [a, a, b]) == map["libx" := 2, "liby" := 1]
    ensures a in Used(Gates(a, b), [a, a, b]) && Used(Gates(a, b), [a, a, b])[a] == GateOf(a)
  {
    var regs := Gates(a, b);
    assert [a, a, b][..2] == [a, a] && [a, a][..1] == [a] && [a][..0] == [];
    assert Counts(regs, []) == map[];
    assert Counts(regs, [a]) == map["libx" := 1];
    assert Counts(regs, [a, a]) == map["libx" := 2];
    assert "libx"[3] != "liby"[3];
  }

  // The sources of a document that uses the first twice and the second once, and their handles.
  lemma GateOrder(order: seq<string>, bodies: seq<string>)
    requires Arranged(order, map["libx" := 2, "liby" := 1]) && Handled(order, bodies)
    ensures order == ["libx", "liby"] && bodies == ["liby"]
  {
    var counts: map<string, nat> := map["libx" := 2, "liby" := 1];
    assert "libx"[3] != "liby"[3];
    assert "libx" in order && "liby" in order;
    assert forall i | 1 <= i < |order| :: Ahead(counts, order[0], order[i]);
    assert order[0] in order;
    assert order[0] == "libx";
    if |order| > 2 {
      assert order[1] in order && order[2] in order;
      ArrangedApart(order, counts, 0, 1);
      ArrangedApart(order, counts, 0, 2);
      ArrangedApart(order, counts, 1, 2);
    }
    assert |order| == 2 && order[1] == "liby";
    assert FirstFree(Sanitised(order[0 + 1]), Bodies(bodies[..0]), bodies[0]);
    assert Bodies(bodies[..0]) == {};
    SanitisedKeeps("liby");
    FirstOfAll("liby", bodies[0]);
  }

  // A document that uses the first class twice and the second once: whatever plan is made for it, the
  // tag of the first is resolved to the second.
  lemma LibyGate(a: Class, b: Class, plan: WirePlan)
    requires a.Path() != b.Path() && Plans(plan, Counts(Gates(a, b), [a, a, b]), Used(Gates(a, b), [a, a, b]))
    ensures plan.directives == [Directive("!", "tag:libx/"), Directive("!liby!", "tag:liby/")]
    ensures a in plan.tags && plan.tags[a] == "!liby!Gate"
    ensures Resolve(Gates(a, b), plan.tags[a], plan.directives) == Ok(Some(LibyGateOf(b)))
  {
    hide Resolve, Handled, Arranged, Counts, Used;
    GateCounts(a, b);
    var used := Used(Gates(a, b), [a, a, b]);
    var counts: map<string, nat> := map["libx" := 2, "liby" := 1];
    assert "libx" in counts;
    var order, bodies :| Arranged(order, counts) && Lays(plan, order, bodies, used);
    GateOrder(order, bodies);
    GateLaid(a, plan, used);
    GateTaken(a, b);
  }

  lemma GateLaid(a: Class, plan: WirePlan, used: map<Class, Registration>)
    requires Lays(plan, ["libx", "liby"], ["liby"], used) && a in used && used[a] == GateOf(a)
    ensures plan.directives == [Directive("!", "tag:libx/"), Directive("!liby!", "tag:liby/")]
    ensures a in plan.tags && plan.tags[a] == "!liby!Gate"
  {
    hide Handled, Handle, GateOf;
    var order, bodies := ["libx", "liby"], ["liby"];
    GateHandles();
    assert "tag:" + "libx" + "/" == "tag:libx/" && "tag:" + "liby" + "/" == "tag:liby/";
    assert plan.directives[0] == Directive("!", "tag:libx/") && plan.directives[1] == Directive("!liby!", "tag:liby/");
    assert Tags(plan.tags[a], used[a], order, bodies);
    GateTag(a, plan.tags[a]);
  }

  lemma GateHandles()
    ensures Handle(["liby"], 0) == "!" && Handle(["liby"], 1) == "!liby!"
  {
    assert "!" + "liby" + "!" == "!liby!";
  }

  lemma GateTag(a: Class, tag: string)
    requires Tags(tag, GateOf(a), ["libx", "liby"], ["liby"])
    ensures tag == "!liby!Gate"
  {
    hide Handle;
    GateHandles();
    var order := ["libx", "liby"];
    var i :| 0 <= i < |order| && i <= 1 && order[i] == "libx" && tag == Handle(["liby"], i) + "liby!Gate";
    assert "libx"[3] != "liby"[3];
    assert "!" + "liby!Gate" == "!liby!Gate";
  }

  lemma GateTaken(a: Class, b: Class)
    requires a.Path() != b.Path()
    ensures Resolve(Gates(a, b), "!liby!Gate", [Directive("!", "tag:libx/"), Directive("!liby!", "tag:liby/")]) == Ok(Some(LibyGateOf(b)))
  {
    hide Resolve;
    var regs := Gates(a, b);
    var directives := [Directive("!", "tag:libx/"), Directive("!liby!", "tag:liby/")];
    ScopedAt(directives, 1);
    assert Carrying(regs, LibyGateOf(b).Id()) == {b.Path()} by {
      assert |GateOf(a).tagName| != |LibyGateOf(b).tagName|;
    }
    assert IsSource("liby") by {
      assert "liby"[1..] == "iby" && "iby"[1..] == "by" && "by"[1..] == "y" && "y"[1..] == "";
    }
    assert "liby" + "!" + "Gate" == "liby!Gate" && "!" + "liby!Gate" == "!liby!Gate";
    assert "!" + "liby" + "!" == "!liby!" && "tag:" + "liby" + "/" == "tag:liby/";
    hide IsSource, Carrying, InScope;
    NameTakenForAnother(regs, a.Path(), b.Path(), directives, "liby");
  }

  // The bodies given so far, each the first one free.
  ghost predicate AllFree(rest: seq<string>, bodies: seq<string>) {
    |bodies| <= |rest| && forall i | 0 <= i < |bodies| :: FirstFree(Sanitised(rest[i]), Bodies(bodies[..i]), bodies[i])
  }

  ghost predicate Mapped(rest: seq<string>, bodies: seq<string>, handles: map<string, string>) {
    && |bodies| <= |rest|
    && (forall s :: s in handles <==> s in rest[..|bodies|])
    && forall i | 0 <= i < |bodies| :: handles[rest[i]] == "!" + bodies[i] + "!"
  }

  lemma OneMoreFree(rest: seq<string>, bodies: seq<string>, body: string)
    requires AllFree(rest, bodies) && |bodies| < |rest|
    requires FirstFree(Sanitised(rest[|bodies|]), Bodies(bodies), body)
    ensures AllFree(rest, bodies + [body])
  {
    hide FirstFree, Sanitised, Bodies;
    var more := bodies + [body];
    forall i | 0 <= i < |more| ensures FirstFree(Sanitised(rest[i]), Bodies(more[..i]), more[i]) {
      if i < |bodies| {
        assert more[..i] == bodies[..i];
      } else {
        assert more[..i] == bodies;
      }
    }
  }

  lemma OneMoreMapped(rest: seq<string>, bodies: seq<string>, body: string, handles: map<string, string>)
    requires Mapped(rest, bodies, handles) && |bodies| < |rest| && NoTwice(rest)
    ensures Mapped(rest, bodies + [body], handles[rest[|bodies|] := "!" + body + "!"])
  {
    var n := |bodies|;
    assert rest[..n + 1] == rest[..n] + [rest[n]];
  }

  lemma RestApart(order: seq<string>)
    requires NoTwice(order) && order != []
    ensures NoTwice(order[1..])
  {
    forall i, j | 0 <= i < j < |order[1..]| ensures order[1..][i] != order[1..][j] {
      assert order[i + 1] != order[j + 1];
    }
  }

  // With the first source's handle the map gives every source its own.
  lemma WholeMapped(order: seq<string>, bodies: seq<string>, handles: map<string, string>)
    requires NoTwice(order) && order != [] && |bodies| + 1 == |order| && Mapped(order[1..], bodies, handles)
    ensures var all := handles[order[0] := "!"];
            forall i | 0 <= i < |order| :: order[i] in all && all[order[i]] == Handle(bodies, i)
    ensures forall s :: s in order ==> s in handles[order[0] := "!"]
  {
    var all := handles[order[0] := "!"];
    var rest := order[1..];
    assert rest[..|bodies|] == rest;
    forall i | 0 <= i < |order| ensures order[i] in all && all[order[i]] == Handle(bodies, i) {
      if i > 0 {
        assert rest[i - 1] == order[i] && rest[i - 1] in rest;
      }
    }
  }

  lemma LaidOut(plan: WirePlan, order: seq<string>, bodies: seq<string>, used: map<Class, Registration>,
                handles: map<string, string>)
    requires |bodies| + 1 == |order| && AllFree(order[1..], bodies)
    requires forall i | 0 <= i < |order| :: order[i] in handles && handles[order[i]] == Handle(bodies, i)
    requires forall c | c in used :: used[c].source in order
    requires |plan.directives| == |order|
    requires forall i | 0 <= i < |order| :: plan.directives[i] == Directive(handles[order[i]], "tag:" + order[i] + "/")
    requires plan.tags.Keys == used.Keys
    requires forall c | c in used :: plan.tags[c] == handles[used[c].source] + used[c].tagName
    ensures Lays(plan, order, bodies, used)
  {
    hide FirstFree, Sanitised, Bodies, Handle;
    forall c | c in used ensures Tags(plan.tags[c], used[c], order, bodies) {
      var i :| 0 <= i < |order| && order[i] == used[c].source;
    }
    assert forall i | 0 <= i < |bodies| :: order[1..][i] == order[i + 1];
  }

  // ------------------------------------------------------------------ the registry

  class TagRegistry {
    var byPath: Registrations

    ghost predicate Valid()
      reads this
    {
      Keyed(byPath)
    }

    constructor ()
      ensures Valid() && byPath == map[]
    {
      byPath := map[];
    }

    method RegisterClass(cls: Class, tag: Option<string>, source: Option<string>,
                         yamlTag: Option<string>, yamlSource: Option<string>)
      requires Valid()
      modifies this
      ensures Valid()
      ensures byPath == Registered(old(byPath), RecordOf(cls, tag, source, yamlTag, yamlSource))
    {
      var record := RecordOf(cls, tag, source, yamlTag, yamlSource);
      byPath := byPath[record.cls.Path() := record];
      PromotedAgain(Promoted(byPath), byPath);
      byPath := Promoted(byPath);
    }

    // Counts the classes, source by source, in the order the sources come up.
    method Count(classes: seq<Class>) returns (keys: seq<string>, counts: map<string, nat>, used: map<Class, Registration>)
      ensures counts == Counts(byPath, classes) && used == Used(byPath, classes)
      ensures NoTwice(keys) && forall s :: s in keys <==> s in counts
    {
      keys, counts, used := [], map[], map[];
      for k := 0 to |classes|
        invariant counts == Counts(byPath, classes[..k]) && used == Used(byPath, classes[..k])
        invariant NoTwice(keys) && forall s :: s in keys <==> s in counts
      {
        var c := classes[k];
        CountedUpTo(byPath, classes, k);
        hide Counts, Used;
        if c.Path() in byPath {
          var record := byPath[c.Path()];
          used := used[c := record];
          if record.source !in counts {
            keys := keys + [record.source];
          }
          counts := counts[record.source := Uses(counts, record.source) + 1];
        }
      }
      assert classes[..|classes|] == classes;
    }

    // Gives every source but the first a handle of its own.
    method Handles(rest: seq<string>) returns (handles: map<string, string>, ghost bodies: seq<string>)
      requires NoTwice(rest)
      ensures AllFree(rest, bodies) && |bodies| == |rest| && Mapped(rest, bodies, handles)
    {
      handles, bodies := map[], [];
      var taken: set<string> := {};
      for k := 0 to |rest|
        invariant |bodies| == k && taken == Bodies(bodies)
        invariant AllFree(rest, bodies) && Mapped(rest, bodies, handles)
      {
        ghost var before, had := bodies, handles;
        var body;
        body, taken := Alloc(Sanitised(rest[k]), taken);
        handles := handles[rest[k] := "!" + body + "!"];
        bodies := bodies + [body];
        OneMoreFree(rest, before, body);
        OneMoreMapped(rest, before, body, had);
      }
    }

    method Plan(classes: seq<Class>) returns (plan: WirePlan)
      ensures Plans(plan, Counts(byPath, classes), Used(byPath, classes))
    {
      var keys, counts, used := Count(classes);
      NoneUsed(byPath, classes);
      if counts == map[] {
        return WirePlan([], map[]);
      }
      assert keys != [];
      SourcesArranged(keys, counts);
      var sorted := Sorted(keys, counts);
      var order := [sorted[0]] + Sorted(sorted[1..], map[]);
      ghost var bodies;
      assert NoTwice(order) && order != [];
      assert forall c | c in used :: used[c].source in order;
      hide Arranged, NoTwice, Counts, Used, Sorted, Lays;
      plan, bodies := WriteOut(order, used);
    }

    // The directives and the tags of a plan whose sources are in order.
    method WriteOut(order: seq<string>, used: map<Class, Registration>) returns (plan: WirePlan, ghost bodies: seq<string>)
      requires NoTwice(order) && order != [] && forall c | c in used :: used[c].source in order
      ensures Lays(plan, order, bodies, used)
    {
      var handles;
      RestApart(order);
      hide NoTwice, AllFree, Mapped, Lays, Handle;
      handles, bodies := Handles(order[1..]);
      WholeMapped(order, bodies, handles);
      handles := handles[order[0] := "!"];
      plan := WirePlan(
        seq(|order|, i requires 0 <= i < |order| => Directive(handles[order[i]], "tag:" + order[i] + "/")),
        map c | c in used :: handles[used[c].source] + used[c].tagName);
      LaidOut(plan, order, bodies, used, handles);
    }
  }
}
