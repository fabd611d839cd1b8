// A class's tag, from the plan of a document through the emitter, the scanner and the parser
// (python/yamluna/registry.py, python/yamluna/representer.py, crates/yamluna-core/src/emitter/mod.rs,
// crates/yamluna-scanner/src/scanner.rs, crates/yamluna-scanner/src/parser.rs).
module TagRoundTrip {
  import opened Results
  import opened Events
  import opened FlowScan
  import opened Input
  import opened CharTraits
  import opened TagScan
  import Registry
  import TagText
  import ParserStep
  import ParserMeans
  import Written

  // ------------------------------------------------------------------ the lines of a plan

  function Line(d: Registry.Directive): Token {
    Token.TagDirective(d.handle, d.prefix)
  }

  function Lines(ds: seq<Registry.Directive>): (ts: seq<Token>)
    ensures |ts| == |ds| && forall i | 0 <= i < |ds| :: ts[i] == Line(ds[i])
  {
    if ds == [] then [] else [Line(ds[0])] + Lines(ds[1..])
  }

  // No handle is declared twice.
  ghost predicate Apart(ds: seq<Registry.Directive>) {
    forall i, j | 0 <= i < j < |ds| :: ds[i].handle != ds[j].handle
  }

  // A handle and a prefix, on one line of many.
  ghost predicate Declares(ds: seq<Registry.Directive>, handle: string, prefix: string) {
    exists i | 0 <= i < |ds| :: ds[i].handle == handle && ds[i].prefix == prefix
  }

  // What lines put in scope: each its handle, and nothing else.
  ghost predicate PutInScope(ds: seq<Registry.Directive>, tags: map<string, string>, after: map<string, string>) {
    && (forall i | 0 <= i < |ds| :: ds[i].handle in after && after[ds[i].handle] == ds[i].prefix)
    && (forall h | h in after && h !in tags :: Declares(ds, h, after[h]))
    && (forall h | h in tags :: h in after && after[h] == tags[h])
  }

  ghost predicate AllNew(ds: seq<Registry.Directive>, tags: map<string, string>) {
    forall i | 0 <= i < |ds| :: ds[i].handle !in tags
  }

  // Lines that declare no handle twice are read.
  lemma {:induction false} LinesRead(ds: seq<Registry.Directive>, tags: map<string, string>) returns (after: map<string, string>)
    requires Apart(ds) && AllNew(ds, tags)
    ensures Written.AllDirectives(Lines(ds)) && Written.MeanDirectives(Lines(ds), None, tags) == Ok((None, after))
    ensures PutInScope(ds, tags, after)
    decreases |ds|
  {
    if ds == [] {
      after := tags;
    } else {
      OneNew(ds, tags);
      hide Apart, AllNew, PutInScope;
      after := LinesRead(ds[1..], tags[ds[0].handle := ds[0].prefix]);
      assert Lines(ds)[1..] == Lines(ds[1..]);
      OneInScope(ds, tags, after);
    }
  }

  lemma OneNew(ds: seq<Registry.Directive>, tags: map<string, string>)
    requires ds != [] && Apart(ds) && AllNew(ds, tags)
    ensures Apart(ds[1..]) && AllNew(ds[1..], tags[ds[0].handle := ds[0].prefix]) && ds[0].handle !in tags
  {
    assert forall i | 0 <= i < |ds[1..]| :: ds[1..][i] == ds[i + 1];
  }

  lemma OneInScope(ds: seq<Registry.Directive>, tags: map<string, string>, after: map<string, string>)
    requires ds != [] && ds[0].handle !in tags && PutInScope(ds[1..], tags[ds[0].handle := ds[0].prefix], after)
    ensures PutInScope(ds, tags, after)
  {
    var d := ds[0];
    forall i | 0 <= i < |ds| ensures ds[i].handle in after && after[ds[i].handle] == ds[i].prefix {
      assert i > 0 ==> ds[i] == ds[1..][i - 1];
    }
    forall h | h in after && h !in tags ensures Declares(ds, h, after[h]) {
      if h == d.handle {
        assert ds[0].handle == h;
      } else {
        assert Declares(ds[1..], h, after[h]);
        var i :| 0 <= i < |ds[1..]| && ds[1..][i].handle == h && ds[1..][i].prefix == after[h];
        assert ds[i + 1] == ds[1..][i];
      }
    }
    forall h | h in tags ensures h in after && after[h] == tags[h] {
      assert h in tags[d.handle := d.prefix];
    }
  }

  // ------------------------------------------------------------------ the tag of a class

  // What the representer makes of a tag: where no directive can apply, the primary handle.
  function HandleOf(tag: string): string {
    var parts := TagText.SplitTag(tag);
    if parts.handle.None? then "!" else parts.handle.value
  }

  function SuffixOf(tag: string): string {
    TagText.SplitTag(tag).suffix
  }

  function Rendered(tag: string): string {
    RenderTag(HandleOf(tag), SuffixOf(tag))
  }

  // The absolute tag that a handle and a suffix come to in a document.
  function Absolute(tags: map<string, string>, handle: string, suffix: string): Option<string> {
    match ParserStep.ResolveTag(tags, handle, suffix)
    case Err(_) => None
    case Ok(tag) => Some(tag.handle + tag.suffix)
  }

  // The lines of a plan are read, each handle once, and each prefix ends in a slash.
  lemma PlanDeclares(plan: Registry.WirePlan, order: seq<string>, bodies: seq<string>,
                     used: map<Registry.Class, Registry.Registration>) returns (tags: map<string, string>)
    requires Registry.Lays(plan, order, bodies, used)
    ensures Written.AllDirectives(Lines(plan.directives))
    ensures Written.MeanDirectives(Lines(plan.directives), None, map[]) == Ok((None, tags))
    ensures forall i | 0 <= i <= |bodies| ::
              Registry.Handle(bodies, i) in tags && tags[Registry.Handle(bodies, i)] == "tag:" + order[i] + "/"
    ensures forall h | h in tags :: tags[h] != "" && tags[h][|tags[h]| - 1] == '/' && h != "!!"
  {
    hide Registry.Handle;
    var ds := plan.directives;
    assert Registry.Handled(order, bodies) && |ds| == |order| == |bodies| + 1;
    hide Registry.Handled;
    forall i, j | 0 <= i < j < |ds| ensures ds[i].handle != ds[j].handle {
      Registry.HandlesApart(order, bodies, i, j);
    }
    tags := LinesRead(ds, map[]);
    hide Written.MeanDirectives;
    forall i | 0 <= i <= |bodies|
      ensures Registry.Handle(bodies, i) in tags && tags[Registry.Handle(bodies, i)] == "tag:" + order[i] + "/"
    {
      assert ds[i] == Registry.Directive(Registry.Handle(bodies, i), "tag:" + order[i] + "/");
    }
    forall h | h in tags ensures tags[h] != "" && tags[h][|tags[h]| - 1] == '/' && h != "!!" {
      assert Declares(ds, h, tags[h]);
      var i :| 0 <= i < |ds| && ds[i].handle == h && ds[i].prefix == tags[h];
      NotSecondary(order, bodies, i);
    }
  }

  lemma NotSecondary(order: seq<string>, bodies: seq<string>, i: nat)
    requires Registry.Handled(order, bodies) && i <= |bodies|
    ensures var h := Registry.Handle(bodies, i); IsHandle(h) && h != "" && h != "!!"
  {
    if i > 0 {
      Registry.BodyIsBody(order, bodies, i - 1);
      hide Registry.Handled;
      var h := Registry.Handle(bodies, i);
      assert h[1..|h| - 1] == bodies[i - 1];
      assert |h| == |bodies[i - 1]| + 2;
    }
  }

  // A handle that a tag is split at, and that is not the primary one, ends in `!`.
  lemma SplitHandle(tag: string)
    ensures var h := TagText.SplitTag(tag).handle; h.Some? && h.value != "!" ==> IsNamed(h.value)
  {
  }

  lemma SameFront(a: string, b: string, tail: string)
    requires a + tail == b + tail
    ensures a == b
  {
    assert a == (a + tail)[..|a|];
    assert b == (b + tail)[..|b|];
  }

  // In the source that has the primary handle a name with a `!` of its own, or one between angle
  // brackets, comes to another tag, or to none.
  lemma LostName(tags: map<string, string>, source: string, name: string)
    requires !TagText.PlainName(name) && "!" in tags && tags["!"] == "tag:" + source + "/"
    requires forall h | h in tags :: tags[h] != "" && tags[h][|tags[h]| - 1] == '/' && h != "!!"
    ensures Absolute(tags, HandleOf("!" + name), SuffixOf("!" + name)) != Some("tag:" + source + "/" + name)
  {
    var tag := "!" + name;
    var h, suffix := HandleOf(tag), SuffixOf(tag);
    TagText.PrimarySplits(name);
    TagText.SplitJoins(tag);
    SplitHandle(tag);
    ParserMeans.TagResolved(tags, h, suffix);
    hide TagText.SplitTag, TagText.PlainName;
    var uri := "tag:" + source + "/" + name;
    if h == "!" {
      assert Absolute(tags, h, suffix) == Some(tags["!"] + suffix);
      assert |tags["!"] + suffix| < |uri|;
    } else if Absolute(tags, h, suffix).Some? {
      var prefix := if h in tags then tags[h] else "tag:yaml.org,2002:";
      assert Absolute(tags, h, suffix) == Some(prefix + suffix);
      assert name == h[1..] + suffix by { assert tag[1..] == name; assert (h + suffix)[1..] == h[1..] + suffix; }
      var whole := "tag:" + source + "/" + h[1..];
      assert uri == whole + suffix;
      assert whole[|whole| - 1] == '!';
      assert prefix[|prefix| - 1] != '!';
      if prefix + suffix == uri {
        SameFront(prefix, whole, suffix);
      }
    }
  }

  // What the plan of a document writes for a class comes to the class's absolute tag under the
  // plan's own lines if and only if the name may stand behind its handle; and the scanner reads it
  // if and only if it is not empty and made of the characters a tag can spell.
  lemma PlannedTagRead(regs: Registry.Registrations, classes: seq<Registry.Class>, plan: Registry.WirePlan,
                       c: Registry.Class, at: Cursor, rest: string, flowLevel: nat) returns (tags: map<string, string>)
    requires Registry.Plans(plan, Registry.Counts(regs, classes), Registry.Used(regs, classes))
    requires c in Registry.Used(regs, classes) && c in plan.tags
    requires at.s == Rendered(plan.tags[c]) + rest && Separated(rest, flowLevel)
    ensures Written.AllDirectives(Lines(plan.directives))
    ensures Written.MeanDirectives(Lines(plan.directives), None, map[]) == Ok((None, tags))
    ensures var tag := plan.tags[c];
            var r := regs[c.Path()];
            var plain := Registry.HasPrimary(plan, r.source) ==> TagText.PlainName(r.tagName);
            && (Absolute(tags, HandleOf(tag), SuffixOf(tag)) == Some(TagText.Uri(r.Id())) <==> plain)
            && (plain ==>
                  (ComesBack(at, HandleOf(tag), SuffixOf(tag), rest, flowLevel) <==>
                     AllSpellable(r.tagName) && r.tagName != ""))
  {
    hide Registry.Counts, Registry.Arranged, Registry.Handled, Registry.Handle, TagText.PlainName, TagText.SplitTag, RenderTag;
    hide ComesBack, ParserStep.ResolveTag, IsHandle, Separated, AllSpellable;
    var r := regs[c.Path()];
    Registry.UsedAreCounted(regs, classes, c);
    var order, bodies :| Registry.Arranged(order, Registry.Counts(regs, classes)) && Registry.Lays(plan, order, bodies, Registry.Used(regs, classes));
    var i :| 0 <= i < |order| && i <= |bodies| && order[i] == r.source && plan.tags[c] == Registry.Handle(bodies, i) + r.tagName;
    assert plan.directives[0].prefix == "tag:" + order[0] + "/";
    Registry.SameSource(order, Registry.Counts(regs, classes), i);
    tags := PlanDeclares(plan, order, bodies, Registry.Used(regs, classes));
    hide Written.MeanDirectives;
    Registry.FirstHandle(bodies);
    if i == 0 && !TagText.PlainName(r.tagName) {
      LostName(tags, r.source, r.tagName);
    } else {
      Registry.SplitsThere(order, bodies, i, r.tagName);
      NotSecondary(order, bodies, i);
      ParserMeans.TagResolved(tags, Registry.Handle(bodies, i), r.tagName);
      RenderedTagComesBack(at, Registry.Handle(bodies, i), r.tagName, rest, flowLevel);
    }
  }

  // And so are the lines, where the source is made of the characters of URIs.
  lemma PlannedLineRead(plan: Registry.WirePlan, order: seq<string>, bodies: seq<string>,
                        used: map<Registry.Class, Registry.Registration>, i: nat, at: Cursor, rest: string)
    requires Registry.Lays(plan, order, bodies, used) && i < |plan.directives|
    requires PlainPrefix(plan.directives[i].prefix) && IsBlankOrBreakz(Peek(rest))
    requires at.s == RenderDirective(plan.directives[i].handle, plan.directives[i].prefix) + rest
    ensures ScanDirective(at).Ok? && ScanDirective(at).value.handle == plan.directives[i].handle
    ensures ScanDirective(at).value.suffix == plan.directives[i].prefix && ScanDirective(at).value.end.s == rest
  {
    assert |order| == |bodies| + 1;
    hide PlainPrefix, ScanDirective, RenderDirective, Registry.Handled, Registry.Handle, IsHandle;
    NotSecondary(order, bodies, i);
    DirectiveComesBack(at, plan.directives[i].handle, plan.directives[i].prefix, rest);
  }
}
