// Documents as trees of what was written, the tokens that write them, and what they mean: the
// reference the parser is compared with (crates/yamluna-scanner/src/parser.rs).
module Written {
  import opened Results
  import opened ScalarEmitter
  import opened Events
  import opened ParserStep

  // The anchor and the tag in front of a node, in the order they were written.
  datatype Props = Props(anchor: Option<string>, tag: Option<(string, string)>, tagFirst: bool)

  datatype Node =
    | Missing
    | Reference(name: string)
    | Bare(props: Props)
    | Text(props: Props, style: ScalarStyle, value: string)
    | BlockSeq(props: Props, items: Items)
    | Indentless(props: Props, items: Items)
    | BlockMap(props: Props, entries: Entries)
    | FlowSeq(props: Props, cells: Cells)
    | FlowMap(props: Props, members: Members)

  datatype Items = NoItems | Items(head: Node, tail: Items)

  // The entries of a block mapping; either half may have been left unwritten.
  datatype Entries = NoEntries | Entries(half: Halves, key: Node, value: Node, tail: Entries)

  datatype Halves = KeyOnly | ValueOnly | KeyAndValue

  // The items of a flow sequence, some of them single pairs without braces: opened by `?`, or by a `:`
  // alone; `Comma` is a `,` with nothing behind it.
  datatype Cells =
    | NoCells
    | Comma
    | Item(item: Node, tail: Cells)
    | Pair(half: Halves, key: Node, value: Node, tail: Cells)

  // The members of a flow mapping; `Lone` is a node that is neither marked as a key nor followed by a value.
  datatype Members =
    | NoMembers
    | LastComma
    | Lone(key: Node, tail: Members)
    | Member(half: Halves, key: Node, value: Node, tail: Members)

  // ------------------------------------------------------------------ what may be written where

  predicate Flows(n: Node) {
    match n
    case FlowSeq(_, cells) => CellsFlow(cells) && !cells.Comma?
    case FlowMap(_, members) => MembersFlow(members) && !members.LastComma?
    case Bare(props) => props.anchor.Some? || props.tag.Some?
    case _ => n.Missing? || n.Reference? || n.Text?
  }

  predicate CellsFlow(c: Cells) {
    match c
    case NoCells => true
    case Comma => true
    case Item(n, tail) => Flows(n) && !n.Missing? && CellsFlow(tail)
    case Pair(half, k, v, tail) => Flows(k) && Flows(v) && Halved(half, k, v) && CellsFlow(tail)
  }

  predicate MembersFlow(m: Members) {
    match m
    case NoMembers => true
    case LastComma => true
    case Lone(n, tail) => Flows(n) && !n.Missing? && MembersFlow(tail)
    case Member(half, k, v, tail) => Flows(k) && Flows(v) && Halved(half, k, v) && MembersFlow(tail)
  }

  // A half that was not written has nothing in it.
  predicate Halved(half: Halves, k: Node, v: Node) {
    (half.ValueOnly? ==> k.Missing?) && (half.KeyOnly? ==> v.Missing?)
  }

  // `inMapping` is whether a sequence may stand without indentation of its own.
  predicate Blocks(n: Node, inMapping: bool) {
    match n
    case BlockSeq(_, items) => ItemsBlock(items)
    case Indentless(_, items) => inMapping && items.Items? && ItemsBlock(items)
    case BlockMap(_, entries) => EntriesBlock(entries)
    case _ => Flows(n)
  }

  predicate ItemsBlock(i: Items) {
    i.Items? ==> Blocks(i.head, false) && ItemsBlock(i.tail)
  }

  predicate EntriesBlock(e: Entries) {
    e.Entries? ==>
      && Blocks(e.key, true) && Blocks(e.value, true) && Halved(e.half, e.key, e.value) && EntriesBlock(e.tail)
      && (e.half.KeyOnly? && e.tail.Entries? ==> !e.tail.half.ValueOnly?)
  }

  // ------------------------------------------------------------------ the tokens

  function PropWords(p: Props): seq<Token> {
    var a := if p.anchor.Some? then [Token.Anchor(p.anchor.value)] else [];
    var t := if p.tag.Some? then [Token.Tag(p.tag.value.0, p.tag.value.1)] else [];
    if p.tagFirst then t + a else a + t
  }

  function Words(n: Node): seq<Token>
    decreases n, 1
  {
    match n
    case Missing => []
    case Reference(name) => [Token.Alias(name)]
    case _ => PropWords(n.props) + ContentWords(n)
  }

  function ContentWords(n: Node): seq<Token>
    decreases n, 0
  {
    match n
    case Text(p, style, value) => [Token.Scalar(style, value)]
    case BlockSeq(p, items) => [BlockSequenceStart] + (ItemWords(items) + [BlockEnd])
    case Indentless(p, items) => ItemWords(items)
    case BlockMap(p, entries) => [BlockMappingStart] + (EntryWords(entries) + [BlockEnd])
    case FlowSeq(p, cells) => [FlowSequenceStart] + (FirstCellWords(cells) + [FlowSequenceEnd])
    case FlowMap(p, members) => [FlowMappingStart] + (FirstMemberWords(members) + [FlowMappingEnd])
    case _ => []
  }

  function ItemWords(i: Items): seq<Token>
    decreases i, 0
  {
    if i.NoItems? then [] else [BlockEntry] + (Words(i.head) + ItemWords(i.tail))
  }

  // A key and a value, each behind its token, as far as they were written.
  function HalfWords(half: Halves, key: seq<Token>, value: seq<Token>): seq<Token> {
    match half
    case KeyOnly => [Key] + key
    case ValueOnly => [Value] + value
    case KeyAndValue => [Key] + (key + ([Value] + value))
  }

  function EntryWords(e: Entries): seq<Token>
    decreases e, 0
  {
    if e.NoEntries? then [] else HalfWords(e.half, Words(e.key), Words(e.value)) + EntryWords(e.tail)
  }

  function FirstCellWords(c: Cells): seq<Token>
    decreases c, 0
  {
    match c
    case NoCells => []
    case Comma => []
    case Item(n, tail) => Words(n) + CellWords(tail)
    case Pair(half, k, v, tail) => HalfWords(half, Words(k), Words(v)) + CellWords(tail)
  }

  function CellWords(c: Cells): seq<Token>
    decreases c, 0
  {
    match c
    case NoCells => []
    case Comma => [FlowEntry]
    case Item(n, tail) => [FlowEntry] + (Words(n) + CellWords(tail))
    case Pair(half, k, v, tail) => [FlowEntry] + (HalfWords(half, Words(k), Words(v)) + CellWords(tail))
  }

  function FirstMemberWords(m: Members): seq<Token>
    decreases m, 0
  {
    match m
    case NoMembers => []
    case LastComma => []
    case Lone(n, tail) => Words(n) + MemberWords(tail)
    case Member(half, k, v, tail) => HalfWords(half, Words(k), Words(v)) + MemberWords(tail)
  }

  function MemberWords(m: Members): seq<Token>
    decreases m, 0
  {
    match m
    case NoMembers => []
    case LastComma => [FlowEntry]
    case Lone(n, tail) => [FlowEntry] + (Words(n) + MemberWords(tail))
    case Member(half, k, v, tail) => [FlowEntry] + (HalfWords(half, Words(k), Words(v)) + MemberWords(tail))
  }

  // ------------------------------------------------------------------ the meaning

  // The events something stands for, and how they end: with the parser ready for what follows, its
  // anchors brought up to date, or with an error. `joined` is whether this is how the parser takes
  // it, a pair of which only the `?` was written being taken for one with a `:` behind the next `,`.
  datatype Meaning = Meaning(events: seq<Event>, verdict: Result<Env, ParseError>)

  function Single(e: Event, env: Env): Meaning {
    Meaning([e], Ok(env))
  }

  function Stop(e: ParseError): Meaning {
    Meaning([], Err(e))
  }

  // A handle between two `!`.
  predicate NamedHandle(handle: string) {
    |handle| >= 2 && handle[0] == '!' && handle[|handle| - 1] == '!'
  }

  // What handles stand for: what the document declares, and `!!` for the core types where it does not.
  function Scope(tags: map<string, string>): map<string, string> {
    map["!!" := "tag:yaml.org,2002:"] + tags
  }

  // A handle in scope is replaced by its prefix; of the others only those without a name may be used.
  function MeanTag(tags: map<string, string>, handle: string, suffix: string): Result<ResolvedTag, ParseError> {
    if handle in Scope(tags) then Ok(ResolvedTag(Scope(tags)[handle], suffix))
    else if NamedHandle(handle) then Err(UndeclaredTagHandle)
    else Ok(ResolvedTag(handle, suffix))
  }

  // The anchor gets the next number, the tag its prefix.
  function MeanProps(p: Props, env: Env): Result<(Properties, Env), ParseError> {
    var anchor := if p.anchor.Some? then AnchorRef(env.nextAnchor, p.anchor) else NoAnchor;
    var next :=
      if p.anchor.None? then env
      else env.(anchors := env.anchors[p.anchor.value := env.nextAnchor], nextAnchor := env.nextAnchor + 1);
    if p.tag.None? then Ok((Properties(anchor, None), next))
    else
      match MeanTag(env.tags, p.tag.value.0, p.tag.value.1)
      case Err(e) => Err(e)
      case Ok(tag) => Ok((Properties(anchor, Some(tag)), next))
  }

  function Mean(n: Node, env: Env, joined: bool): (r: Meaning)
    ensures r.verdict.Ok? ==> r.verdict.value.nextAnchor >= env.nextAnchor
    decreases n, 2
  {
    match n
    case Missing => Single(NullScalar(), env)
    case Reference(name) =>
      if name in env.anchors then Single(Event.Alias(AnchorRef(env.anchors[name], Some(name))), env)
      else Stop(UnknownAnchor)
    case _ =>
      match MeanProps(n.props, env)
      case Err(e) => Stop(e)
      case Ok((p, next)) => MeanContent(n, p, next, joined)
  }

  function MeanContent(n: Node, p: Properties, env: Env, joined: bool): (r: Meaning)
    ensures r.verdict.Ok? ==> r.verdict.value.nextAnchor >= env.nextAnchor
    decreases n, 1
  {
    match n
    case BlockSeq(_, items) => Prefix(SequenceStart(p.anchor, p.tag, Block), MeanItems(items, env, joined))
    case Indentless(_, items) => Prefix(SequenceStart(p.anchor, p.tag, Block), MeanItems(items, env, joined))
    case BlockMap(_, entries) => Prefix(MappingStart(p.anchor, p.tag, Block), MeanEntries(entries, env, joined))
    case FlowSeq(_, cells) => Prefix(SequenceStart(p.anchor, p.tag, Flow), MeanCells(cells, env, joined))
    case FlowMap(_, members) => Prefix(MappingStart(p.anchor, p.tag, Flow), MeanMembers(members, env, joined))
    case Text(_, style, value) => Single(Event.Scalar(value, style, p.anchor, p.tag), env)
    case _ => Single(Event.Scalar("", ScalarStyle.Plain, p.anchor, p.tag), env)
  }

  function Prefix(e: Event, m: Meaning): Meaning {
    Meaning([e] + m.events, m.verdict)
  }

  function Append(a: Meaning, b: Meaning): Meaning {
    Meaning(a.events + b.events, b.verdict)
  }

  function MeanItems(i: Items, env: Env, joined: bool): (r: Meaning)
    ensures r.verdict.Ok? ==> r.verdict.value.nextAnchor >= env.nextAnchor
    decreases i, 0
  {
    if i.NoItems? then Single(SequenceEnd, env)
    else
      var a := Mean(i.head, env, joined);
      if a.verdict.Err? then a else Append(a, MeanItems(i.tail, a.verdict.value, joined))
  }

  function MeanEntries(e: Entries, env: Env, joined: bool): (r: Meaning)
    ensures r.verdict.Ok? ==> r.verdict.value.nextAnchor >= env.nextAnchor
    decreases e, 0
  {
    if e.NoEntries? then Single(MappingEnd, env)
    else
      var a := Mean(e.key, env, joined);
      if a.verdict.Err? then a
      else
        var b := Mean(e.value, a.verdict.value, joined);
        Append(a, if b.verdict.Err? then b else Append(b, MeanEntries(e.tail, b.verdict.value, joined)))
  }

  function MeanMembers(m: Members, env: Env, joined: bool): (r: Meaning)
    ensures r.verdict.Ok? ==> r.verdict.value.nextAnchor >= env.nextAnchor
    decreases m, 0
  {
    match m
    case NoMembers => Single(MappingEnd, env)
    case LastComma => Single(MappingEnd, env)
    case Lone(k, tail) =>
      var a := Mean(k, env, joined);
      if a.verdict.Err? then a else Append(a, Prefix(NullScalar(), MeanMembers(tail, a.verdict.value, joined)))
    case Member(_, k, v, tail) =>
      var a := Mean(k, env, joined);
      if a.verdict.Err? then a
      else
        var b := Mean(v, a.verdict.value, joined);
        Append(a, if b.verdict.Err? then b else Append(b, MeanMembers(tail, b.verdict.value, joined)))
  }

  function MeanCells(c: Cells, env: Env, joined: bool): (r: Meaning)
    ensures r.verdict.Ok? ==> r.verdict.value.nextAnchor >= env.nextAnchor
    decreases c, 1
  {
    match c
    case NoCells => Single(SequenceEnd, env)
    case Comma => Single(SequenceEnd, env)
    case Item(n, tail) =>
      var a := Mean(n, env, joined);
      if a.verdict.Err? then a else Append(a, MeanCells(tail, a.verdict.value, joined))
    case Pair(_, _, _, tail) =>
      if joined && Joins(c) then MeanCells(tail, env, joined)
      else
        var p := Prefix(MappingStart(NoAnchor, None, Flow), MeanPair(c, env, joined));
        if p.verdict.Err? then p else Append(p, MeanCells(tail, p.verdict.value, joined))
  }

  // A single pair; a half with no node in it is null.
  function MeanPair(c: Cells, env: Env, joined: bool): (r: Meaning)
    requires c.Pair?
    ensures r.verdict.Ok? ==> r.verdict.value.nextAnchor >= env.nextAnchor
    decreases c, 0
  {
    var a := Mean(c.key, env, joined);
    if a.verdict.Err? then a
    else
      var b := Mean(c.value, a.verdict.value, joined);
      Append(a, if b.verdict.Err? then b else Append(b, Single(MappingEnd, b.verdict.value)))
  }

  // ------------------------------------------------------------------ pairs without a key

  // A `?` with nothing behind it, and a `:` with no key behind the `,` that follows: the `,` is taken for
  // the key, and the two pairs for one.
  predicate Joins(c: Cells) {
    c.Pair? && c.half.KeyOnly? && c.key.Missing? && c.value.Missing? && c.tail.Pair? && c.tail.half.ValueOnly?
  }

  // A `:` with no key and no `?`, which is taken for an item; or a `?` with no key behind it, in front
  // of anything but a `:` that has no value either or a `,` that ends the sequence: what stands there is
  // taken for the key and lost.
  predicate Trap(c: Cells)
    requires c.Pair?
  {
    c.half.ValueOnly? || (c.key.Missing? && if c.half.KeyOnly? then !c.tail.Comma? else !c.value.Missing?)
  }

  // No flow sequence holds such a pair, but for those that are taken together.
  predicate Clean(n: Node) {
    match n
    case BlockSeq(_, items) => CleanItems(items)
    case Indentless(_, items) => CleanItems(items)
    case BlockMap(_, entries) => CleanEntries(entries)
    case FlowSeq(_, cells) => CleanCells(cells)
    case FlowMap(_, members) => CleanMembers(members)
    case _ => true
  }

  predicate CleanItems(i: Items) {
    i.Items? ==> Clean(i.head) && CleanItems(i.tail)
  }

  predicate CleanEntries(e: Entries) {
    e.Entries? ==> Clean(e.key) && Clean(e.value) && CleanEntries(e.tail)
  }

  predicate CleanMembers(m: Members) {
    match m
    case Lone(k, tail) => Clean(k) && CleanMembers(tail)
    case Member(_, k, v, tail) => Clean(k) && Clean(v) && CleanMembers(tail)
    case _ => true
  }

  predicate CleanPair(c: Cells)
    requires c.Pair?
  {
    !Trap(c) && Clean(c.key) && Clean(c.value)
  }

  predicate CleanCells(c: Cells) {
    match c
    case Item(n, tail) => Clean(n) && CleanCells(tail)
    case Pair(_, k, v, tail) =>
      if Joins(c) then Clean(tail.value) && CleanCells(tail.tail)
      else !Trap(c) && Clean(k) && Clean(v) && CleanCells(tail)
    case _ => true
  }

  // How many pairs are taken together with the next.
  function Lost(n: Node): nat {
    match n
    case BlockSeq(_, items) => LostItems(items)
    case Indentless(_, items) => LostItems(items)
    case BlockMap(_, entries) => LostEntries(entries)
    case FlowSeq(_, cells) => LostCells(cells)
    case FlowMap(_, members) => LostMembers(members)
    case _ => 0
  }

  function LostItems(i: Items): nat {
    if i.NoItems? then 0 else Lost(i.head) + LostItems(i.tail)
  }

  function LostEntries(e: Entries): nat {
    if e.NoEntries? then 0 else Lost(e.key) + Lost(e.value) + LostEntries(e.tail)
  }

  function LostMembers(m: Members): nat {
    match m
    case Lone(k, tail) => Lost(k) + LostMembers(tail)
    case Member(_, k, v, tail) => Lost(k) + Lost(v) + LostMembers(tail)
    case _ => 0
  }

  function LostCells(c: Cells): nat {
    match c
    case Item(n, tail) => Lost(n) + LostCells(tail)
    case Pair(_, k, v, tail) => (if Joins(c) then 1 else Lost(k) + Lost(v)) + LostCells(tail)
    case _ => 0
  }

  // ------------------------------------------------------------------ documents

  // A document: its directive lines, whether it opens with `---`, its root, how many `...` close it.
  datatype Document = Document(directives: seq<Token>, explicit: bool, root: Node, ends: nat)

  // No document of a stream holds a pair that loses what stands behind its `?`.
  predicate AllClean(docs: seq<Document>) {
    forall i | 0 <= i < |docs| :: Clean(docs[i].root)
  }

  function LostIn(docs: seq<Document>): nat
    decreases |docs|
  {
    if docs == [] then 0 else Lost(docs[0].root) + LostIn(docs[1..])
  }

  predicate AllDirectives(ts: seq<Token>) {
    forall i | 0 <= i < |ts| :: IsDirective(ts[i])
  }

  // `free` is whether nothing is open before it: only then may `---` be left out, or directives be given.
  predicate DocumentFits(d: Document, free: bool) {
    && AllDirectives(d.directives) && Blocks(d.root, false)
    && (!free ==> d.explicit && d.directives == [])
    && (d.directives != [] ==> d.explicit)
    && (!d.explicit ==> !d.root.Missing?)
  }

  predicate DocumentsFit(docs: seq<Document>, free: bool)
    decreases |docs|
  {
    docs != [] ==> DocumentFits(docs[0], free) && DocumentsFit(docs[1..], docs[0].ends > 0)
  }

  function Opening(d: Document): seq<Token> {
    if d.explicit then [Token.DocumentStart] else []
  }

  function Ends(n: nat): seq<Token> {
    if n == 0 then [] else [Token.DocumentEnd] + Ends(n - 1)
  }

  function Closing(d: Document): seq<Token> {
    Ends(d.ends)
  }

  // The words of the documents and the end of the stream.
  function DocumentWords(docs: seq<Document>): seq<Token>
    decreases |docs|
  {
    if docs == [] then [Token.StreamEnd]
    else
      var d := docs[0];
      d.directives + (Opening(d) + (Words(d.root) + (Closing(d) + DocumentWords(docs[1..]))))
  }

  // `...` may also stand in front of everything.
  function StreamWords(ends: nat, docs: seq<Document>): seq<Token> {
    [Token.StreamStart] + (Ends(ends) + DocumentWords(docs))
  }

  // The version and the handles that directive lines declare, each at most once.
  function MeanDirectives(ts: seq<Token>, version: Option<(nat, nat)>, tags: map<string, string>)
    : Result<(Option<(nat, nat)>, map<string, string>), ParseError>
    requires AllDirectives(ts)
    decreases |ts|
  {
    if ts == [] then Ok((version, tags))
    else if ts[0].VersionDirective? then
      if version.Some? then Err(DuplicateVersionDirective)
      else MeanDirectives(ts[1..], Some((ts[0].major, ts[0].minor)), tags)
    else if ts[0].TagDirective? then
      if ts[0].handle in tags then Err(DuplicateTagDirective)
      else MeanDirectives(ts[1..], version, tags[ts[0].handle := ts[0].prefix])
    else MeanDirectives(ts[1..], version, tags)
  }

  // The handles of a document are its own, unless tags are kept.
  function Left(env: Env): Env {
    if env.keepTags then env else env.(tags := map[])
  }

  function Both(a: Meaning, b: Meaning): Meaning {
    if a.verdict.Err? then a else Append(a, b)
  }

  function MeanDocument(d: Document, env: Env, joined: bool): (r: Meaning)
    requires AllDirectives(d.directives)
    ensures r.verdict.Ok? ==> r.verdict.value.nextAnchor >= env.nextAnchor
  {
    match MeanDirectives(d.directives, None, map[])
    case Err(e) => Stop(e)
    case Ok((version, tags)) =>
      var root := Mean(d.root, env.(version := version, tags := env.tags + tags), joined);
      Prefix(Event.DocumentStart(d.explicit),
             if root.verdict.Err? then root else Append(root, Single(Event.DocumentEnd, Left(root.verdict.value))))
  }

  function MeanDocuments(docs: seq<Document>, env: Env, joined: bool): Meaning
    requires forall i | 0 <= i < |docs| :: AllDirectives(docs[i].directives)
    decreases |docs|
  {
    if docs == [] then Single(Event.StreamEnd, env)
    else
      var a := MeanDocument(docs[0], env, joined);
      if a.verdict.Err? then a else Append(a, MeanDocuments(docs[1..], a.verdict.value, joined))
  }

  function MeanStream(docs: seq<Document>, env: Env, joined: bool): Meaning
    requires forall i | 0 <= i < |docs| :: AllDirectives(docs[i].directives)
  {
    Prefix(Event.StreamStart, MeanDocuments(docs, env, joined))
  }
}
