// What each step of the scanner does to its tokens, as a function of the whole token stream so far.
// A key is known by its place in the stream, so it makes no difference how many of the tokens have
// been handed out (crates/yamluna-scanner/src/scanner.rs).
module TokenSteps {
  import opened Results
  import opened Events
  import opened TokenBalance

  datatype TokenError =
    | SimpleKeyExpected
    | KeyNotAllowed
    | ValueNotAllowed
    | EntryNotAllowed
    | EntryInFlow
    | MisplacedAnchor
    | MisplacedBracket
    | MisplacedColon
    | RecursionLimit
    | InvalidIndentation
    | NoNextToken
    | BadText(info: string)

  // What the text holds next, as far as the queue can tell.
  datatype Lexeme =
    | EndOfInput
    | Directive(token: Token)
    | DocumentMarker(token: Token)
    | FlowStart(isSeq: bool)
    | FlowEnd(isSeq: bool)
    | Comma
    | Dash(bare: bool, anchored: bool)     // nothing on its line behind it; an anchor left of it
    | Question
    | Colon
    | Property(token: Token)               // an alias, an anchor or a tag
    | Quoted(token: Token, newline: bool)  // and whether lines end behind it
    | Plain(token: Token, newline: bool)
    | BlockScalar(token: Token)
    | Bad(info: string)

  // The next token of the text: where it stands, what was passed on the way to it, and what is
  // found behind it.
  datatype Piece = Piece(
    newline: bool,
    comments: seq<Token>,
    mark: Mark,
    lexeme: Lexeme,
    trailing: seq<Token>,
    after: Mark)

  // The scanner's state, `tokens` being all tokens made so far. `implicit` says for each open flow
  // sequence whether it is inside a mapping without braces.
  datatype Queue = Queue(
    tokens: seq<Token>,
    allowed: bool,
    keys: seq<SimpleKey>,
    indent: int,
    levels: seq<Indent>,
    flow: nat,
    inMapping: bool,
    implicit: seq<bool>,
    mark: Mark)

  type Next = Result<Queue, TokenError>

  // ------------------------------------------------------------------ tokens and levels

  function Added(q: Queue, t: Token): Queue {
    q.(tokens := q.tokens + [t])
  }

  function AddedAll(q: Queue, ts: seq<Token>): Queue {
    q.(tokens := q.tokens + ts)
  }

  function Put(q: Queue, pos: nat, t: Token): Queue {
    if pos <= |q.tokens| then q.(tokens := q.tokens[..pos] + [t] + q.tokens[pos..]) else q
  }

  predicate OnBlock(q: Queue) {
    q.levels != [] && q.levels[|q.levels| - 1].needsBlockEnd
  }

  function Popped(q: Queue): Queue
    requires q.levels != []
  {
    q.(indent := q.levels[|q.levels| - 1].indent, levels := q.levels[..|q.levels| - 1])
  }

  function Pushed(q: Queue, col: int, block: bool): Queue {
    q.(indent := col, levels := q.levels + [Indent(q.indent, block)])
  }

  // A new level at `col`, when that is further in, started by `t` at token `number`.
  function Rolled(q: Queue, col: nat, number: nat, t: Token): Queue {
    if q.flow > 0 then q
    else
      var p := if q.indent <= col && q.levels != [] && !OnBlock(q) then Popped(q) else q;
      if p.indent < col then Put(Pushed(p, col, true), number, t) else p
  }

  // Every level further in than `col` ends.
  function Unrolled(q: Queue, col: int): Queue
    decreases |q.levels|
  {
    if q.flow > 0 || q.indent <= col || q.levels == [] then q
    else Unrolled(if OnBlock(q) then Added(Popped(q), BlockEnd) else Popped(q), col)
  }

  function OneIn(q: Queue): Queue {
    if q.flow == 0 && OnBlock(q) then Pushed(q, q.indent + 1, false) else q
  }

  function BlocksOnly(q: Queue): Queue
    decreases |q.levels|
  {
    if q.levels != [] && !OnBlock(q) then BlocksOnly(Popped(q)) else q
  }

  // ------------------------------------------------------------------ keys

  function Allowing(q: Queue, allowed: bool): Queue {
    q.(allowed := allowed)
  }

  predicate TooFar(k: SimpleKey, mark: Mark) {
    k.mark.line < mark.line || k.mark.index + 1024 < mark.index
  }

  // The token read next may be a key.
  function Saved(q: Queue): Queue {
    if q.allowed && q.keys != [] then
      var required := q.flow == 0 && q.indent == q.mark.col && OnBlock(q);
      q.(keys := q.keys[..|q.keys| - 1] + [SimpleKey(true, required, |q.tokens|, q.mark)])
    else q
  }

  function Off(k: SimpleKey): SimpleKey {
    k.(possible := false)
  }

  function Withdrawn(q: Queue): Queue {
    if q.keys == [] then q else q.(keys := q.keys[|q.keys| - 1 := Off(q.keys[|q.keys| - 1])])
  }

  function Removed(q: Queue): Next {
    if q.keys != [] && q.keys[|q.keys| - 1].possible && q.keys[|q.keys| - 1].required then Err(SimpleKeyExpected)
    else Ok(Withdrawn(q))
  }

  function Checked(k: SimpleKey, mark: Mark): SimpleKey {
    if k.possible && TooFar(k, mark) then Off(k) else k
  }

  predicate Missed(k: SimpleKey, mark: Mark) {
    k.possible && k.required && TooFar(k, mark)
  }

  // Outside flow collections keys that lie too far back are none.
  function Staled(q: Queue): Next {
    if q.flow > 0 then Ok(q)
    else if exists k | k in q.keys :: Missed(k, q.mark) then Err(SimpleKeyExpected)
    else Ok(q.(keys := seq(|q.keys|, i requires 0 <= i < |q.keys| => Checked(q.keys[i], q.mark))))
  }

  function Dropped(q: Queue): Next {
    if exists k | k in q.keys :: k.possible && k.required then Err(SimpleKeyExpected)
    else Ok(q.(keys := seq(|q.keys|, i requires 0 <= i < |q.keys| => Off(q.keys[i]))))
  }

  // ------------------------------------------------------------------ one lexeme

  function NoKey(): SimpleKey {
    SimpleKey(false, false, 0, Mark(0, 0, 0))
  }

  function Begin(): Queue {
    Queue([Token.StreamStart], true, [NoKey()], -1, [], 0, false, [], Mark(0, 1, 0))
  }

  function StreamEnded(q: Queue): Next {
    var d :- Dropped(q);
    var e :- Removed(Unrolled(d, -1));
    Ok(Added(Allowing(e, false), Token.StreamEnd))
  }

  function Boundary(q: Queue, t: Token): Next {
    var e :- Removed(Unrolled(q, -1));
    Ok(Added(Allowing(e, false), t))
  }

  function PropertyRead(q: Queue, t: Token): Queue {
    Added(Allowing(Saved(q), false), t)
  }

  function FlowScalarRead(q: Queue, t: Token, newline: bool): Queue {
    Added(Allowing(Saved(q), newline && q.flow == 0), t)
  }

  function PlainRead(q: Queue, t: Token, newline: bool): Next {
    var p := BlocksOnly(Allowing(Saved(q), false));
    if q.flow > 0 && q.mark.col < p.indent + 1 then Err(InvalidIndentation)
    else Ok(Added(Allowing(p, newline), t))
  }

  function BlockScalarRead(q: Queue, t: Token, comments: seq<Token>): Queue {
    Added(AddedAll(BlocksOnly(Allowing(Saved(q), true)), comments), t)
  }

  function FlowStarted(q: Queue, isSeq: bool): Next {
    var p := OneIn(Saved(q));
    if p.flow >= 255 then Err(RecursionLimit)
    else
      var inner := p.(keys := p.keys + [NoKey()], flow := p.flow + 1, allowed := true);
      Ok(if isSeq then Added(inner.(implicit := inner.implicit + [false]), FlowSequenceStart)
         else Added(inner.(inMapping := true), FlowMappingStart))
  }

  predicate InsideImplicit(q: Queue) {
    q.implicit != [] && q.implicit[|q.implicit| - 1]
  }

  function ImplicitEnded(q: Queue): Queue {
    if InsideImplicit(q) then
      Added(q.(inMapping := false, implicit := q.implicit[|q.implicit| - 1 := false]), FlowMappingEnd)
    else q
  }

  function SequenceLeft(q: Queue): Queue {
    if q.implicit == [] then q else q.(implicit := q.implicit[..|q.implicit| - 1])
  }

  function FlowLeft(q: Queue): Queue
    requires q.flow > 0 && q.keys != []
  {
    q.(flow := q.flow - 1, keys := q.keys[..|q.keys| - 1], allowed := false)
  }

  function FlowEnded(q: Queue, isSeq: bool): Next {
    if q.flow == 0 || q.keys == [] then Err(MisplacedBracket)
    else
      var p :- Removed(q);
      if isSeq then Ok(Added(SequenceLeft(ImplicitEnded(FlowLeft(p))), FlowSequenceEnd)) else Ok(Added(FlowLeft(p), FlowMappingEnd))
  }

  function CommaRead(q: Queue): Next {
    var p :- Removed(q);
    Ok(Added(ImplicitEnded(Allowing(p, true)), FlowEntry))
  }

  function DashRead(q: Queue, bare: bool, anchored: bool): Next {
    if q.flow > 0 then Err(EntryInFlow)
    else if !q.allowed then Err(EntryNotAllowed)
    else if anchored && q.mark.col == 0 && q.indent > -1 then Err(MisplacedAnchor)
    else
      var p := Rolled(q, q.mark.col, |q.tokens|, BlockSequenceStart);
      var e :- Removed(if bare then OneIn(p) else p);
      Ok(Added(Allowing(e, true), BlockEntry))
  }

  function QuestionRead(q: Queue): Next {
    if q.flow == 0 && !q.allowed then Err(KeyNotAllowed)
    else
      var p := if q.flow == 0 then Rolled(q, q.mark.col, |q.tokens|, BlockMappingStart) else q.(inMapping := true);
      var e :- Removed(p);
      Ok(Added(Allowing(e, q.flow == 0), Key))
  }

  predicate Implicit(q: Queue) {
    q.implicit != [] && !q.inMapping
  }

  function Entering(q: Queue): Queue {
    if Implicit(q) then q.(implicit := q.implicit[|q.implicit| - 1 := true]) else q
  }

  // A `:` behind a token that may be a key: `Key`, and the mapping it starts, go in front of it.
  function KeyPut(q: Queue, k: SimpleKey, implicit: bool): Queue {
    var p := Put(q, k.tokenNumber, Key);
    var f := if implicit then Put(p, k.tokenNumber, FlowMappingStart) else p;
    Allowing(Withdrawn(OneIn(Rolled(f, k.mark.col, k.tokenNumber, BlockMappingStart))), false)
  }

  // A `:` with no simple key in front of it.
  function ValueStarted(q: Queue, implicit: bool): Next {
    var p := if implicit then Added(q, FlowMappingStart) else q;
    if q.flow == 0 && !q.allowed then Err(ValueNotAllowed)
    else
      var r := if q.flow == 0 then Rolled(p, p.mark.col, |p.tokens|, BlockMappingStart) else p;
      Ok(Allowing(OneIn(r), q.flow == 0))
  }

  function ColonRead(q: Queue): Next
  {
    if q.keys == [] then Err(ValueNotAllowed)
    else
      var k := q.keys[|q.keys| - 1];
      var p := Entering(q);
      if k.possible then
        if Implicit(q) && k.mark.line < q.mark.line then Err(MisplacedColon)
        else Ok(Added(KeyPut(p, k, Implicit(q)), Value))
      else
        var e :- ValueStarted(p, Implicit(q));
        Ok(Added(e, Value))
  }

  // ------------------------------------------------------------------ what a `:` puts in front

  // Whether a key at `col` is the first of a block mapping.
  predicate StartsBlock(q: Queue, col: nat) {
    q.flow == 0 && (if q.indent <= col && q.levels != [] && !OnBlock(q) then Popped(q).indent else q.indent) < col
  }

  // What goes in front of a key: the start of the mapping it is the first key of, if it is, and
  // `Key`.
  function KeyPrefix(block: bool, implicit: bool): seq<Token> {
    (if block then [BlockMappingStart] else []) + (if implicit then [FlowMappingStart] else []) + [Key]
  }

  // One more token in front of those already put at a place.
  lemma PutTokens(q: Queue, ts: seq<Token>, pos: nat, put: seq<Token>, t: Token)
    requires pos <= |ts| && q.tokens == ts[..pos] + put + ts[pos..]
    ensures Put(q, pos, t).tokens == ts[..pos] + ([t] + put) + ts[pos..]
  {
    assert q.tokens[..pos] == ts[..pos] && q.tokens[pos..] == put + ts[pos..];
    assert ts[..pos] + [t] + (put + ts[pos..]) == ts[..pos] + ([t] + put) + ts[pos..];
  }

  lemma FrontTokens(q: Queue, pos: nat, implicit: bool)
    requires pos <= |q.tokens|
    ensures var p := Put(q, pos, Key);
            (if implicit then Put(p, pos, FlowMappingStart) else p).tokens
            == q.tokens[..pos] + KeyPrefix(false, implicit) + q.tokens[pos..]
  {
    hide Put;
    assert q.tokens == q.tokens[..pos] + [] + q.tokens[pos..];
    PutTokens(q, q.tokens, pos, [], Key);
    assert [Key] + [] == [Key] == KeyPrefix(false, false);
    PutTokens(Put(q, pos, Key), q.tokens, pos, [Key], FlowMappingStart);
    assert [FlowMappingStart] + [Key] == KeyPrefix(false, true);
  }

  lemma RolledTokens(f: Queue, ts: seq<Token>, pos: nat, col: nat, implicit: bool)
    requires pos <= |ts| && f.tokens == ts[..pos] + KeyPrefix(false, implicit) + ts[pos..]
    ensures Rolled(f, col, pos, BlockMappingStart).tokens
         == ts[..pos] + KeyPrefix(StartsBlock(f, col), implicit) + ts[pos..]
  {
    hide Put;
    if StartsBlock(f, col) {
      var p := if f.indent <= col && f.levels != [] && !OnBlock(f) then Popped(f) else f;
      PutTokens(Pushed(p, col, true), ts, pos, KeyPrefix(false, implicit), BlockMappingStart);
      assert [BlockMappingStart] + KeyPrefix(false, implicit) == KeyPrefix(true, implicit);
    }
  }

  lemma SettledTokens(q: Queue)
    ensures Allowing(Withdrawn(OneIn(q)), false).tokens == q.tokens
  {
  }

  lemma KeyPutTokens(q: Queue, k: SimpleKey, implicit: bool)
    requires k.tokenNumber <= |q.tokens|
    ensures KeyPut(q, k, implicit).tokens
         == q.tokens[..k.tokenNumber] + KeyPrefix(StartsBlock(q, k.mark.col), implicit) + q.tokens[k.tokenNumber..]
  {
    var pos := k.tokenNumber;
    var p := Put(q, pos, Key);
    var f := if implicit then Put(p, pos, FlowMappingStart) else p;
    assert StartsBlock(f, k.mark.col) == StartsBlock(q, k.mark.col);
    hide Rolled, OneIn, Withdrawn, Allowing, Put, KeyPrefix, StartsBlock;
    FrontTokens(q, pos, implicit);
    RolledTokens(f, q.tokens, pos, k.mark.col, implicit);
    SettledTokens(Rolled(f, k.mark.col, pos, BlockMappingStart));
  }

  // A `:` behind a token that may be a key puts `Key` in front of that token, `FlowMappingStart`
  // in front of `Key` when the mapping has no braces, and `BlockMappingStart` in front of both when
  // the key is the first of a block; every token in front of the key stays where it is.
  lemma KeyGoesInFront(q: Queue)
    requires q.keys != [] && q.keys[|q.keys| - 1].possible && q.keys[|q.keys| - 1].tokenNumber <= |q.tokens|
    requires ColonRead(q).Ok?
    ensures var k := q.keys[|q.keys| - 1];
            var put := KeyPrefix(StartsBlock(q, k.mark.col), Implicit(q));
            ColonRead(q).value.tokens == q.tokens[..k.tokenNumber] + put + q.tokens[k.tokenNumber..] + [Value]
  {
    hide KeyPut, KeyPrefix;
    var k := q.keys[|q.keys| - 1];
    KeyPutTokens(Entering(q), k, Implicit(q));
    assert StartsBlock(Entering(q), k.mark.col) == StartsBlock(q, k.mark.col);
  }

  // ------------------------------------------------------------------ one piece of text

  function Read(q: Queue, p: Piece): Next {
    match p.lexeme
    case Directive(t) => Boundary(q, t)
    case DocumentMarker(t) => Boundary(q, t)
    case FlowStart(isSeq) => FlowStarted(q, isSeq)
    case FlowEnd(isSeq) => FlowEnded(q, isSeq)
    case Comma => CommaRead(q)
    case Dash(bare, anchored) => DashRead(q, bare, anchored)
    case Question => QuestionRead(q)
    case Colon => ColonRead(q)
    case Property(t) => Ok(PropertyRead(q, t))
    case Quoted(t, newline) => Ok(FlowScalarRead(q, t, newline))
    case Plain(t, newline) => PlainRead(q, t, newline)
    case BlockScalar(t) => Ok(BlockScalarRead(q, t, p.trailing))
    case Bad(info) => Err(BadText(info))
    case EndOfInput => StreamEnded(q)
  }

  // On the way to the next token: lines end, comments are passed.
  function Reached(q: Queue, p: Piece): Queue {
    AddedAll(if p.newline && q.flow == 0 then Allowing(q, true) else q, p.comments).(mark := p.mark)
  }

  function Behind(q: Queue, p: Piece): Queue {
    var r := q.(mark := p.after);
    if p.lexeme.BlockScalar? then r else AddedAll(r, p.trailing)
  }

  // A directive or a document marker, which only stands at the margin, and is looked for before
  // anything else is.
  predicate AtMargin(l: Lexeme) {
    l.Directive? || l.DocumentMarker?
  }

  function Taken(q: Queue, p: Piece): Next {
    var s :- Staled(Reached(q, p));
    var u := Unrolled(s, p.mark.col);
    if p.lexeme.EndOfInput? then StreamEnded(u)
    else if !AtMargin(p.lexeme) && p.mark.col < u.indent then Err(InvalidIndentation)
    else
      var r :- Read(u, p);
      Ok(Behind(r, p))
  }

  function AtEnd(mark: Mark): Piece {
    Piece(false, [], mark, EndOfInput, [], mark)
  }

  // The tokens of a whole text, read at once.
  function Eager(q: Queue, input: seq<Piece>): Next
    decreases |input|
  {
    if input == [] then Taken(q, AtEnd(q.mark))
    else
      var n :- Taken(q, input[0]);
      if input[0].lexeme.EndOfInput? then Ok(n) else Eager(n, input[1..])
  }

  // ------------------------------------------------------------------ when keys are checked

  predicate NotAfter(a: Mark, b: Mark) {
    a.line <= b.line && a.index <= b.index
  }

  // The pieces of a text stand one behind the other.
  ghost predicate Onward(mark: Mark, input: seq<Piece>)
    decreases |input|
  {
    input == [] || (NotAfter(mark, input[0].mark) && Onward(input[0].after, input[1..]))
  }

  // Checking the keys early makes no difference to what the next piece of text does.
  lemma StaledEarly(q: Queue, p: Piece)
    requires NotAfter(q.mark, p.mark)
    ensures Staled(q).Ok? ==> Taken(Staled(q).value, p) == Taken(q, p)
    ensures Staled(q).Err? ==> Taken(q, p) == Err(Staled(q).error)
  {
    var r := Reached(q, p);
    if q.flow == 0 {
      if k :| k in q.keys && Missed(k, q.mark) {
        assert Missed(k, r.mark);
      } else {
        StaledTwice(q, r);
      }
    }
  }

  lemma StaledTwice(q: Queue, r: Queue)
    requires q.flow == 0 && Staled(q).Ok? && NotAfter(q.mark, r.mark) && r.flow == 0 && r.keys == q.keys
    ensures Staled(r.(keys := Staled(q).value.keys)) == Staled(r)
  {
    var keys := Staled(q).value.keys;
    forall i | 0 <= i < |keys| ensures Checked(keys[i], r.mark) == Checked(q.keys[i], r.mark) && (Missed(keys[i], r.mark) <==> Missed(q.keys[i], r.mark)) {
      assert q.keys[i] in q.keys;
    }
    var other := r.(keys := keys);
    assert (exists k | k in keys :: Missed(k, r.mark)) ==> (exists k | k in q.keys :: Missed(k, r.mark)) by {
      if k :| k in keys && Missed(k, r.mark) {
        var i :| 0 <= i < |keys| && keys[i] == k;
        assert q.keys[i] in q.keys;
      }
    }
    assert (exists k | k in q.keys :: Missed(k, r.mark)) ==> (exists k | k in keys :: Missed(k, r.mark)) by {
      if k :| k in q.keys && Missed(k, r.mark) {
        var i :| 0 <= i < |keys| && q.keys[i] == k;
        assert keys[i] in keys;
      }
    }
    if Staled(r).Ok? {
      assert Staled(other).value.keys == Staled(r).value.keys;
    }
  }
}
