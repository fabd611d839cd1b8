# yamluna: a verified model

yamluna reads YAML, lets a program change it, and writes it back with everything that was not
touched as it stood. This project models the parts of it that carry the logic, and proves what
they promise on all inputs, over whole runs:

- **Scalars** (`ScalarEmitter`, `ScalarScanner`, `FlowScan`, `PlainScan`, `BlockScan`,
  `FlowRoundTrip`, `SingleQuoted`, `PlainRoundTrip`, `BlockRoundTrip`, `BlockTheorems`,
  `FoldedTheorem`, `ScalarRoundTrip`, `FoldPlaces`; `GapText`, `QuotedValue`, `PlainValue`, `BlockValue`): the
  printer's five styles, with its legality tests, escapes,
  folding at a width and chomping, against the scanner's three scalar routines. For every value,
  every style and every place the exact condition under which what is written is read back; and for
  every scalar as it may be written, by whatever program, given as words, gaps, empty lines, escapes,
  header and indentation, the value it is read as. The
  printer's loops and the scanner's loops are methods, proved equal to specification functions; the
  theorems are about those.
- **Tokens** (`TokenBalance`, `TokenSteps`, `TokenQueue`; `FlowText`, `FlowTokens`, `FlowReads`, `FlowTheorem`,
  `FlowStream`; `BlockForms`, `BlockReads`, `BlockNodes`, `BlockWords`, `BlockTree`, `BlockStream`): the scanner's token queue, its stacks of indentation levels and of possible simple keys, and
  the tokens it puts in front of others after the fact. The class hands tokens out one by one; it is
  proved to hand out the tokens of the whole text read at once. And for flow collections as they are
  written, and for streams of documents with block collections in every column they may stand in, exactly
  when those tokens are the words of the trees, and so what the parser makes of them.
- **Tags** (`TagScan`, `TagRoundTrip`): how tags and `%TAG` lines are written and scanned, percent escapes
  included; which of them come back, and what a class's tag comes to under the lines written for it.
- **Parser** (`ParserStep`, `Parser`, `Grammar`, `Anchors`, `ParserSafety`, `ParserRun`, `Written`,
  `ParserMeans`, `ParserSurplus`, `JoinedPairs`, `StreamMeans`, `TextToEvents`): the pushdown automaton. Every run
  over every token sequence is finite and grammatical; over the tokens of every stream of trees it is
  known exactly which streams are read as what they mean, which are refused, and which are read as
  something else; comments neither disturb a run nor get lost in it.
- **Loader** (`Trivia`, `Arena`, `LoaderSteps`, `Loader`, `ParseAndLoad`; `CommentHomes`, `CommentFound`,
  `CommentWaits`): events become an arena of
  nodes, and comments and blank lines find a slot. The trees are those of the events, every
  comment is accounted for, and where it is found in the loaded documents is said from the events alone.
- **Python objects** (`ObjectGraph`, `Representer`, `Constructor`, `GraphRoundTrip`; `Registry`,
  `TagText`; `CommentedSeq`): cyclic, shared graphs written to an arena and built again, tags
  that must lead back to the class that wrote them, and a list with a parallel store of comments.
- **Cursor and input** (`Layout`, `StrInput`, `Input`, `CharTraits`, `Hex`): the writer that tracks
  where its output ends, and the fast byte-wise input against the plain one.

Code that changes things step by step is modelled as classes and loops; each method's contract
gives the whole new state as a function of the old one, and the properties are proved of those
functions. Text is `seq<char>`; where bytes matter (`StrInput`) the UTF-8 encoding is written out.
Sizes are unbounded. Calls into unseen code, and what the loader reads off the source text around
an event, are parameters.

`dafny verify dfyconfig.toml` checks the project.

## Findings

Properties the code does not have on all inputs. Each comes with a concrete input at which it
fails and a theorem that says exactly when it holds. The comment at
crates/yamluna-core/src/emitter/scalar.rs:1265 has it that folding never changes the value; the
first two say when it does.

1. *A tab beside a folded space is lost in single quotes.* `breakable` compares neighbours with
   `" "` only, and the scanner drops white space around a line break. `"a \tb"` at width 1 does not come
   back (`SingleQuoted.TabIsLost`); a value comes back exactly when no fold has a tab for a
   neighbour (`SingleQuoted.SingleQuotedRoundTrip`).
2. *A fold put in front of a tab is no fold in the folded style:* the scanner keeps the line break
   in front of a line that begins with white space. `"a \tb"` at width 1 does not come back (`FoldedTheorem.FoldedTabIsLost`); a value comes back
   exactly when no fold is put in front of a tab (`FoldedTheorem.FoldedRoundTrip`).
3. *A plain scalar that ends in the word `-` is refused in front of a flow indicator.* `a -` is
   legal for the printer inside `[` and `]` and an error for the scanner
   (`ScalarRoundTrip.DashIsRefused`); the exact condition is `DashRefused`
   (`PlainRoundTrip.PlainRoundTrip`, `ScalarRoundTrip.WrittenScalarComesBack`).
4. *A `?` in a flow sequence with no key behind it swallows the next token.* `[? ]`, `[? , a]` and
   `[? : a]` are refused (`StreamMeans.KeylessPairsAreLost`); and `[? , : a]` is read without an error as
   one pair of the two (`StreamMeans.TwoPairsReadAsOne`). A stream that has a meaning is read as that
   meaning exactly when no pair of it loses what stands behind it and no two are taken for one
   (`StreamMeans.StreamReadExactly`). A `?` right before the last `,` does no harm.
5. *A `:` with no key is refused between brackets once braces or a `?` have been seen.* The scanner keeps
   a single flag for being inside a mapping, which `{` and `?` set, `}` does not clear, and only the end of a
   pair it has begun a mapping for clears, and gives such a `:` a
   `FlowMappingStart` exactly when it is clear (`FlowReads.ColonAlone`). `[: c]` is read, `[{}, : c]`
   refused (`FlowStream.BracesSpoilColon`); which texts are read as what they mean is said by
   `FlowStream.FlowTextRead`.
6. *A `,` between braces ends the pair the braces stand in.* `[k: {a: 1, b: 2}]` is read, without an error, as
   `[{k: {a: 1}, {b: 2}: }]` (`FlowStream.CommaEndsPair`). The tokens of a flow collection are the words of its
   tree exactly when no `,` between braces stands in a pair that the scanner has begun a mapping for,
   unless there are brackets between the two (`FlowStream.TokensAreWords`).
7. *A comment between a key and its `:` takes the place of the key's own.* In `? [ # one`, `a ] # two`,
   `: v` the first comment is lost (`LoaderSteps.KeyCommentIsLost`); nothing is lost exactly when no
   comment meets another in this way (`LoaderSteps.LostExactly`).
8. *An anchor set to the empty string is written but not read.* The representer tests for `None`, the
   constructor for truth. A list that holds itself and is named `''` is written with an alias
   that is undefined (`GraphRoundTrip.EmptyNameIsLost`). And *two objects may be given one name*: then
   an alias can be read as the other (`GraphRoundTrip.NamesakeIsTaken`). A graph comes back the same
   exactly when, on the way through it, no object is mistaken for another of its name and no name is
   empty (`GraphRoundTrip.RoundTrip`).
9. *A tag name that holds `!` can be read as another class's tag.* `liby!Gate` of `libx`, in a
   document that uses it twice and `Gate` of `liby` once, is read as the latter (`Registry.LibyGate`, `Registry.NameTakenForAnother`); a tag leads back to its
   class exactly when it can be told apart and no other class carries it (`Registry.TagComesBack`).
10. *Assigning to a slice changes the list before the store of comments exists.* Two values for one
   of three elements, before any comment was attached, leave the store longer than the list
   (`CommentedSeq.OneForTwoOutOfStep`); `CommentedSeq.CommentedSeq.Assign` says exactly when the
   two stay in step.
11. *The writer counts a CR/LF pair cut across two calls as two line breaks*, as when a text that ends in
   a carriage return is followed by a fresh line (`Layout.CutApart`); its cursor is the end of its output exactly when no pair is cut
   (`Layout.CursorIsTheEnd`).
12. *`fetch_while_is_yaml_non_space` counts bytes in one input and characters in the other.* They agree
    exactly on ASCII (`StrInput.BytesAreCharacters`).
13. *A tag whose suffix is not made of the characters of URIs is written as it is and refused.* `!Möwe` is one
    (`TagScan.UmlautIsRefused`); a tag comes back exactly when its suffix is made of them and is not empty
    behind a handle (`TagScan.RenderedTagComesBack`).
14. *A percent escape outside ASCII is read as another character or refused:* the octets are put side by side
    instead of being decoded. One is read back exactly when it is ASCII (`TagScan.EscapeReadBack`).
15. *Under clip chomping a block scalar ends in two line breaks when the input ends in a line of spaces*, at
    least as many as its indentation, with no break behind them; otherwise in one (`BlockValue.ClippedOnce`).
16. *A block scalar without content is a line break at the end of the input*, and nothing in front of more text
    (`BlockValue.EmptyIsABreak`).
17. *A line `---` is content of a block scalar at the root whose content is not indented*
    (`BlockValue.MarkerIsContent`); what every block scalar is read as is said by `BlockValue.BlockRead`.

## Model

| member | source | states |
|---|---|---|
| ScalarEmitter.WriteAtoms | crates/yamluna-core/src/emitter/scalar.rs:459-475 | the loop that breaks a run of atoms at spaces appends exactly the text of the recursive specification, whatever the width, column and context |
| ScalarEmitter.FoldAtSpaces | crates/yamluna-core/src/emitter/scalar.rs:519-538 | the loop that cuts a segment of a folded scalar gives the pieces of the specification; at width 0 the segment whole |
| ScalarEmitter.FoldedLines | crates/yamluna-core/src/emitter/scalar.rs:541-561 | the loop over segments and runs of empty lines gives the lines of the specification, one blank line more for each line break that is to be kept |
| ScalarEmitter.WriteBlock | crates/yamluna-core/src/emitter/scalar.rs:566-600 | a block scalar is refused with the reason of the legality test, or its header, chomping indicator and indented lines are appended to the output |
| ScalarScanner.Scanner.ScanFlowScalar | crates/yamluna-scanner/src/scanner.rs:2070-2331 | the loops over quoted text, escapes, blanks and line breaks return the value or the error of the recursive specification and stop where it does |
| ScalarScanner.Scanner.ScanPlainScalar | crates/yamluna-scanner/src/scanner.rs:2348-2509 | likewise for plain scalars, in block and flow context, with the buffers for white space and breaks |
| ScalarScanner.Scanner.ScanBlockScalar | crates/yamluna-scanner/src/scanner.rs:1735-2052 | likewise for literal and folded scalars: header, detected indentation, lines, chomping |
| QuotedValue.QuotedRead | crates/yamluna-scanner/src/scanner.rs:2070-2331 | any quoted scalar, given as words, escapes, blanks, breaks and empty lines, is read if and only if its lines are indented enough and what follows may, and its value is that of the words and gaps: one break a space, a break and k empty lines k line feeds, behind an escaped break the k line feeds alone |
| QuotedValue.EscapeRead | crates/yamluna-scanner/src/scanner.rs:2264-2331 | every escape, by letter or by hexadecimal number in either case, gives the character a table of its own says, or an error where that has none |
| QuotedValue.NumberRead | crates/yamluna-scanner/src/scanner.rs:2264-2331 | the number shifted together digit by digit is the number the digits are, most significant first |
| PlainValue.PlainRead | crates/yamluna-scanner/src/scanner.rs:2348-2509 | any plain scalar, given as words, blanks, breaks and empty lines, in block and flow context and wherever it ends, is read as the value of its words and gaps, up to where it ends |
| BlockValue.BlockRead | crates/yamluna-scanner/src/scanner.rs:1735-2052 | any block scalar, given as header, indentation and lines, with and without an indentation indicator, ended by text further out or by the end of the input with or without a break, is read as the value of its lines under its chomping, more-indented lines and empty ones included; the one error is a first line indented too little |
| BlockValue.ClippedOnce | crates/yamluna-scanner/src/scanner.rs:1877-1925 | clipped content is the stripped content and one line break, or two if and only if the input ends in white space of the content's indentation |
| BlockValue.EmptyIsABreak | crates/yamluna-scanner/src/scanner.rs:1830-1850 | a header with nothing behind it is a line break at the end of the input and nothing in front of more text |
| BlockValue.MarkerIsContent | crates/yamluna-scanner/src/scanner.rs:1963-2052 | in a scalar at the root whose content is not indented `---` is content |
| Hex.ValueOfDigits | crates/yamluna-core/src/emitter/scalar.rs:500-516 | reading the hexadecimal digits written for a number gives the number, at every width it fits |
| FlowRoundTrip.DoubleQuotedRoundTrip | crates/yamluna-core/src/emitter/scalar.rs:459-516 | every value, double-quoted at any width and indentation, scans back to itself; the only errors are those of what follows the closing quote, and they are said exactly |
| FlowRoundTrip.DoubleQuotedAscii | crates/yamluna-core/src/emitter/scalar.rs:480-516 | with Unicode off every character of the text is below 0x80 |
| SingleQuoted.SingleQuotedRoundTrip | crates/yamluna-core/src/emitter/scalar.rs:296-301 | a value the test accepts scans back to itself, folds included, if and only if no fold has a tab for a neighbour |
| SingleQuoted.TabIsLost | crates/yamluna-core/src/emitter/scalar.rs:448-475 | `a`, space, tab, `b`, single-quoted at width 1: the scan fails or gives another value |
| PlainRoundTrip.PlainRoundTrip | crates/yamluna-core/src/emitter/scalar.rs:258-292 | a value the test accepts is scanned back from its folded plain text, in block and flow context, whatever may follow, unless it ends in the word `-` in front of a flow indicator: then exactly that error |
| BlockTheorems.LiteralRoundTrip | crates/yamluna-core/src/emitter/scalar.rs:310-347 | every value the test accepts comes back from its literal text: indentation detected, trailing breaks restored by the chomping indicator, inner blanks and empty lines kept |
| FoldedTheorem.FoldedRoundTrip | crates/yamluna-core/src/emitter/scalar.rs:519-600 | every value the test accepts scans, and comes back if and only if no fold is put in front of a tab |
| FoldedTheorem.FoldedTabIsLost | crates/yamluna-core/src/emitter/scalar.rs:519-538 | the same value, folded at width 1, scans to another value or not at all |
| FoldPlaces.TextBreaks | crates/yamluna-core/src/emitter/scalar.rs:459-475 | a line of flow text is broken at the first single space at or behind the width that may become a break, never before it, and goes on at the indentation of the next line |
| FoldPlaces.LineBreaks | crates/yamluna-core/src/emitter/scalar.rs:519-538 | a line of folded text is cut at the first such space, and never before it |
| ScalarRoundTrip.WrittenScalarComesBack | crates/yamluna-core/src/emitter/scalar.rs:611-655 | whatever the style and the place, the scanner picks the routine of the style by the first characters, and the token it fetches is the value if and only if the condition of that style holds |
| ScalarRoundTrip.ChosenStyleIsWritten | crates/yamluna-core/src/emitter/scalar.rs:418-441 | the style chosen can always be written, is the one asked for when that is legal, is no block style nobody asked for, and never leaves plain what would be read as another type; else plain comes before single quotes and those before double quotes |
| ScalarRoundTrip.UnfoldedScalarComesBack | crates/yamluna-core/src/emitter/scalar.rs:962-1000 | where nothing is folded, as in every key, any value in the chosen style comes back, but for the lone `-` in front of a flow indicator |
| ScalarRoundTrip.DashIsRefused | crates/yamluna-scanner/src/scanner.rs:2385-2390 | `a -` in front of a comma in a flow sequence is legal to write and an error to read, at any width |
| TokenQueue.Scanner.FetchValue | crates/yamluna-scanner/src/scanner.rs:2585-2674 | a `:` does to tokens, keys, levels and flags exactly what the specification of the step says, and a possible key still lies behind everything handed out |
| TokenQueue.Scanner.FetchFlowCollectionEnd | crates/yamluna-scanner/src/scanner.rs:1577-1610 | a closing bracket ends a mapping without braces, leaves one flow level, or is refused, exactly as specified, and no stack runs empty |
| TokenQueue.Scanner.UnrollIndent | crates/yamluna-scanner/src/scanner.rs:2723-2735 | levels further in than the column end, each block with a `BlockEnd`; starts less ends of the stream stay the number of open blocks |
| TokenQueue.Scanner.NextToken | crates/yamluna-scanner/src/scanner.rs:859-911 | handing out a token never changes what reading the rest of the text comes to, hands out none that may still be a key, and gets nearer to the end |
| TokenQueue.ReadTokens | crates/yamluna-scanner/src/scanner.rs:765-911 | the tokens handed out one by one are those of the text read at once, or its error; no prefix ends more blocks than it starts, the end of the stream is the last token only, and with all brackets closed starts and ends are equal |
| TokenSteps.KeyGoesInFront | crates/yamluna-scanner/src/scanner.rs:2585-2674 | a `:` behind a possible key puts `Key`, with `FlowMappingStart` and `BlockMappingStart` in front of it when the key begins such a mapping, right before the key's token, and moves no token in front of it |
| TokenSteps.StaledEarly | crates/yamluna-scanner/src/scanner.rs:885-934 | looking for keys that lie too far back ahead of time makes no difference to what the next piece of text does, errors included |
| BlockTree.ShapeGives | crates/yamluna-scanner/src/scanner.rs:1651-1709 | in any block the pieces of a node (flow node, block scalar, items behind `-` in a column of their own or in that of the mapping around them, entries of a mapping) give the words of its tree once what is further in has ended, or, when a `,` between braces ends a pair, tokens that can never become those words |
| BlockTree.EntriesGive | crates/yamluna-scanner/src/scanner.rs:2516-2674 | the entries of a block mapping, `a: b`, `: b`, `? a` and `? a` with a `: b` under it, give the words of their trees; the mapping starts in front of the first key and ends with what stands left of it |
| BlockStream.TokensAreWords | crates/yamluna-scanner/src/scanner.rs:765-857 | the tokens of any stream of documents, with directives, markers and roots of any shape, are the words of its trees if and only if no `,` between braces stands in a pair the scanner has begun a mapping for, unless brackets lie between |
| BlockStream.TextRead | crates/yamluna-scanner/src/scanner.rs:2681-2761 | such a stream is accepted by the scanner, and read by the parser as what its trees mean if and only if no pair loses anything and no two are taken for one; it is refused if and only if a pair does or it has no meaning |
| BlockStream.DashThenKeyRead | crates/yamluna-scanner/src/scanner.rs:1680-1709 | `- a: b` gives the tokens of a sequence of one mapping |
| TokenBalance.LevelsMean | crates/yamluna-scanner/src/scanner.rs:2681-2761 | the invariant of the level stack means: strictly increasing from -1, the lowest a block, and never two neighbours that are no blocks |
| TokenBalance.SafeMeans | crates/yamluna-scanner/src/scanner.rs:2681-2761 | the invariant of the token stream means: every prefix has at least as many block starts as ends |
| Parser.Parser.StateMachine | crates/yamluna-scanner/src/parser.rs:734-777 | in any valid state a step gives the event or the error of the automaton and ends in its next state; no state is popped from an empty stack and no token fetched from an empty buffer |
| ParserMeans.TagResolved | crates/yamluna-scanner/src/parser.rs:1399-1450 | a tag is resolved to what it means: a handle in scope stands for exactly its prefix, `!!` for the core prefix unless declared, another named handle is refused, and every other stays as written |
| Parser.Parser.Peek | crates/yamluna-scanner/src/parser.rs:456-469 | peeking changes neither the event that comes next nor the comments still due |
| Parser.Parser.Load | crates/yamluna-scanner/src/parser.rs:606-732 | the recursive reader receives exactly the events of the run that forgets anchors between documents, comments included, up to the same error; its assertion and its unreachable branch are not reached |
| ParserSafety.StepSafe | crates/yamluna-scanner/src/parser.rs:734-1396 | every step of the automaton emits an event the grammar owes, leaves a state that owes the rest, binds anchors in order, and lowers a measure of six for each token |
| Grammar.AcceptedExactlyWhenSpelled | crates/yamluna-scanner/src/parser.rs:643-732 | an event sequence is accepted by the stack machine if and only if it is spelled by a sequence of documents, each a tree |
| Anchors.AliasesResolve | crates/yamluna-scanner/src/parser.rs:957-1084 | in a run that binds, every alias carries the number of the latest anchor of its name and every anchor the next number |
| ParserRun.EveryRunIsGrammatical | crates/yamluna-scanner/src/parser.rs:734-1396 | over every token sequence the events begin a well-formed stream and are a whole one when there is no error, are at most six for each token, and every alias names the latest anchor of its name |
| Parser.ReadAll | crates/yamluna-scanner/src/parser.rs:475-559 | reading with comments kept gives the run on the tokens without comments; the comments come out in token order, all of them when there is no error |
| ParserSurplus.StepSurplus | crates/yamluna-scanner/src/parser.rs:734-1396 | the open collections the tokens still have to close never get fewer than the states on the stack can close, and none is left at the end of a stream that is accepted |
| StreamMeans.EveryStreamMeans | crates/yamluna-scanner/src/parser.rs:734-1396 | over the tokens of every stream of documents given as trees (any nesting, absent keys and values, pairs of every kind, properties, directives, any number of `...`) the run is the events and the verdict of what the parser takes the stream for, and a stream with a pair that loses what stands behind it is refused |
| StreamMeans.StreamReadExactly | crates/yamluna-scanner/src/parser.rs:1349-1363 | a stream is accepted if and only if it has a meaning and no pair of it loses anything; one that has a meaning is read as it if and only if, besides, no two pairs are taken for one; and four events are missing for each time two are |
| StreamMeans.KeylessPairsAreLost | crates/yamluna-scanner/src/parser.rs:1242-1288 | `[? ]`, `[? , a]`, `[? : a]`, and `[{}, : a]` as the scanner hands it over, have a meaning and are refused |
| StreamMeans.TwoPairsReadAsOne | crates/yamluna-scanner/src/parser.rs:1349-1387 | the tokens of `[? , : a]` are read without an error as the events of one pair |
| JoinedPairs.StreamJoined | crates/yamluna-scanner/src/parser.rs:1349-1387 | what the parser takes a stream for ends as the stream does, and is the stream if no pairs are joined, else shorter by four events for each |
| StreamMeans.KeylessWords | crates/yamluna-scanner/src/scanner.rs:2511-2551 | the first of them is the tokens `FlowSequenceStart`, `Key`, `FlowSequenceEnd` |
| FlowReads.ColonAlone | crates/yamluna-scanner/src/scanner.rs:2585-2674 | a `:` with no key in front of it is given a `FlowMappingStart` of its own if and only if a `[` is open and the flag is clear |
| FlowTokens.AllTakenAppends | crates/yamluna-scanner/src/scanner.rs:737-741 | whatever the pieces of a text are, tokens other than keys and starts of mappings and block sequences keep their order and are only ever added at the end |
| FlowText.TreeMeans | crates/yamluna-scanner/src/scanner.rs:2585-2674 | a flow node means the same whatever the flag is in front of it: a pair taken for a mapping of its own and a single pair have the same events |
| FlowTheorem.NodeGets | crates/yamluna-scanner/src/scanner.rs:1551-1644 | from any state inside a flow collection the pieces of a flow node give exactly the words of its tree, its key and the state it leaves, or, when a `,` between braces ends a pair, tokens that can never become those words |
| FlowStream.TokensAreWords | crates/yamluna-scanner/src/scanner.rs:1613-1628 | the tokens of a document that is one flow collection are the words of its tree if and only if no `,` between braces stands in a pair the scanner has begun a mapping for, unless brackets lie between |
| FlowStream.FlowTextRead | crates/yamluna-scanner/src/scanner.rs:2560-2674 | such a document is accepted, and is read as what it means, if and only if its tree has no pair that loses anything, and no two taken for one |
| FlowStream.BracesSpoilColon | crates/yamluna-scanner/src/scanner.rs:1551-1575 | `[: c]` is such a document; `[{}, : c]`, piece by piece, gives a bare `Value`, and is refused |
| FlowStream.CommaEndsPair | crates/yamluna-scanner/src/scanner.rs:2799-2808 | `[k: {a: 1, b: 2}]`, piece by piece, gives the tokens of `[{k: {a: 1}, {b: 2}: }]`, and is read as that without an error |
| TextToEvents.CommentsKept | crates/yamluna-scanner/src/scanner.rs:604-627 | the comments among the tokens of a text are its comments, each once and in order, whatever tokens are put in front of others |
| TextToEvents.UnendingFails | crates/yamluna-scanner/src/parser.rs:535-559 | tokens that never end the stream, as those of a text the scanner refuses, are never read with success |
| TextToEvents.ReadText | crates/yamluna-scanner/src/parser.rs:475-592 | scanner and parser together: the events begin a well-formed stream; when there is no error the scanner accepted the text, the events are those of documents, and their comments are the comments of the text in order |
| TagScan.RenderedTagComesBack | crates/yamluna-core/src/emitter/mod.rs:1209-1232 | any tag the emitter writes, with or without a handle, is scanned back to its handle and suffix if and only if the suffix is made of the characters of URIs and is not empty behind a handle |
| TagScan.Scanner.ScanTagToken | crates/yamluna-scanner/src/scanner.rs:1272-1317 | the routine for tags, verbatim or shorthand, returns the handle, suffix or error of the specification and stops where it does |
| TagScan.Scanner.ScanTagDirectiveValue | crates/yamluna-scanner/src/scanner.rs:1235-1261 | likewise for what stands behind `%TAG` |
| TagScan.EscapeReadBack | crates/yamluna-scanner/src/scanner.rs:1457-1513 | a character escaped as the octets of its UTF-8 form is read back if and only if it is ASCII; which character or error it gives otherwise is said exactly |
| TagScan.DirectiveComesBack | crates/yamluna-core/src/emitter/mod.rs:300 | a `%TAG` line comes back with its handle and prefix |
| TagScan.UmlautIsRefused | crates/yamluna-core/src/emitter/mod.rs:1209-1232 | `!Möwe` is written as it is and not read back |
| TagRoundTrip.PlannedTagRead | python/yamluna/representer.py:1166-1169 | the tag a plan writes for a class comes, under the plan's own lines, to the class's absolute tag if and only if its name may stand behind the handle; and it is scanned if and only if the name is not empty and can be spelled |
| TagRoundTrip.PlannedLineRead | crates/yamluna-core/src/emitter/mod.rs:300 | the plan's lines are scanned back to their handles and prefixes |
| Trivia.Pending.TakeFromCol | crates/yamluna-core/src/trivia.rs:113-125 | what is taken and what stays are the two parts of the run at one cut |
| Trivia.Pending.TakeToCol | crates/yamluna-core/src/trivia.rs:134-162 | what is taken is one stretch of the run, what stays the rest in order |
| Trivia.FromCutIs | crates/yamluna-core/src/trivia.rs:107-125 | the cut is the only one with no comment left of the column in front of it, a comment right in front of it, and a reason to stop behind it |
| Trivia.ToCutIs | crates/yamluna-core/src/trivia.rs:127-162 | the stretch taken holds no comment left of the column and none at the end of a line, ends in a comment, and has only blank lines behind it |
| Trivia.ClosingSplits | crates/yamluna-core/src/loader.rs:471-486 | taking for an inner collection and then for the one around it takes no less than taking for the outer one at once, and nothing left of the outer column |
| Arena.StreamLoads | crates/yamluna-core/src/loader.rs:260-328 | the events of documents build one tree for each, and one more for a stream without documents or with lines of its own |
| Arena.DocumentWalks | crates/yamluna-core/src/node.rs:365-369 | the root of each tree is node 0, ids are in pre-order, and the walk from the root is the kinds, anchors and alias names of the document's events |
| Arena.FedPays | crates/yamluna-core/src/loader.rs:444-546 | the stack of open collections pays exactly what the grammar of events owes, so that no event pops an empty stack or ends the wrong kind |
| LoaderSteps.EveryEventTakes | crates/yamluna-core/src/loader.rs:260-328 | every event the grammar allows does to the trees what it says, keeps what the next event relies on, and what is held and what is written over afterwards is what was held and what came, for every comment and blank run |
| LoaderSteps.LostExactly | crates/yamluna-core/src/loader.rs:655-731 | the documents hold every comment and blank run as often as it came if and only if no comment between a key and its `:` meets one that the key has |
| LoaderSteps.KeyCommentIsLost | crates/yamluna-core/src/loader.rs:694-712 | a stream the loader accepts in which exactly one comment, the key's, is written over |
| Loader.Loader.TakeBefore | crates/yamluna-core/src/loader.rs:556-615 | the run in front of a node is shared out among the collection around it, the node's inner and leading slots and a block scalar's header as specified |
| Loader.Loader.CollectionEnd | crates/yamluna-core/src/loader.rs:471-529 | a closing collection keeps the part of the run indented to its content, takes its children and its last line, and is filed in the collection around it |
| Loader.Loader.Comment | crates/yamluna-core/src/loader.rs:655-731 | a comment goes to the one slot the specification names, and nothing else changes |
| Loader.Load | crates/yamluna-core/src/loader.rs:247-328 | over every grammatical stream with at most one comment to a line: the trees are those of the events, and the documents together with the comments written over hold every comment and blank run exactly as often as it came |
| CommentFound.EolOfLast | crates/yamluna-core/src/loader.rs:709-717 | over every stream: a comment that ends the last line of the node finished last, which is no key and has none, is that node's in the loaded document |
| CommentFound.EolOfOpened | crates/yamluna-core/src/loader.rs:681-693 | one on the line a collection without children starts on is the collection's, and stays there unless another comes in front of its `:` |
| CommentFound.EolOfKey | crates/yamluna-core/src/loader.rs:694-710 | one between a key and its `:`, on the key's last line, is the key's |
| CommentFound.EolOfValue | crates/yamluna-core/src/loader.rs:694-710 | one behind the `:` of a key, on the key's last line, is the value's |
| CommentWaits.CommentWaits | crates/yamluna-core/src/loader.rs:655-680 | a comment on a line of its own, or behind the dash of a sequence without items, waits behind all that waits |
| CommentWaits.OwnLineAtNode | crates/yamluna-core/src/loader.rs:556-615 | in front of a node a waiting comment is found in front of it, or in the collection it is the first node of |
| CommentWaits.DashCommentAtNode | crates/yamluna-core/src/loader.rs:556-615 | a comment behind a dash is found in front of the item, or at the header of the block scalar the item is |
| CommentWaits.CommentAtBlock | crates/yamluna-core/src/loader.rs:556-615 | in front of a block collection it is found inside that if it and all behind it are indented to it, else in front of it or inside the outer one |
| CommentWaits.CommentAtEnd | crates/yamluna-core/src/loader.rs:471-529 | in front of the end of a collection it is found behind the collection's children if and only if that has brackets, or is not the root and nothing up to the comment stands left of its content; else it waits on |
| CommentWaits.CommentAtStart | crates/yamluna-core/src/loader.rs:260-328 | what waits when a document begins leads it |
| CommentWaits.CommentAtDocumentEnd | crates/yamluna-core/src/loader.rs:260-328 | what waits when a document ends waits on |
| CommentWaits.CommentAtStreamEnd | crates/yamluna-core/src/loader.rs:260-328 | what waits at the end of the stream trails the last document, or leads the one made for the lines below |
| CommentWaits.CommentOnMarker | crates/yamluna-core/src/loader.rs:718-731 | a comment on the line of `...` trails the document ended, one on the line of `---` leads the document begun |
| CommentWaits.OwnLineNeverEol | crates/yamluna-core/src/loader.rs:655-731 | no comment on a line of its own is held as the end of a node's line, in whatever is loaded |
| ParseAndLoad.EveryRunLoads | crates/yamluna-core/src/loader.rs:247-258 | every run of the parser without an error loads: one tree for each document, whose walk is the document's events |
| Representer.Representer.Scan | python/yamluna/representer.py:768-787 | the count of an object is the number of places at which it stands, each place counted once, and the walk ends on cyclic graphs having seen exactly what can be reached |
| Representer.Representer.Generate | python/yamluna/representer.py:793-800 | the name is not empty and not taken, and the search for one ends |
| Representer.Representer.Emit | python/yamluna/representer.py:802-841 | the nodes added are one subtree in which every node says what it was written for; no place is written twice and recursion ends |
| Representer.Represent | python/yamluna/representer.py:768-924 | any finite graph, cycles and all, becomes a pre-order arena in which each object is written in full once, before all its aliases; an object is named if and only if it was given a name or stands at more than one place |
| Constructor.Construct | python/yamluna/constructor.py:536-795 | an arena is read if and only if no node is faulty; then each container holds what its children stand for, an alias being the last container known by the name in front of it; otherwise reading ends with a fault that is there |
| GraphRoundTrip.RoundTrip | python/yamluna/constructor.py:536-560 | any finite graph of lists and scalar-keyed dicts comes back isomorphic, shared objects one object, cycles closed, names kept, if and only if on the way through it no object is met again after another of its name and no name is empty; names that differ hold; and the only error is an undefined alias |
| GraphRoundTrip.ResolvesExactly | python/yamluna/representer.py:826-838 | every alias of the arena resolves to the object it was written for if and only if, on the way through the graph, no object is mistaken |
| GraphRoundTrip.VisitsWritten | python/yamluna/representer.py:802-924 | the nodes of the arena are, in order, the values met on the way through the graph, an object's contents only the first time |
| GraphRoundTrip.EmptyNameIsLost | python/yamluna/constructor.py:879-883 | a list that holds itself and is named with the empty string is written as a container and an alias that stands for nothing |
| GraphRoundTrip.NamesakeIsTaken | python/yamluna/representer.py:826-838 | of two lists of one name, an alias for the first behind the second stands for the second |
| Registry.OrderDoesNotMatter | python/yamluna/registry.py:119-136 | registering the same classes in another order gives the same registry, sources promoted alike |
| Registry.UnpinnedApart | python/yamluna/registry.py:119-136 | two classes whose source was not pinned share a tag if and only if they share name and module |
| Registry.PlanOfAnyOrder | python/yamluna/registry.py:306-345 | plans for the same classes, whatever the order of registration and of use, are the same |
| Registry.HandlesApart | python/yamluna/registry.py:100-117 | the handles of a plan are pairwise different |
| Registry.TagRegistry.Plan | python/yamluna/registry.py:306-345 | the plan made is the one plan there is for these counts |
| Registry.TagComesBack | python/yamluna/registry.py:349-432 | the tag a plan writes is resolved to its class if and only if it can be told apart and no other class carries it; if others do, the error names all of them; if it cannot be told, it leads nowhere or to what the rest of it means behind another handle |
| Registry.LocalTagByName | python/yamluna/registry.py:410-420 | a tag `!Name` under no directive for `!` is resolved to the one class of that name, whatever its source, to nothing if there is none, and to an error naming all of them if there are several |
| Registry.NameTakenForAnother | python/yamluna/registry.py:138-152 | a name made of another source's handle and a class of it is read as that class |
| Registry.LibyGate | python/yamluna/registry.py:306-381 | a document that uses `liby!Gate` of `libx` twice and `Gate` of `liby` once: whatever plan is made for it, the tag written for the first is resolved to the second |
| TagText.UriReadBack | python/yamluna/registry.py:383-408 | a class's global tag is read back as its source and name if and only if the source is a dotted path and the name has no slash and is not empty |
| CommentedSeq.CommentedSeq.Assign | python/yamluna/comments.py:1141-1154 | slice assignment replaces the items; list and store have one length afterwards if and only if the store existed or the width of the slice is in step, and then records move with their elements |
| CommentedSeq.InsertedThere | python/yamluna/comments.py:1162-1172 | `insert` puts the value, without a record, in front of the element at the position, counted from the end when negative, at the beginning or the end when there is none; all else stays in order |
| CommentedSeq.CommentedSeq.Sort | python/yamluna/comments.py:1245-1265 | one stable permutation is applied to elements and records |
| CommentedSeq.OrderSorts | python/yamluna/comments.py:1245-1265 | the permutation puts the keys in order, equal ones as they were, also when reversed, and is one of all positions |
| CommentedSeq.RecordsTravel | python/yamluna/comments.py:1141-1265 | over any sequence of insert, append, extend, delete, pop, remove, sort, reverse, clear, slice and item assignment no record is copied, and without deletions none is lost; as long as no item is set each stays with its element |
| CommentedSeq.RecordKept | python/yamluna/comments.py:1141-1154 | each operation keeps every record as often as it was, deletions at most as often; setting an item leaves each record where it is |
| CommentedSeq.OneForTwoOutOfStep | python/yamluna/comments.py:1148-1149 | two values for one of three elements, before the store exists, leave it longer than the list |
| Layout.Writer.Push | crates/yamluna-core/src/emitter/layout.rs:249-276 | the text is appended behind what was pending, and line and column follow its line breaks |
| Layout.CursorIsTheEnd | crates/yamluna-core/src/emitter/layout.rs:249-408 | after any sequence of calls line and column describe the end of the output if and only if no CR/LF pair was cut across two of them |
| Layout.CutApart | crates/yamluna-core/src/emitter/layout.rs:298-325 | a carriage return and a fresh line with `\n` for the break cut a pair |
| Layout.PlacedOnce | crates/yamluna-core/src/emitter/layout.rs:367-408 | placing a node adds at most one line break, whatever stale position it is given |
| Layout.PlacedThere | crates/yamluna-core/src/emitter/layout.rs:367-408 | a position on this line or the next that can still be reached is reached exactly |
| Layout.PlacedElsewhere | crates/yamluna-core/src/emitter/layout.rs:397-408 | recorded positions stay believed if and only if they were and the line is the one recorded |
| Layout.PlacedByRule | crates/yamluna-core/src/emitter/layout.rs:367-408 | where no recorded position is echoed, a node that begins its line stands in the computed column, unless the cursor is past it, and one behind others stands next to them or one further |
| Layout.RewindUndoes | crates/yamluna-core/src/emitter/layout.rs:411-442 | rewinding to a mark after any calls restores output and cursor; only the loss of belief in recorded positions stays |
| StrInput.FirstByteTest | crates/yamluna-scanner/src/input/str.rs:265-311 | a test of the first byte is the test of the first character, also at the end of the text |
| StrInput.DocumentMarkerTests | crates/yamluna-scanner/src/input/str.rs:145-184 | the tests of four bytes for `---` and `...` are those of four characters |
| StrInput.Str.SkipWsToEol | crates/yamluna-scanner/src/input/str.rs:186-250 | count, result, captured comment and remaining text are those of the one-character-at-a-time loop, on every input |
| StrInput.Str.SkipWhileNonBreakz | crates/yamluna-scanner/src/input/str.rs:313-329 | exactly the leading characters that end no line are skipped and counted |
| StrInput.Str.SkipWhileBlank | crates/yamluna-scanner/src/input/str.rs:331-342 | exactly the leading blanks are skipped and counted, though bytes are |
| StrInput.Str.FetchWhileIsAlpha | crates/yamluna-scanner/src/input/str.rs:344-370 | the leading letters are fetched, and their bytes are their characters |
| StrInput.BytesAreCharacters | crates/yamluna-scanner/src/input/str.rs:372-398 | the count in bytes is the count in characters if and only if what is fetched is ASCII |

## Left out

- Positions, spans and marks of tokens, events and nodes; error messages are the cases of a datatype.
- From characters to tokens only the scalars, the tags and the values of `%TAG` lines are read; for the token queue a text is a sequence of pieces: what was passed on the way, where the next token stands, and what it is. Pieces stand one behind the other, and carry tokens a text can write.
- What makes a piece of text bad (directives other than `%TAG`, anchor syntax, tabs in indentation) is one error with a text to the token queue.
- `BufferedInput`, and inputs that are not strings.
- Type resolution (`resolves_as_non_string`, the Python resolvers): whether a text would be read as another type is a parameter of the printer's choice of style.
- Loader: keys and duplicate keys, merge keys, the explicit-key indicator, directives, flow separators, raw lexemes and lines that only a document of its own can keep; what it reads off the source around an event is a parameter.
- The source order of comments in `trivia_in_order`: only which comments are held, how often, is proved.
- Loader.Load: streams with two comments on one line are not considered; a line comment runs to the end of its line, so the scanner hands out none.
- Representer and constructor: hooks and registered classes, sets, merge keys, keys that are not scalars, tags, records of positions and comments, and scalars with an anchor.
- FlowStream.TokensAreWords: the collection is a document of its own, without properties, at most 255 deep, and without comments between its pieces; deeper ones are refused by the scanner. FlowTheorem.NodeGets has the same for nodes anywhere inside a flow collection.
- BlockStream.TokensAreWords: there are no comments between the pieces, flow collections are at most 255 deep, and nodes stand where the scanner lets them: a key without `?` on the line of its `:` and within 1024 characters, items and entries on lines of their own in one column, content further in than the block around it.
- Registry: hooks kept with a registration, and the wording of errors.
- Registry.TagComesBack: for a name with `!` that leads behind another handle the outcome is given as the meaning of the rest of the tag there.
- `CommentedSeq`: extended slices, `copy`, `+`, and `*=`, which the class does not override; `CommentedMap`, `CommentedSet` and the views `ca`, `lc`.
- The emitter that walks a document and drives the writer, and with it the byte-exact echo of a document.
- The writer's `bom` on an output that is not empty; the source's white-space runs between lines are a map that is given.
- Widths of integers: line and column counters that saturate at 32 bits, and the parser's anchor numbers.
- `yamluna-py`, `main.py`, streams of bytes and their decoding, `CharMap`.
