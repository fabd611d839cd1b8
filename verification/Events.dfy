// What the scanner hands the parser and what the parser hands on
// (crates/yamluna-scanner/src/scanner.rs, `TokenType`; crates/yamluna-scanner/src/parser.rs, `Event`).
module Events {
  import opened Results
  import opened ScalarEmitter

  datatype Token =
    | StreamStart
    | StreamEnd
    | VersionDirective(major: nat, minor: nat)
    | TagDirective(handle: string, prefix: string)
    | ReservedDirective(name: string, params: seq<string>)
    | DocumentStart
    | DocumentEnd
    | BlockSequenceStart
    | BlockMappingStart
    | BlockEnd
    | FlowSequenceStart
    | FlowSequenceEnd
    | FlowMappingStart
    | FlowMappingEnd
    | BlockEntry
    | FlowEntry
    | Key
    | Value
    | Alias(name: string)
    | Anchor(name: string)
    | Tag(handle: string, suffix: string)
    | Scalar(style: ScalarStyle, value: string)
    | Comment(text: string)

  // The anchor of a node or of an alias; id 0 is "no anchor".
  datatype AnchorRef = AnchorRef(id: nat, name: Option<string>)

  const NoAnchor := AnchorRef(0, None)

  // A tag whose handle has been replaced by the prefix it stands for.
  datatype ResolvedTag = ResolvedTag(handle: string, suffix: string)

  datatype StructureStyle = Block | Flow

  datatype Event =
    | StreamStart
    | StreamEnd
    | DocumentStart(explicit: bool)
    | DocumentEnd
    | Alias(anchor: AnchorRef)
    | Scalar(value: string, style: ScalarStyle, anchor: AnchorRef, tag: Option<ResolvedTag>)
    | SequenceStart(anchor: AnchorRef, tag: Option<ResolvedTag>, structure: StructureStyle)
    | SequenceEnd
    | MappingStart(anchor: AnchorRef, tag: Option<ResolvedTag>, structure: StructureStyle)
    | MappingEnd
    | Comment(text: string)

  function NullScalar(): Event {
    Event.Scalar("", Plain, NoAnchor, None)
  }

  datatype ParseError =
    | UnexpectedEof
    | ScannerError(info: string)
    | ExpectedStreamStart
    | ExpectedDocumentStart
    | DuplicateVersionDirective
    | DuplicateTagDirective
    | MissingDocumentEndBeforeDirective
    | UnknownAnchor
    | UndeclaredTagHandle
    | ExpectedNodeContent
    | ExpectedBlockKey
    | ExpectedFlowMappingEnd
    | ExpectedFlowSequenceEnd
    | ExpectedBlockEntry
}
