// The parser and the loader together: what loads from what was written
// (crates/yamluna-core/src/loader.rs, `run`).
module ParseAndLoad {
  import opened Results
  import opened Events
  import opened Grammar
  import opened ParserStep
  import opened ParserRun
  import opened Written
  import opened StreamMeans
  import opened Arena

  // Whatever the tokens, a run without an error loads: one tree for each document, in whose arena
  // the ids are in pre-order, and whose walk from the root is the document's events.
  lemma EveryRunLoads(toks: seq<Token>, keepTags: bool, scanError: Option<string>, region: bool)
    returns (docs: seq<Doc>)
    requires RunFrom(Fresh(toks, keepTags, scanError), false).error == None
    ensures DocsWellFormed(docs) && SpellStream(docs) == RunFrom(Fresh(toks, keepTags, scanError), false).events
    ensures FedAll(Empty, RunFrom(Fresh(toks, keepTags, scanError), false).events, region).done ==
            Loaded(docs) + if region || docs == [] then [NoTree] else []
    ensures |Loaded(docs)| == |docs|
    ensures forall i | 0 <= i < |docs| ::
              Loaded(docs)[i].root == Some(0) && Walk(Loaded(docs)[i].bones, 0) == Marks(Spell(docs[i].root))
  {
    hide RunFrom, FedAll, SpellStream, DocsWellFormed, Walk, Marks, Loaded;
    EveryRunIsGrammatical(toks, keepTags, scanError, false);
    docs :| DocsWellFormed(docs) && SpellStream(docs) == RunFrom(Fresh(toks, keepTags, scanError), false).events;
    StreamLoads(docs, region);
    AsMany(docs);
    forall i | 0 <= i < |docs|
      ensures Loaded(docs)[i].root == Some(0) && Walk(Loaded(docs)[i].bones, 0) == Marks(Spell(docs[i].root))
    {
      DocumentWalks(docs, i);
    }
  }

  lemma AsMany(docs: seq<Doc>)
    requires DocsWellFormed(docs)
    ensures |Loaded(docs)| == |docs|
  {
    if docs != [] { LoadedAt(docs, 0); }
  }
}
