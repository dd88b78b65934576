/** Parser and tree builder together. */
module YamlLoad {
  import opened YamlEvents
  import opened YamlTokens
  import opened YamlStep
  import opened YamlInvariant
  import opened YamlParser
  import opened YamlBuilder
  import opened YamlSentences
  import opened YamlExactly
  import opened YamlTrees
  import G = YamlGrammar

  /** The events the parser gives on these tokens, and whether they reach the end of the stream. */
  ghost predicate Tells(tokens: seq<Token>, events: seq<Event>, complete: bool) {
    exists d :: G.Runs(tokens, Start, events, d) && Stops(tokens, d, complete)
  }

  ghost predicate Stops(tokens: seq<Token>, d: Config, complete: bool) {
    if complete then d.state.EndState? else !d.state.EndState? && Step(tokens, d).Error?
  }

  /** The events are the word of these documents, or the beginning of it. */
  ghost predicate Reading(events: seq<Event>, complete: bool, docs: seq<Document>) {
    ValidDocuments(docs) && events <= Word(docs) && (complete ==> events == Word(docs))
  }

  ghost predicate IsSentence(tokens: seq<Token>, ds: seq<DocumentSyntax>) {
    GoodDocuments(ds, true) && G.Lies(tokens, 0, [StreamStartToken] + SpellDocuments(ds))
  }

  /** `ok` and `n` are what comes of the first document: the node built from it, if the
      parser gets one event beyond it. */
  ghost predicate Loaded(tokens: seq<Token>, ok: bool, n: Option<Node>) {
    exists events, complete, docs ::
      && Tells(tokens, events, complete) && Reading(events, complete, docs)
      && (ok <==> Needed(docs) <= |events|) && (ok ==> n == FirstNode(docs))
  }

  /** Reading the first document of a token stream.  The builder trusts the parser's
      events blindly; it never meets one it does not expect, whatever the tokens. */
  method Load(tokens: seq<Token>) returns (ok: bool, n: Option<Node>)
    ensures Loaded(tokens, ok, n)
    ensures Parsed(tokens) ==> ok
    ensures forall ds :: IsSentence(tokens, ds) && SoundDocuments(ds) ==> ok && n == FirstNode(DocumentsOf(ds))
  {
    hide G.Runs, Tells, Reading, FirstNode, Needed, Parsed, IsSentence, SoundDocuments, Step, ValidDocuments, Word,
         IsPrefixOfStream, IsStream, NoStreamEnd;
    var parser := new Parser(tokens);
    var events, complete := parser.Run();
    RunTells(tokens, events, complete, parser.Cfg());
    ghost var docs := Readable(events, complete);
    var builder := new Builder(events);
    ok, n := builder.ParseFirst(docs);
    assert !builder.status.Panicked?;
    if Parsed(tokens) {
      LoadedWhole(tokens, ok, n);
    }
    forall ds | IsSentence(tokens, ds) && SoundDocuments(ds) ensures ok && n == FirstNode(DocumentsOf(ds)) {
      LoadedSentence(tokens, ds, ok, n);
    }
  }

  lemma Readable(events: seq<Event>, complete: bool) returns (docs: seq<Document>)
    requires if complete then IsStream(events) else IsPrefixOfStream(events)
    ensures Reading(events, complete, docs) && ValidDocuments(docs) && events <= Word(docs)
  {
    hide ValidDocuments, Word;
    if complete {
      docs :| ValidDocuments(docs) && events == Word(docs);
    } else {
      docs :| ValidDocuments(docs) && events <= Word(docs);
    }
  }

  /** A stream that is parsed to its end is loaded. */
  lemma LoadedWhole(tokens: seq<Token>, ok: bool, n: Option<Node>)
    requires Loaded(tokens, ok, n) && Parsed(tokens)
    ensures ok
  {
    hide Tells, Parsed, FirstNode, Needed, ValidDocuments, Word;
    var events, complete, docs: seq<Document> :| Tells(tokens, events, complete) && Reading(events, complete, docs)
      && (ok <==> Needed(docs) <= |events|) && (ok ==> n == FirstNode(docs));
    ParsedTells(tokens, events, complete);
    WordSuffices(docs);
  }

  /** From a sound sentence the tree of its first document is loaded. */
  lemma LoadedSentence(tokens: seq<Token>, ds: seq<DocumentSyntax>, ok: bool, n: Option<Node>)
    requires Loaded(tokens, ok, n) && IsSentence(tokens, ds) && SoundDocuments(ds)
    ensures ok && n == FirstNode(DocumentsOf(ds))
  {
    hide Tells, Reading, FirstNode, Needed, IsSentence, SoundDocuments;
    var events, complete, docs: seq<Document> :| Tells(tokens, events, complete) && Reading(events, complete, docs)
      && (ok <==> Needed(docs) <= |events|) && (ok ==> n == FirstNode(docs));
    SentenceRead(tokens, ds, events, complete, docs);
    WordSuffices(docs);
    ReadWhole(events, docs);
  }

  lemma ReadWhole(events: seq<Event>, docs: seq<Document>)
    requires Reading(events, true, docs)
    ensures events == Word(docs)
  {
  }

  /** Whatever is loaded is a well-formed tree that keeps what its events say. */
  lemma LoadedTree(tokens: seq<Token>, ok: bool, n: Option<Node>)
    requires Loaded(tokens, ok, n) && ok && n.Some?
    ensures exists t :: ValidTree(t) && n.value == Node(DocumentNode, 1, "", "", false, [Built(t, 2)])
                     && Unbuild(n.value.children[0]) == KeptAll(Flatten(t)) && Even(n.value.children[0])
  {
    hide Tells, Needed, Built, Unbuild, KeptAll, Even, ValidTree, Flatten, Word, FlattenDocuments;
    var events, complete, docs: seq<Document> :| Tells(tokens, events, complete) && Reading(events, complete, docs)
      && (ok <==> Needed(docs) <= |events|) && (ok ==> n == FirstNode(docs));
    var t := docs[0].root;
    assert ValidDocument(docs[0]);
    UnbuildBuilt(t, 2);
    BuiltIsEven(t, 2);
  }

  lemma RunTells(tokens: seq<Token>, events: seq<Event>, complete: bool, d: Config)
    requires complete ==> G.Runs(tokens, Start, events, d) && d.state.EndState?
    requires !complete ==> exists c :: G.Runs(tokens, Start, events, c) && !c.state.EndState? && Step(tokens, c).Error?
    ensures Tells(tokens, events, complete)
  {
    hide G.Runs, Step;
    if complete {
      assert Stops(tokens, d, complete);
    } else {
      var c :| G.Runs(tokens, Start, events, c) && !c.state.EndState? && Step(tokens, c).Error?;
      assert Stops(tokens, c, complete);
    }
  }

  /** The parser tells one thing only. */
  lemma ParsedTells(tokens: seq<Token>, events: seq<Event>, complete: bool)
    requires Tells(tokens, events, complete) && Parsed(tokens)
    ensures complete
  {
    hide G.Runs, Step;
    var d :| G.Runs(tokens, Start, events, d) && Stops(tokens, d, complete);
    var es, e :| G.Runs(tokens, Start, es, e) && e.state.EndState?;
    G.RunsDeterministic(tokens, Start, events, d, es, e);
  }

  /** On a sentence the documents read are those of its syntax. */
  lemma SentenceRead(tokens: seq<Token>, ds: seq<DocumentSyntax>, events: seq<Event>, complete: bool, docs: seq<Document>)
    requires IsSentence(tokens, ds) && SoundDocuments(ds) && Tells(tokens, events, complete) && Reading(events, complete, docs)
    ensures complete && docs == DocumentsOf(ds)
  {
    hide G.Runs, Step, GoodDocuments, SoundDocuments, G.Lies, SpellDocuments, TellDocuments, DocumentsOf, ValidDocuments, Word;
    ParsedExactly(tokens, ds);
    ParsedTells(tokens, events, complete);
    SentenceTold(ds);
    WordUnique(docs, DocumentsOf(ds));
  }

  /** The parser class on a sentence of the grammar: it comes to the end of the stream
      if and only if the sentence is sound, and then with exactly its events. */
  method ParseSentence(tokens: seq<Token>, ghost ds: seq<DocumentSyntax>) returns (events: seq<Event>, ok: bool)
    requires IsSentence(tokens, ds)
    ensures ok <==> SoundDocuments(ds)
    ensures ok ==> events == [StreamStart] + TellDocuments(ds)
  {
    hide G.Lies, TellDocuments, SpellDocuments, GoodDocuments, SoundDocuments, G.Runs, IsStream, IsPrefixOfStream;
    var parser := new Parser(tokens);
    events, ok := parser.Run();
    ParsedExactly(tokens, ds);
    if !ok {
      ghost var c :| G.Runs(tokens, Start, events, c) && !c.state.EndState? && Step(tokens, c).Error?;
      FailedIsNotParsed(tokens, events, c);
    }
  }
}
