/** Which sentences of the token grammar the parser takes: just those whose
    documents are sound. */
module YamlExactly {
  import opened YamlEvents
  import opened YamlTokens
  import opened YamlStep
  import opened YamlGrammar
  import opened YamlKeyless
  import opened YamlBrackets
  import opened YamlSentences

  /** The parser comes to the end of the stream. */
  ghost predicate Parsed(tokens: seq<Token>) {
    exists es, d :: Runs(tokens, Start, es, d) && d.state.EndState?
  }

  lemma RootDooms(tokens: seq<Token>, d: DocumentSyntax, c: Config, first: bool)
    requires GoodDocument(d, first) && !Sound(d.root) && c.states == [DocumentEndState] && c.tags == DocumentTags(d)
    requires c.state == if d.explicit then DocumentContent else BlockNode
    requires Lies(tokens, c.pos, Spell(d.root)) && c.pos + |Spell(d.root)| < |tokens|
    requires var k := tokens[c.pos + |Spell(d.root)|].kind; StartsExplicitly(k) || k.DocumentEndToken?
    ensures Fails(tokens, Step(tokens, c))
  {
    hide NodeStep, Lies, Spell, GoodDocument, DocumentTags, SoundEntries, Doomed, Good;
    PresentRoot(d, first);
    RootStepIs(tokens, d, c, first);
    NodeDooms(tokens, d.root, c, true, false);
  }

  lemma DocumentDooms(tokens: seq<Token>, d: DocumentSyntax, c: Config, pos: nat, first: bool)
    requires GoodDocument(d, first) && !Sound(d.root) && Boundary(tokens, c, pos) && (first <==> c.state.ImplicitDocumentStart?)
    requires Lies(tokens, pos, SpellDocument(d)) && pos + |SpellDocument(d)| < |tokens|
    requires StartsExplicitly(tokens[pos + |SpellDocument(d)|].kind)
    ensures Doomed(tokens, c)
  {
    hide Step, Goes, Lies, Spell, Tell, SpellDocument, GoodDocument, DocumentTags, Runs, Ends, Boundary, VersionOf,
         TagsOf, Sound, Doomed;
    DocumentStarts(tokens, d, c, pos, first);
    var c1 := Step(tokens, c).next;
    LiesSplit(tokens, c1.pos, Spell(d.root), Ends(d.ends));
    EndsFirst(tokens, c1.pos + |Spell(d.root)|, d.ends);
    RootDooms(tokens, d, c1, first);
    StepDooms(tokens, c1);
    StepDooms(tokens, c);
  }

  lemma {:induction false} DocumentsDoom(tokens: seq<Token>, ds: seq<DocumentSyntax>, c: Config, pos: nat, first: bool)
    requires GoodDocuments(ds, first) && !SoundDocuments(ds)
    requires Boundary(tokens, c, pos) && (first <==> c.state.ImplicitDocumentStart?)
    requires Lies(tokens, pos, SpellDocuments(ds))
    ensures Doomed(tokens, c)
    decreases |ds|
  {
    hide Lies, SpellDocument, TellDocument, GoodDocument, Runs, Boundary, Sound, Doomed;
    LiesSplit(tokens, pos, SpellDocument(ds[0]), SpellDocuments(ds[1..]));
    NextStarts(tokens, pos + |SpellDocument(ds[0])|, ds[1..]);
    if Sound(ds[0].root) {
      var e := DocumentRuns(tokens, ds[0], c, pos, first);
      LaterUnsoundDocument(ds);
      DocumentsDoom(tokens, ds[1..], e, pos + |SpellDocument(ds[0])|, false);
      RunsIntoDoom(tokens, c, TellDocument(ds[0]), e);
    } else {
      DocumentDooms(tokens, ds[0], c, pos, first);
    }
  }

  lemma LaterUnsoundDocument(ds: seq<DocumentSyntax>)
    requires !SoundDocuments(ds) && ds != [] && Sound(ds[0].root)
    ensures !SoundDocuments(ds[1..])
  {
    hide Sound;
    var i :| 0 <= i < |ds| && !Sound(ds[i].root);
    assert ds[1..][i - 1] == ds[i];
  }

  lemma StreamDoomed(tokens: seq<Token>, ds: seq<DocumentSyntax>)
    requires GoodDocuments(ds, true) && !SoundDocuments(ds) && Lies(tokens, 0, [StreamStartToken] + SpellDocuments(ds))
    ensures Doomed(tokens, Start)
  {
    hide SpellDocuments, SoundDocuments, GoodDocuments, Doomed, Step;
    LiesSplit(tokens, 0, [StreamStartToken], SpellDocuments(ds));
    LiesFirst(tokens, 0, [StreamStartToken]);
    SomethingSpelled(ds);
    var c := Config(1, ImplicitDocumentStart, [], []);
    DocumentsDoom(tokens, ds, c, 1, true);
    StartIs(tokens);
    StepDooms(tokens, Start);
  }

  lemma StartIs(tokens: seq<Token>)
    requires tokens != [] && tokens[0].kind.StreamStartToken?
    ensures Step(tokens, Start) == Emits(StreamStart, Config(1, ImplicitDocumentStart, [], []))
  {
  }

  // ------------------------------------------- where a complete run comes to rest

  lemma DocumentCalm(d: DocumentSyntax, first: bool)
    requires GoodDocument(d, first)
    ensures Calm(SpellDocument(d))
  {
    hide Spell, Good, Calm;
    SpellCalm(d.root);
    PlainCalm(Ends(d.ends));
    CalmAdds(Spell(d.root), Ends(d.ends));
    PlainCalm([]);
    if d.explicit {
      PlainCalm(d.directives + [DocumentStartToken]);
    }
    CalmAdds(if d.explicit then d.directives + [DocumentStartToken] else [], Spell(d.root) + Ends(d.ends));
  }

  /** All that is spelled in front of the end of the stream. */
  lemma {:induction false} DocumentsCalm(ds: seq<DocumentSyntax>, first: bool) returns (front: seq<TokenKind>)
    requires GoodDocuments(ds, first)
    ensures Calm(front) && SpellDocuments(ds) == front + [StreamEndToken]
    decreases |ds|
  {
    hide SpellDocument, GoodDocument, Calm;
    if ds == [] {
      front := [];
      PlainCalm([]);
    } else {
      front := DocumentsCalm(ds[1..], false);
      DocumentCalm(ds[0], first);
      CalmAdds(SpellDocument(ds[0]), front);
      front := SpellDocument(ds[0]) + front;
    }
  }

  /** The end of a complete run lies behind the stream end token, with all brackets accounted for. */
  lemma EndsAtRest(tokens: seq<Token>, front: seq<TokenKind>, e: Config)
    requires Lies(tokens, 0, front + [StreamEndToken]) && Calm(front)
    requires Upright(tokens, e) && e.state.EndState?
    ensures e.pos <= |tokens| && Debt(tokens, e) == 0
  {
    hide Weight, Balance;
    LiesSplit(tokens, 0, front, [StreamEndToken]);
    LiesFirst(tokens, |front|, [StreamEndToken]);
    CalmIsClean(tokens, front);
    SpelledBalance(tokens, 0, front);
    Consume(tokens, |front|);
    assert Balance(tokens, 0) == 0 by { NothingYet(tokens); }
  }

  lemma CalmIsClean(tokens: seq<Token>, front: seq<TokenKind>)
    requires Lies(tokens, 0, front) && Calm(front)
    ensures Clean(tokens, |front|)
  {
    hide Weight;
    forall i | 0 <= i < |front| ensures !tokens[i].kind.StreamEndToken? {
      assert tokens[0 + i].kind == front[i];
    }
  }

  lemma NothingYet(tokens: seq<Token>)
    ensures Balance(tokens, 0) == 0 && Upright(tokens, Start) && Debt(tokens, Start) == 0
  {
  }

  /** Where a sentence, sound or not, is parsed to the end of the stream, the start is not doomed. */
  lemma NotDoomed(tokens: seq<Token>, ds: seq<DocumentSyntax>, es: seq<Event>, e: Config)
    requires GoodDocuments(ds, true) && Lies(tokens, 0, [StreamStartToken] + SpellDocuments(ds))
    requires Runs(tokens, Start, es, e) && e.state.EndState?
    ensures !Doomed(tokens, Start)
  {
    hide SpellDocuments, GoodDocuments, Doomed, Runs, Lies, Debt, Upright, Calm;
    if Doomed(tokens, Start) {
      NothingYet(tokens);
      DoomedNeverEnds(tokens, Start, es, e);
      RunKeeps(tokens, Start, es, e);
      var front := DocumentsCalm(ds, true);
      PlainCalm([StreamStartToken]);
      CalmAdds([StreamStartToken], front);
      assert [StreamStartToken] + (front + [StreamEndToken]) == [StreamStartToken] + front + [StreamEndToken];
      EndsAtRest(tokens, [StreamStartToken] + front, e);
    }
  }

  /** An unsound sentence is never parsed to the end of the stream. */
  lemma UnsoundIsRejected(tokens: seq<Token>, ds: seq<DocumentSyntax>)
    requires GoodDocuments(ds, true) && !SoundDocuments(ds) && Lies(tokens, 0, [StreamStartToken] + SpellDocuments(ds))
    ensures !Parsed(tokens)
  {
    hide SpellDocuments, SoundDocuments, GoodDocuments, Doomed, Runs, Lies;
    if Parsed(tokens) {
      var es, e :| Runs(tokens, Start, es, e) && e.state.EndState?;
      StreamDoomed(tokens, ds);
      NotDoomed(tokens, ds, es, e);
    }
  }

  /** A sentence of the grammar is parsed to the end of the stream if and only if its
      documents are sound, and then to its events. */
  lemma ParsedExactly(tokens: seq<Token>, ds: seq<DocumentSyntax>)
    requires GoodDocuments(ds, true) && Lies(tokens, 0, [StreamStartToken] + SpellDocuments(ds))
    ensures Parsed(tokens) <==> SoundDocuments(ds)
    ensures forall es, d :: Runs(tokens, Start, es, d) && d.state.EndState? ==> es == [StreamStart] + TellDocuments(ds)
  {
    hide SpellDocuments, SoundDocuments, GoodDocuments, Runs, Lies, TellDocuments;
    if SoundDocuments(ds) {
      StreamRuns(tokens, ds);
      var end := Config(1 + |SpellDocuments(ds)|, EndState, [], []);
      forall es, d | Runs(tokens, Start, es, d) && d.state.EndState? ensures es == [StreamStart] + TellDocuments(ds) {
        RunsDeterministic(tokens, Start, es, d, [StreamStart] + TellDocuments(ds), end);
      }
    } else {
      UnsoundIsRejected(tokens, ds);
    }
  }

  // ------------------------------------------------------------- three texts

  lemma FailedIsNotParsed(tokens: seq<Token>, es: seq<Event>, d: Config)
    requires Runs(tokens, Start, es, d) && !d.state.EndState? && Step(tokens, d).Error?
    ensures !Parsed(tokens)
  {
    hide Runs, Step;
    if Parsed(tokens) {
      var all, e :| Runs(tokens, Start, all, e) && e.state.EndState?;
      RunsDeterministic(tokens, Start, es, d, all, e);
    }
  }

  /** Inside the root collection of a first document without directives. */
  function FirstDocument(pos: nat, s: State): Config {
    Config(pos, s, [DocumentEndState], WithDefaults([]))
  }

  /** The root collection of an implicit document starts. */
  lemma {:induction false} RootOpens(tokens: seq<Token>, e: Event, s: State)
    requires |tokens| > 1 && tokens[0].kind == StreamStartToken
    requires || (tokens[1].kind.FlowSequenceStartToken? && e == SequenceStart(None, "", true) && s.FlowSequenceFirstEntry?)
             || (tokens[1].kind.BlockMappingStartToken? && e == MappingStart(None, "", false) && s.BlockMappingFirstKey?)
    ensures Runs(tokens, Start, [StreamStart, DocumentStart(None, []), e], FirstDocument(1, s))
  {
    hide Step, WithDefaults, Runs;
    StartIs(tokens);
    RootSteps(tokens, e, s);
    ThreeSteps(tokens, Start, StreamStart, Config(1, ImplicitDocumentStart, [], []), DocumentStart(None, []),
               FirstDocument(1, BlockNode), e, FirstDocument(1, s));
  }

  lemma {:induction false} ThreeSteps(tokens: seq<Token>, a: Config, x: Event, b: Config, y: Event, c: Config, z: Event, d: Config)
    requires !a.state.EndState? && !b.state.EndState? && !c.state.EndState?
    requires Step(tokens, a) == Emits(x, b) && Step(tokens, b) == Emits(y, c) && Step(tokens, c) == Emits(z, d)
    ensures Runs(tokens, a, [x, y, z], d)
  {
    hide Step;
    assert [x, y, z][1..] == [y, z] && [y, z][1..] == [z] && [z][1..] == [];
    assert Runs(tokens, c, [z], d);
    assert Runs(tokens, b, [y, z], d);
  }

  lemma {:induction false} RootSteps(tokens: seq<Token>, e: Event, s: State)
    requires |tokens| > 1
    requires || (tokens[1].kind.FlowSequenceStartToken? && e == SequenceStart(None, "", true) && s.FlowSequenceFirstEntry?)
             || (tokens[1].kind.BlockMappingStartToken? && e == MappingStart(None, "", false) && s.BlockMappingFirstKey?)
    ensures Step(tokens, Config(1, ImplicitDocumentStart, [], [])) == Emits(DocumentStart(None, []), FirstDocument(1, BlockNode))
    ensures !FirstDocument(1, BlockNode).state.EndState?
    ensures Step(tokens, FirstDocument(1, BlockNode)) == Emits(e, FirstDocument(1, s))
  {
    hide WithDefaults;
    assert [] + [DocumentEndState] == [DocumentEndState];
  }

  /** `[?` up to the place of the key. */
  lemma {:induction false} BracketAndKey(tokens: seq<Token>)
    requires |tokens| > 3 && tokens[0].kind == StreamStartToken && tokens[1].kind == FlowSequenceStartToken && tokens[2].kind == KeyToken
    ensures Runs(tokens, Start, TillKey(), FirstDocument(3, FlowSequenceEntryMappingKey))
  {
    hide WithDefaults, Runs;
    RootOpens(tokens, SequenceStart(None, "", true), FlowSequenceFirstEntry);
    RunsOn(tokens, Start, [StreamStart, DocumentStart(None, []), SequenceStart(None, "", true)],
           FirstDocument(1, FlowSequenceFirstEntry), MappingStart(None, "", true), FirstDocument(3, FlowSequenceEntryMappingKey));
    assert TillKey() == [StreamStart, DocumentStart(None, []), SequenceStart(None, "", true)] + [MappingStart(None, "", true)];
  }

  function TillKey(): seq<Event> {
    [StreamStart, DocumentStart(None, []), SequenceStart(None, "", true), MappingStart(None, "", true)]
  }

  lemma RunsOn(tokens: seq<Token>, c: Config, es: seq<Event>, d: Config, e: Event, next: Config)
    requires Runs(tokens, c, es, d) && !d.state.EndState? && Step(tokens, d) == Emits(e, next)
    ensures Runs(tokens, c, es + [e], next)
  {
    hide Runs, Step;
    RunsThenStep(tokens, c, es, d);
  }

  /** What the parser has emitted when it finds out that the key of `[?` was something else. */
  function TillPair(): seq<Event> {
    TillKey() + [EmptyScalar] + ([EmptyScalar] + [MappingEnd])
  }

  /** The token behind KEY is taken for the key, and the pair ends behind it. */
  lemma {:induction false} PairTaken(tokens: seq<Token>)
    requires |tokens| > 4 && tokens[0].kind == StreamStartToken && tokens[1].kind == FlowSequenceStartToken && tokens[2].kind == KeyToken
    requires tokens[3].kind.ValueToken? || EndsFlowPair(tokens[3].kind)
    requires !tokens[4].kind.ValueToken?
    ensures Runs(tokens, Start, TillPair(), FirstDocument(4, FlowSequenceEntry))
  {
    hide Runs, Step, TillKey;
    BracketAndKey(tokens);
    var d0 := FirstDocument(3, FlowSequenceEntryMappingKey);
    PairSwallows(tokens, d0);
    var d1, d2 := FirstDocument(4, FlowSequenceEntryMappingValue), FirstDocument(4, FlowSequenceEntry);
    RunsOn(tokens, Start, TillKey(), d0, EmptyScalar, d1);
    NoValueGoes(tokens, d1);
    RunsFrom(tokens, d1, [EmptyScalar] + [MappingEnd], d2);
    RunsThenRuns(tokens, Start, TillKey() + [EmptyScalar], d1, [EmptyScalar] + [MappingEnd], d2);
  }

  lemma {:induction false} PairTooShort(tokens: seq<Token>)
    requires |tokens| > 4 && tokens[0].kind == StreamStartToken && tokens[1].kind == FlowSequenceStartToken && tokens[2].kind == KeyToken
    requires tokens[3].kind.ValueToken? || EndsFlowPair(tokens[3].kind)
    requires !tokens[4].kind.ValueToken? && !EndsFlowPair(tokens[4].kind)
    ensures Runs(tokens, Start, TillPair(), FirstDocument(4, FlowSequenceEntry)) && !Parsed(tokens)
  {
    hide Runs, Step, TillPair;
    PairTaken(tokens);
    var d := FirstDocument(4, FlowSequenceEntry);
    CommaMissing(tokens, d);
    FailedIsNotParsed(tokens, TillPair(), d);
  }

  /** `[? : b]`: VALUE is taken for the key, and `b` is not an end of the pair. */
  lemma {:induction false} MissingPairKeyIsRejected(tokens: seq<Token>, b: string)
    requires Lies(tokens, 0, [StreamStartToken, FlowSequenceStartToken, KeyToken, ValueToken, ScalarToken(b, true),
                              FlowSequenceEndToken, StreamEndToken])
    ensures !Parsed(tokens)
    ensures Runs(tokens, Start, TillPair(), FirstDocument(4, FlowSequenceEntry))
  {
    hide Runs, Step, Lies;
    FirstFive(tokens, [StreamStartToken, FlowSequenceStartToken, KeyToken, ValueToken, ScalarToken(b, true),
                       FlowSequenceEndToken, StreamEndToken]);
    PairTooShort(tokens);
  }

  /** `[?]`: the closing bracket is taken for the key, and the stream ends inside the sequence. */
  lemma {:induction false} BracketIsSwallowed(tokens: seq<Token>)
    requires Lies(tokens, 0, [StreamStartToken, FlowSequenceStartToken, KeyToken, FlowSequenceEndToken, StreamEndToken])
    ensures !Parsed(tokens)
    ensures Runs(tokens, Start, TillPair(), FirstDocument(4, FlowSequenceEntry)) && Swallows(tokens, FirstDocument(3, FlowSequenceEntryMappingKey))
  {
    hide Runs, Step, Lies;
    FirstFive(tokens, [StreamStartToken, FlowSequenceStartToken, KeyToken, FlowSequenceEndToken, StreamEndToken]);
    PairTooShort(tokens);
  }

  /** `[?]]` is no sentence of the grammar; yet it is parsed, as the second bracket makes up for the first. */
  lemma {:induction false} SecondBracketMakesUp(tokens: seq<Token>)
    requires Lies(tokens, 0, [StreamStartToken, FlowSequenceStartToken, KeyToken, FlowSequenceEndToken, FlowSequenceEndToken, StreamEndToken])
    ensures Parsed(tokens)
  {
    hide Runs, Lies, TillPair, WithDefaults;
    FirstFive(tokens, [StreamStartToken, FlowSequenceStartToken, KeyToken, FlowSequenceEndToken, FlowSequenceEndToken, StreamEndToken]);
    LiesSplit(tokens, 0, [StreamStartToken, FlowSequenceStartToken, KeyToken, FlowSequenceEndToken, FlowSequenceEndToken], [StreamEndToken]) by {
      assert [StreamStartToken, FlowSequenceStartToken, KeyToken, FlowSequenceEndToken, FlowSequenceEndToken] + [StreamEndToken]
          == [StreamStartToken, FlowSequenceStartToken, KeyToken, FlowSequenceEndToken, FlowSequenceEndToken, StreamEndToken];
    }
    LiesFirst(tokens, 5, [StreamEndToken]);
    PairTaken(tokens);
    Closed(tokens, TillPair());
  }

  lemma {:induction false} Closed(tokens: seq<Token>, es: seq<Event>)
    requires |tokens| > 5 && tokens[4].kind == FlowSequenceEndToken && tokens[5].kind == StreamEndToken
    requires Runs(tokens, Start, es, FirstDocument(4, FlowSequenceEntry))
    ensures Parsed(tokens)
  {
    hide Runs, WithDefaults, NodeStep;
    var c1 := Config(5, DocumentEndState, [], WithDefaults([]));
    var c2, c3 := Config(5, DocumentStartState, [], []), Config(6, EndState, [], []);
    assert Step(tokens, FirstDocument(4, FlowSequenceEntry)) == Emits(SequenceEnd, c1);
    assert Step(tokens, c1) == Emits(DocumentEnd(true), c2);
    assert Step(tokens, c2) == Emits(StreamEnd, c3);
    hide Step;
    RunsOn(tokens, Start, es, FirstDocument(4, FlowSequenceEntry), SequenceEnd, c1);
    RunsOn(tokens, Start, es + [SequenceEnd], c1, DocumentEnd(true), c2);
    RunsOn(tokens, Start, es + [SequenceEnd] + [DocumentEnd(true)], c2, StreamEnd, c3);
  }

  lemma {:induction false} FirstFive(tokens: seq<Token>, ks: seq<TokenKind>)
    requires |ks| > 4 && Lies(tokens, 0, ks)
    ensures |tokens| > 4 && tokens[0].kind == ks[0] && tokens[1].kind == ks[1] && tokens[2].kind == ks[2]
    ensures tokens[3].kind == ks[3] && tokens[4].kind == ks[4]
  {
    assert tokens[0 + 0].kind == ks[0] && tokens[0 + 1].kind == ks[1] && tokens[0 + 2].kind == ks[2];
    assert tokens[0 + 3].kind == ks[3] && tokens[0 + 4].kind == ks[4];
  }

  /** `: b` in block style: a mapping starts, and its first token is not KEY. */
  lemma {:induction false} ValueWithoutKeyIsRejected(tokens: seq<Token>, b: string)
    requires Lies(tokens, 0, [StreamStartToken, BlockMappingStartToken, ValueToken, ScalarToken(b, true), BlockEndToken, StreamEndToken])
    ensures !Parsed(tokens)
  {
    hide WithDefaults, Runs, Lies;
    FirstThree(tokens, [StreamStartToken, BlockMappingStartToken, ValueToken, ScalarToken(b, true), BlockEndToken, StreamEndToken]);
    RootOpens(tokens, MappingStart(None, "", false), BlockMappingFirstKey);
    FailedIsNotParsed(tokens, [StreamStart, DocumentStart(None, []), MappingStart(None, "", false)],
                      FirstDocument(1, BlockMappingFirstKey));
  }

  lemma {:induction false} FirstThree(tokens: seq<Token>, ks: seq<TokenKind>)
    requires |ks| > 2 && Lies(tokens, 0, ks)
    ensures |tokens| > 2 && tokens[0].kind == ks[0] && tokens[1].kind == ks[1] && tokens[2].kind == ks[2]
  {
    assert tokens[0 + 0].kind == ks[0] && tokens[0 + 1].kind == ks[1] && tokens[0 + 2].kind == ks[2];
  }
}
