/** Whole streams: documents with directives and document ends.  Every sentence of
    the grammar whose documents are sound runs to the end of the stream, telling
    exactly its events; `YamlExactly` shows that no other does. */
module YamlSentences {
  import opened YamlEvents
  import opened YamlTokens
  import opened YamlStep
  import opened YamlGrammar

  datatype DocumentSyntax = DocumentSyntax(explicit: bool, directives: seq<TokenKind>, root: Syntax, ends: nat)

  function Ends(n: nat): seq<TokenKind> {
    seq(n, i => DocumentEndToken)
  }

  function SpellDocument(d: DocumentSyntax): seq<TokenKind> {
    (if d.explicit then d.directives + [DocumentStartToken] else []) + (Spell(d.root) + Ends(d.ends))
  }

  function SpellDocuments(ds: seq<DocumentSyntax>): seq<TokenKind> {
    if ds == [] then [StreamEndToken] else SpellDocument(ds[0]) + SpellDocuments(ds[1..])
  }

  function TagsOf(ks: seq<TokenKind>): seq<TagDirective> {
    if ks == [] then []
    else
      var k := ks[|ks| - 1];
      TagsOf(ks[..|ks| - 1]) + (if k.TagDirectiveToken? then [TagDirective(k.handle, k.prefix)] else [])
  }

  function VersionOf(ks: seq<TokenKind>): Option<(nat, nat)> {
    if ks == [] then None
    else
      var k := ks[|ks| - 1];
      if k.VersionDirectiveToken? then Some((k.major, k.minor)) else VersionOf(ks[..|ks| - 1])
  }

  function DocumentTags(d: DocumentSyntax): seq<TagDirective> {
    WithDefaults(if d.explicit then TagsOf(d.directives) else [])
  }

  function TellDocument(d: DocumentSyntax): seq<Event> {
    [if d.explicit then DocumentStart(VersionOf(d.directives), TagsOf(d.directives)) else DocumentStart(None, [])]
    + (Tell(d.root, DocumentTags(d)) + [DocumentEnd(d.ends == 0)])
  }

  function TellDocuments(ds: seq<DocumentSyntax>): seq<Event> {
    if ds == [] then [StreamEnd] else TellDocument(ds[0]) + TellDocuments(ds[1..])
  }

  /** At most one %YAML 1.1 and no handle declared twice. */
  predicate GoodDirectives(ks: seq<TokenKind>) {
    && (forall i | 0 <= i < |ks| :: ks[i].TagDirectiveToken? || ks[i] == VersionDirectiveToken(1, 1))
    && forall i, j | 0 <= i < j < |ks| ::
         && !(ks[i].VersionDirectiveToken? && ks[j].VersionDirectiveToken?)
         && (ks[i].TagDirectiveToken? && ks[j].TagDirectiveToken? ==> ks[i].handle != ks[j].handle)
  }

  /** Only the first document may lack a start indicator, and then its root must be there. */
  ghost predicate GoodDocument(d: DocumentSyntax, first: bool) {
    && (if d.explicit then GoodDirectives(d.directives) else first)
    && Good(d.root, DocumentTags(d), true, false, d.explicit)
  }

  ghost predicate GoodDocuments(ds: seq<DocumentSyntax>, first: bool) {
    ds != [] ==> GoodDocument(ds[0], first) && GoodDocuments(ds[1..], false)
  }

  predicate SoundDocuments(ds: seq<DocumentSyntax>) {
    forall i | 0 <= i < |ds| :: Sound(ds[i].root)
  }

  // ------------------------------------------------------------- directives

  lemma {:induction false} HandlesOf(ks: seq<TokenKind>, handle: string)
    ensures HasHandle(TagsOf(ks), handle) ==> exists i :: 0 <= i < |ks| && ks[i].TagDirectiveToken? && ks[i].handle == handle
  {
    if ks != [] {
      HandlesOf(ks[..|ks| - 1], handle);
    }
  }

  /** Directives are collected one by one. */
  lemma {:induction false} DirectivesRead(tokens: seq<Token>, pos: nat, ks: seq<TokenKind>, n: nat)
    requires GoodDirectives(ks) && n <= |ks| && Lies(tokens, pos, ks)
    requires pos + |ks| < |tokens| && tokens[pos + |ks|].kind.DocumentStartToken?
    ensures ReadDirectives(tokens, pos + n, [], VersionOf(ks[..n]), TagsOf(ks[..n]))
         == Directives(pos + |ks|, VersionOf(ks), TagsOf(ks))
    decreases |ks| - n
  {
    if n == |ks| {
      assert ks[..n] == ks;
    } else {
      var k := ks[n];
      assert tokens[pos + n].kind == k;
      assert ks[..n + 1][..n] == ks[..n];
      DirectivesRead(tokens, pos, ks, n + 1);
      VersionsOf(ks[..n]);
      assert [] + TagsOf(ks[..n]) == TagsOf(ks[..n]);
      if k.TagDirectiveToken? {
        HandlesOf(ks[..n], k.handle);
      } else {
        assert TagsOf(ks[..n]) + [] == TagsOf(ks[..n]);
      }
    }
  }

  lemma {:induction false} VersionsOf(ks: seq<TokenKind>)
    ensures VersionOf(ks).Some? ==> exists i :: 0 <= i < |ks| && ks[i].VersionDirectiveToken?
  {
    if ks != [] {
      VersionsOf(ks[..|ks| - 1]);
    }
  }

  // -------------------------------------------------------------- documents

  /** Between documents, the next one starting at `pos`. */
  ghost predicate Boundary(tokens: seq<Token>, c: Config, pos: nat) {
    && c.states == [] && c.tags == []
    && pos < |tokens|
    && if c.state.ImplicitDocumentStart? then c.pos == pos
       else c.state.DocumentStartState? && SkipDocumentEnds(tokens, c.pos) == pos
  }

  lemma {:induction false} EndsSkipped(tokens: seq<Token>, pos: nat, n: nat)
    requires Lies(tokens, pos, Ends(n)) && pos + n < |tokens| && !tokens[pos + n].kind.DocumentEndToken?
    ensures SkipDocumentEnds(tokens, pos) == pos + n
    decreases n
  {
    if n > 0 {
      assert tokens[pos + 0].kind == Ends(n)[0];
      LiesSplit(tokens, pos, [DocumentEndToken], Ends(n - 1)) by {
        assert Ends(n) == [DocumentEndToken] + Ends(n - 1);
      }
      EndsSkipped(tokens, pos + 1, n - 1);
    }
  }

  /** The end of a document, with any number of indicators. */
  lemma DocumentEnds(tokens: seq<Token>, c: Config, n: nat)
    requires c.state.DocumentEndState? && c.states == []
    requires Lies(tokens, c.pos, Ends(n)) && c.pos + n < |tokens| && StartsExplicitly(tokens[c.pos + n].kind)
    ensures var o := DocumentEndStep(tokens, c);
            o.Emits? && o.event == DocumentEnd(n == 0) && Boundary(tokens, o.next, c.pos + n)
  {
    EndsSkipped(tokens, c.pos, n);
    if n > 0 {
      assert tokens[c.pos + 0].kind == Ends(n)[0];
    }
  }

  /** The start of a document: its root is due. */
  lemma DocumentStarts(tokens: seq<Token>, d: DocumentSyntax, c: Config, pos: nat, first: bool)
    requires GoodDocument(d, first) && Boundary(tokens, c, pos) && (first <==> c.state.ImplicitDocumentStart?)
    requires Lies(tokens, pos, SpellDocument(d)) && pos + |SpellDocument(d)| < |tokens|
    ensures var start := if d.explicit then |d.directives| + 1 else 0;
            && Step(tokens, c) == Emits(TellDocument(d)[0],
                                        Config(pos + start, if d.explicit then DocumentContent else BlockNode,
                                               [DocumentEndState], DocumentTags(d)))
            && Lies(tokens, pos + start, Spell(d.root) + Ends(d.ends))
            && |SpellDocument(d)| == start + |Spell(d.root) + Ends(d.ends)|
    ensures !c.state.EndState?
  {
    hide Good, Spell, Tell, WithDefaults, NodeStep, Ends, Lies, Step, GoodDirectives, Boundary, VersionOf, TagsOf;
    if d.explicit {
      ExplicitStarts(tokens, d, c, pos);
    } else {
      ImplicitStarts(tokens, d, c, pos);
    }
  }

  lemma ImplicitStarts(tokens: seq<Token>, d: DocumentSyntax, c: Config, pos: nat)
    requires !d.explicit && Good(d.root, DocumentTags(d), true, false, false)
    requires Boundary(tokens, c, pos) && c.state.ImplicitDocumentStart?
    requires Lies(tokens, pos, SpellDocument(d)) && pos + |SpellDocument(d)| < |tokens|
    ensures !c.state.EndState? && SpellDocument(d) == Spell(d.root) + Ends(d.ends)
    ensures Step(tokens, c) == Emits(DocumentStart(None, []), Config(pos, BlockNode, [DocumentEndState], DocumentTags(d)))
  {
    hide Good, Spell, WithDefaults, NodeStep, Ends, Lies, ReadDirectives;
    assert SpellDocument(d) == Spell(d.root) + Ends(d.ends);
    assert [] + [DocumentEndState] == [DocumentEndState];
    RootPresent(d.root, DocumentTags(d));
    LiesSplit(tokens, pos, Spell(d.root), Ends(d.ends));
    PlaceToken(tokens, d.root, pos, DocumentTags(d), true, false);
  }

  lemma ExplicitStarts(tokens: seq<Token>, d: DocumentSyntax, c: Config, pos: nat)
    requires d.explicit && GoodDirectives(d.directives) && Boundary(tokens, c, pos)
    requires Lies(tokens, pos, SpellDocument(d)) && pos + |SpellDocument(d)| < |tokens|
    ensures var start := |d.directives| + 1;
            && Step(tokens, c) == Emits(DocumentStart(VersionOf(d.directives), TagsOf(d.directives)),
                                        Config(pos + start, DocumentContent, [DocumentEndState], DocumentTags(d)))
            && Lies(tokens, pos + start, Spell(d.root) + Ends(d.ends))
            && |SpellDocument(d)| == start + |Spell(d.root) + Ends(d.ends)|
    ensures !c.state.EndState?
  {
    hide Spell, WithDefaults, NodeStep, Ends, ReadDirectives, Lies, GoodDirectives, VersionOf, TagsOf;
    var head := d.directives + [DocumentStartToken];
    LiesSplit(tokens, pos, head, Spell(d.root) + Ends(d.ends));
    LiesSplit(tokens, pos, d.directives, [DocumentStartToken]);
    LiesFirst(tokens, pos, head);
    LiesFirst(tokens, pos + |d.directives|, [DocumentStartToken]);
    FromDirectives(tokens, d.directives, pos);
    assert [] + [DocumentEndState] == [DocumentEndState];
    assert [] + TagsOf(d.directives) == TagsOf(d.directives);
  }

  lemma FromDirectives(tokens: seq<Token>, ks: seq<TokenKind>, pos: nat)
    requires GoodDirectives(ks) && Lies(tokens, pos, ks)
    requires pos + |ks| < |tokens| && tokens[pos + |ks|].kind.DocumentStartToken?
    ensures ReadDirectives(tokens, pos, [], None, []) == Directives(pos + |ks|, VersionOf(ks), TagsOf(ks))
    ensures StartsExplicitly(tokens[pos].kind) && !tokens[pos].kind.StreamEndToken?
  {
    hide Lies, ReadDirectives;
    DirectivesRead(tokens, pos, ks, 0);
    if ks != [] {
      LiesFirst(tokens, pos, ks);
    }
  }

  lemma RootPresent(n: Syntax, tags: seq<TagDirective>)
    requires Good(n, tags, true, false, false)
    ensures !n.Absent? && Good(n, tags, true, false, true)
  {
  }

  /** The root of a document, or the empty scalar in its place. */
  lemma RootGoes(tokens: seq<Token>, d: DocumentSyntax, c: Config, first: bool)
    requires GoodDocument(d, first) && Sound(d.root) && c.states == [DocumentEndState] && c.tags == DocumentTags(d)
    requires c.state == if d.explicit then DocumentContent else BlockNode
    requires Lies(tokens, c.pos, Spell(d.root)) && c.pos + |Spell(d.root)| < |tokens|
    requires var k := tokens[c.pos + |Spell(d.root)|].kind; StartsExplicitly(k) || k.DocumentEndToken?
    ensures Goes(tokens, Step(tokens, c), Tell(d.root, c.tags), Config(c.pos + |Spell(d.root)|, DocumentEndState, [], c.tags))
  {
    hide NodeStep, Goes, Lies, Spell, Tell, GoodDocument, DocumentTags, Sound;
    assert Init([DocumentEndState]) == [];
    if d.root.Absent? {
      AbsentIsExplicit(d, first);
      AbsentTold(c.tags);
      AbsentSpelled();
      GoesOnce(tokens, EmptyScalar, Config(c.pos, DocumentEndState, [], c.tags));
    } else {
      hide Good;
      PresentRoot(d, first);
      RootStepIs(tokens, d, c, first);
      NodeGoes(tokens, d.root, c, true, false);
    }
  }

  lemma RootStepIs(tokens: seq<Token>, d: DocumentSyntax, c: Config, first: bool)
    requires GoodDocument(d, first) && !d.root.Absent? && c.tags == DocumentTags(d)
    requires c.state == if d.explicit then DocumentContent else BlockNode
    requires Lies(tokens, c.pos, Spell(d.root)) && c.pos + |Spell(d.root)| < |tokens|
    ensures Step(tokens, c) == NodeStep(tokens, c, true, false)
  {
    hide NodeStep, Lies, Spell, GoodDocument, DocumentTags, Good;
    PresentRoot(d, first);
    PlaceToken(tokens, d.root, c.pos, c.tags, true, false);
  }

  lemma AbsentSpelled()
    ensures Spell(Absent) == []
  {
  }

  lemma AbsentIsExplicit(d: DocumentSyntax, first: bool)
    requires GoodDocument(d, first) && d.root.Absent?
    ensures d.explicit
  {
  }

  lemma PresentRoot(d: DocumentSyntax, first: bool)
    requires GoodDocument(d, first) && !d.root.Absent?
    ensures Good(d.root, DocumentTags(d), true, false, false) && Good(d.root, DocumentTags(d), true, false, true)
  {
  }

  lemma RunsFrom(tokens: seq<Token>, c: Config, es: seq<Event>, d: Config)
    requires !c.state.EndState? && Goes(tokens, Step(tokens, c), es, d)
    ensures Runs(tokens, c, es, d)
  {
    hide Step;
  }

  lemma EndsFirst(tokens: seq<Token>, pos: nat, n: nat)
    requires Lies(tokens, pos, Ends(n))
    ensures |Ends(n)| == n
    ensures n > 0 ==> pos < |tokens| && tokens[pos].kind.DocumentEndToken?
  {
    if n > 0 {
      LiesFirst(tokens, pos, Ends(n));
    }
  }

  /** One document, from boundary to boundary. */
  lemma DocumentRuns(tokens: seq<Token>, d: DocumentSyntax, c: Config, pos: nat, first: bool) returns (e: Config)
    requires GoodDocument(d, first) && Sound(d.root) && Boundary(tokens, c, pos) && (first <==> c.state.ImplicitDocumentStart?)
    requires Lies(tokens, pos, SpellDocument(d)) && pos + |SpellDocument(d)| < |tokens|
    requires StartsExplicitly(tokens[pos + |SpellDocument(d)|].kind)
    ensures Runs(tokens, c, TellDocument(d), e) && Boundary(tokens, e, pos + |SpellDocument(d)|)
    ensures e.state.DocumentStartState?
  {
    hide Step, Goes, Lies, Spell, Tell, SpellDocument, GoodDocument, DocumentTags, Runs, Ends, Boundary, VersionOf,
         TagsOf, Sound;
    DocumentStarts(tokens, d, c, pos, first);
    var c1 := Step(tokens, c).next;
    LiesSplit(tokens, c1.pos, Spell(d.root), Ends(d.ends));
    var mid := c1.pos + |Spell(d.root)|;
    EndsFirst(tokens, mid, d.ends);
    var c2 := Config(mid, DocumentEndState, [], DocumentTags(d));
    RootGoes(tokens, d, c1, first);
    DocumentEnds(tokens, c2, d.ends);
    EndStepIs(tokens, c2);
    e := Step(tokens, c2).next;
    GoesOnce(tokens, DocumentEnd(d.ends == 0), e);
    GoesThenGoes(tokens, Step(tokens, c1), Tell(d.root, c1.tags), c2, [DocumentEnd(d.ends == 0)], e);
    GoesOnce(tokens, TellDocument(d)[0], c1);
    GoesThenGoes(tokens, Step(tokens, c), [TellDocument(d)[0]], c1, Tell(d.root, c1.tags) + [DocumentEnd(d.ends == 0)], e);
    RunsFrom(tokens, c, TellDocument(d), e);
  }

  lemma EndStepIs(tokens: seq<Token>, c: Config)
    requires c.state.DocumentEndState?
    ensures Step(tokens, c) == DocumentEndStep(tokens, c)
    ensures DocumentEndStep(tokens, c).Emits? ==> DocumentEndStep(tokens, c).next.state.DocumentStartState?
  {
  }

  lemma ExplicitStart(d: DocumentSyntax)
    requires d.explicit && GoodDirectives(d.directives)
    ensures SpellDocument(d) != [] && StartsExplicitly(SpellDocument(d)[0])
  {
    var head := d.directives + [DocumentStartToken];
    assert SpellDocument(d)[0] == head[0];
  }

  /** What follows a document: a document with a start indicator, or the end of the stream. */
  lemma NextStarts(tokens: seq<Token>, pos: nat, ds: seq<DocumentSyntax>)
    requires GoodDocuments(ds, false) && Lies(tokens, pos, SpellDocuments(ds))
    ensures pos < |tokens| && StartsExplicitly(tokens[pos].kind)
  {
    if ds == [] {
      LiesFirst(tokens, pos, [StreamEndToken]);
    } else {
      LiesSplit(tokens, pos, SpellDocument(ds[0]), SpellDocuments(ds[1..]));
      hide Lies, SpellDocument;
      LiesFirst(tokens, pos, SpellDocument(ds[0])) by { ExplicitStart(ds[0]); }
      ExplicitStart(ds[0]);
    }
  }

  /** All documents and the end of the stream. */
  lemma {:induction false} DocumentsRun(tokens: seq<Token>, ds: seq<DocumentSyntax>, c: Config, pos: nat, first: bool)
    requires GoodDocuments(ds, first) && SoundDocuments(ds) && Boundary(tokens, c, pos) && (first <==> c.state.ImplicitDocumentStart?)
    requires Lies(tokens, pos, SpellDocuments(ds))
    ensures Runs(tokens, c, TellDocuments(ds), Config(pos + |SpellDocuments(ds)|, EndState, [], []))
    decreases |ds|
  {
    hide Lies, SpellDocument, TellDocument, GoodDocument, Runs, Boundary, Sound;
    if ds == [] {
      LiesFirst(tokens, pos, [StreamEndToken]);
      StreamEnds(tokens, c, pos);
    } else {
      LiesSplit(tokens, pos, SpellDocument(ds[0]), SpellDocuments(ds[1..]));
      NextStarts(tokens, pos + |SpellDocument(ds[0])|, ds[1..]);
      var e := DocumentRuns(tokens, ds[0], c, pos, first);
      DocumentsRun(tokens, ds[1..], e, pos + |SpellDocument(ds[0])|, false);
      RunsThenRuns(tokens, c, TellDocument(ds[0]), e, TellDocuments(ds[1..]),
                   Config(pos + |SpellDocuments(ds)|, EndState, [], []));
    }
  }

  lemma StreamEnds(tokens: seq<Token>, c: Config, pos: nat)
    requires Boundary(tokens, c, pos) && tokens[pos].kind.StreamEndToken?
    ensures Runs(tokens, c, [StreamEnd], Config(pos + 1, EndState, [], []))
  {
  }

  const Start := Config(0, StreamStartState, [], [])

  /** Every sentence of the grammar is parsed to the end, to exactly its events. */
  lemma StreamRuns(tokens: seq<Token>, ds: seq<DocumentSyntax>)
    requires GoodDocuments(ds, true) && SoundDocuments(ds) && Lies(tokens, 0, [StreamStartToken] + SpellDocuments(ds))
    ensures Runs(tokens, Start, [StreamStart] + TellDocuments(ds), Config(1 + |SpellDocuments(ds)|, EndState, [], []))
  {
    LiesSplit(tokens, 0, [StreamStartToken], SpellDocuments(ds));
    LiesFirst(tokens, 0, [StreamStartToken]);
    var c := Config(1, ImplicitDocumentStart, [], []);
    SomethingSpelled(ds);
    DocumentsRun(tokens, ds, c, 1, true);
    hide Step, Lies, SpellDocuments, TellDocuments, SoundDocuments;
    StreamStarts(tokens, TellDocuments(ds), Config(1 + |SpellDocuments(ds)|, EndState, [], []));
  }

  lemma {:induction false} SomethingSpelled(ds: seq<DocumentSyntax>)
    ensures SpellDocuments(ds) != []
    decreases |ds|
  {
    if ds != [] {
      SomethingSpelled(ds[1..]);
    }
  }

  lemma StreamStarts(tokens: seq<Token>, es: seq<Event>, d: Config)
    requires tokens != [] && tokens[0].kind.StreamStartToken?
    requires Runs(tokens, Config(1, ImplicitDocumentStart, [], []), es, d)
    ensures Runs(tokens, Start, [StreamStart] + es, d)
  {
    assert ([StreamStart] + es)[1..] == es;
    assert Step(tokens, Start) == Emits(StreamStart, Config(1, ImplicitDocumentStart, [], []));
  }

  const PLAIN := Props(None, None, true)

  function Plain(text: string): Syntax {
    Scalar(PLAIN, text, true)
  }

  function PairDocument(key: string, value: string): DocumentSyntax {
    DocumentSyntax(false, [], Collection(PLAIN, BlockMap, [Entry(true, Plain(key), true, Plain(value))], false), 0)
  }

  /** `key: value` is such a sentence. */
  lemma PairSentence(key: string, value: string)
    ensures GoodDocuments([PairDocument(key, value)], true) && SoundDocuments([PairDocument(key, value)])
    ensures SpellDocuments([PairDocument(key, value)])
         == [BlockMappingStartToken, KeyToken, ScalarToken(key, true), ValueToken, ScalarToken(value, true),
             BlockEndToken, StreamEndToken]
    ensures TellDocuments([PairDocument(key, value)])
         == [DocumentStart(None, []), MappingStart(None, "", false), ScalarEvent(None, "", key, true, false),
             ScalarEvent(None, "", value, true, false), MappingEnd, DocumentEnd(true), StreamEnd]
  {
    hide Spell, Tell, Good, SpellDocuments, TellDocuments, Sound;
    var d := PairDocument(key, value);
    assert [d][1..] == [] && GoodDocuments([], false);
    OneDocument(d);
    PairIsGood(key, value);
    PairIsSpelled(key, value);
    PairIsTold(key, value, DocumentTags(d));
  }

  /** A stream of a single document without a start indicator and without an end. */
  lemma OneDocument(d: DocumentSyntax)
    requires !d.explicit && d.ends == 0
    ensures SpellDocuments([d]) == Spell(d.root) + [StreamEndToken]
    ensures TellDocuments([d]) == [DocumentStart(None, [])] + (Tell(d.root, DocumentTags(d)) + [DocumentEnd(true), StreamEnd])
  {
    hide Spell, Tell, DocumentTags;
    assert [d][1..] == [];
    assert SpellDocuments([]) == [StreamEndToken] && TellDocuments([]) == [StreamEnd];
    assert SpellDocument(d) == Spell(d.root);
  }

  lemma PairIsGood(key: string, value: string)
    ensures var d := PairDocument(key, value); Good(d.root, DocumentTags(d), true, false, false) && Sound(d.root)
  {
    var d := PairDocument(key, value);
    var e := d.root.entries[0];
    assert Good(e.key, DocumentTags(d), true, true, true) && Good(e.value, DocumentTags(d), true, true, true);
    assert GoodEntry(BlockMap, e, DocumentTags(d));
    assert Sound(e.key) && Sound(e.value) && d.root.entries[1..] == [];
  }

  lemma PairIsSpelled(key: string, value: string)
    ensures Spell(PairDocument(key, value).root)
         == [BlockMappingStartToken, KeyToken, ScalarToken(key, true), ValueToken, ScalarToken(value, true), BlockEndToken]
  {
    var n := PairDocument(key, value).root;
    var e := n.entries[0];
    assert Spell(e.key) == [ScalarToken(key, true)] && Spell(e.value) == [ScalarToken(value, true)];
    assert SpellPair(e) == [KeyToken, ScalarToken(key, true), ValueToken, ScalarToken(value, true)];
    assert n.entries[1..] == [];
    assert SpellEntries(BlockMap, [], false) == [];
    assert SpellEntries(BlockMap, n.entries, true) == SpellPair(e);
  }

  lemma PairIsTold(key: string, value: string, tags: seq<TagDirective>)
    ensures Tell(PairDocument(key, value).root, tags)
         == [MappingStart(None, "", false), ScalarEvent(None, "", key, true, false),
             ScalarEvent(None, "", value, true, false), MappingEnd]
  {
    var n := PairDocument(key, value).root;
    var e := n.entries[0];
    assert Tell(e.key, tags) == [ScalarEvent(None, "", key, true, false)];
    assert Tell(e.value, tags) == [ScalarEvent(None, "", value, true, false)];
    assert n.entries[1..] == [];
    assert TellEntries(BlockMap, [], tags) == [];
    assert TellEntries(BlockMap, n.entries, tags) == TellEntry(BlockMap, e, tags);
  }
}
