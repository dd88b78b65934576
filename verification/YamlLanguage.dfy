/** The language of the parser: the token sequences it takes without consuming a token wrongly
    for a missing key are just the sound sentences of the grammar. */
module YamlLanguage {
  import opened YamlEvents
  import opened YamlTokens
  import opened YamlStep
  import opened YamlGrammar
  import opened YamlKeyless
  import opened YamlBrackets
  import opened YamlSentences
  import opened YamlExactly
  import opened YamlConverse

  // --------------------------- tokens that never stand side by side in a sentence

  predicate Loose(k: TokenKind) {
    k.ValueToken? || k.FlowEntryToken?
  }

  predicate Clash(a: TokenKind, b: TokenKind) {
    (b.ValueToken? && Loose(a)) || (a.FlowEntryToken? && b.FlowEntryToken?)
  }

  predicate Apart(ks: seq<TokenKind>) {
    forall i | 0 <= i < |ks| - 1 :: !Clash(ks[i], ks[i + 1])
  }

  predicate Solid(ks: seq<TokenKind>) {
    Apart(ks) && (ks != [] ==> !Loose(ks[0]) && !Loose(Last(ks)))
  }

  lemma {:induction false} ApartAdds(a: seq<TokenKind>, b: seq<TokenKind>)
    requires Apart(a) && Apart(b) && (a != [] && b != [] ==> !Clash(Last(a), b[0]))
    ensures Apart(a + b)
    ensures a != [] ==> (a + b)[0] == a[0]
    ensures b != [] ==> Last(a + b) == Last(b)
    ensures a == [] ==> a + b == b
    ensures b == [] ==> a + b == a
  {
    forall i | 0 <= i < |a + b| - 1 ensures !Clash((a + b)[i], (a + b)[i + 1]) {
      if i >= |a| {
        assert !Clash(b[i - |a|], b[i - |a| + 1]);
      }
    }
  }

  lemma {:induction false} SolidAdds(a: seq<TokenKind>, b: seq<TokenKind>)
    requires Solid(a) && Solid(b)
    ensures Solid(a + b)
  {
    ApartAdds(a, b);
  }

  lemma {:induction false} PlainSolid(ks: seq<TokenKind>)
    requires forall i | 0 <= i < |ks| :: !Loose(ks[i])
    ensures Solid(ks)
  {
  }

  lemma {:induction false} NodeSolid(n: Syntax, tags: seq<TagDirective>, block: bool, indentless: bool)
    requires Good(n, tags, block, indentless, true) && Sound(n)
    ensures Solid(Spell(n))
    decreases n, 1
  {
    hide Solid;
    match n
    case Absent => PlainSolid([]);
    case Alias(name) => PlainSolid([AliasToken(name)]);
    case Bare(p) => PlainSolid(SpellProps(p));
    case Scalar(p, v, plain) =>
      PlainSolid(SpellProps(p));
      PlainSolid([ScalarToken(v, plain)]);
      SolidAdds(SpellProps(p), [ScalarToken(v, plain)]);
    case Collection(p, s, entries, trailing) =>
      PlainSolid(SpellProps(p));
      PlainSolid(Opening(s));
      RestApart(s, entries, true, trailing, tags);
      CollectionSpelled(n);
      FramedSolid(s, entries, trailing);
      SolidAdds(SpellProps(p), Opening(s) + Body(n));
  }

  lemma {:induction false} FramedSolid(s: Style, es: seq<Entry>, trailing: bool)
    requires var r := Rest(s, es, true, trailing); Apart(r) && r != [] && !Loose(r[0]) && !Loose(Last(r))
    ensures Solid(Opening(s) + Rest(s, es, true, trailing))
  {
    hide Rest, Loose;
    PlainSolid(Opening(s)) by {
      assert forall i | 0 <= i < |Opening(s)| :: !Loose(Opening(s)[i]) by { OpeningFirm(s); }
    }
    SolidAdds(Opening(s), Rest(s, es, true, trailing));
  }

  lemma OpeningFirm(s: Style)
    ensures forall i | 0 <= i < |Opening(s)| :: !Loose(Opening(s)[i])
  {
  }

  /** The entries from some point on, and the end of the collection. */
  lemma {:induction false} RestApart(s: Style, es: seq<Entry>, first: bool, trailing: bool, tags: seq<TagDirective>)
    requires (forall i | 0 <= i < |es| :: GoodEntry(s, es[i], tags)) && SoundEntries(s, es, trailing)
    requires trailing ==> (s.FlowSeq? || s.FlowMap?) && (first ==> es != [])
    ensures var r := Rest(s, es, first, trailing);
      && Apart(r) && (r != [] ==> !r[0].ValueToken? && !Loose(Last(r)))
      && ((es == [] && s.Indentless?) || r != [])
      && (first && r != [] ==> !Loose(r[0]))
    decreases es, 0
  {
    hide GoodEntry, SpellEntry, Rest, SoundEntry, Apart;
    if es == [] {
      NoEntries(s, first, trailing);
      TailApart(s, trailing);
    } else {
      assert SoundEntry(s, es[0], trailing && |es| == 1);
      EntryApart(s, es[0], first, trailing && |es| == 1, tags);
      RestApart(s, es[1..], false, trailing, tags);
      RestSplit(s, es, first, trailing);
      ApartAdds(SpellEntry(s, es[0], first), Rest(s, es[1..], false, trailing));
    }
  }

  lemma {:induction false} TailApart(s: Style, trailing: bool)
    requires trailing ==> s.FlowSeq? || s.FlowMap?
    ensures var r := Tail(s, trailing);
      && Apart(r) && (r != [] ==> !r[0].ValueToken? && !Loose(Last(r))) && (s.Indentless? || r != [])
      && (!trailing && r != [] ==> !Loose(r[0]))
  {
  }

  lemma {:induction false} EntryApart(s: Style, e: Entry, first: bool, closing: bool, tags: seq<TagDirective>)
    requires GoodEntry(s, e, tags) && SoundEntry(s, e, closing)
    ensures var r := SpellEntry(s, e, first);
      && r != [] && Apart(r) && !r[0].ValueToken? && !Last(r).FlowEntryToken?
      && (first || s.BlockSeq? || s.Indentless? || s.BlockMap? ==> !Loose(r[0]))
      && (s.BlockSeq? || s.Indentless? ==> !Loose(Last(r)))
    decreases e, 1
  {
    hide Spell, Good, Sound, SpellPair, Apart;
    var block := s.BlockSeq? || s.Indentless? || s.BlockMap?;
    NodeSolid(e.key, tags, block, s.BlockMap?) by { KeyIsGood(s, e, tags); }
    if s.BlockSeq? || s.Indentless? {
      PlainSolid([BlockEntryToken]);
      SolidAdds([BlockEntryToken], Spell(e.key));
    } else {
      var comma: seq<TokenKind> := if first then [] else [FlowEntryToken];
      PairApart(s, e, tags);
      if s.BlockMap? {
      } else if e.keyed {
        CommaApart(comma);
        ApartAdds(comma, SpellPair(e));
      } else {
        GoodMeansPresent(e.key, tags);
        FirstToken(e.key, tags, false, false);
        CommaApart(comma);
        ApartAdds(comma, Spell(e.key));
      }
    }
  }

  lemma CommaApart(comma: seq<TokenKind>)
    requires |comma| <= 1
    ensures Apart(comma)
  {
  }

  lemma KeyIsGood(s: Style, e: Entry, tags: seq<TagDirective>)
    requires GoodEntry(s, e, tags)
    ensures Good(e.key, tags, s.BlockSeq? || s.Indentless? || s.BlockMap?, s.BlockMap?, true)
    ensures Good(e.value, tags, s.BlockMap?, s.BlockMap?, true)
  {
  }

  lemma {:induction false} PairApart(s: Style, e: Entry, tags: seq<TagDirective>)
    requires GoodEntry(s, e, tags) && Sound(e.key) && Sound(e.value)
    ensures var r := SpellPair(e); r != [] && Apart(r) && r[0].KeyToken? && !Last(r).FlowEntryToken?
    decreases e, 0
  {
    hide Spell, Good, Sound, GoodEntry, Apart;
    KeyIsGood(s, e, tags);
    NodeSolid(e.key, tags, s.BlockSeq? || s.Indentless? || s.BlockMap?, s.BlockMap?);
    NodeSolid(e.value, tags, s.BlockMap?, s.BlockMap?);
    CommaApart([]);
    CommaApart([ValueToken]);
    CommaApart([KeyToken]);
    ApartAdds([ValueToken], Spell(e.value));
    ApartAdds([KeyToken], Spell(e.key));
    ApartAdds([KeyToken] + Spell(e.key), SpellValue(e));
    assert SpellPair(e) == [KeyToken] + Spell(e.key) + SpellValue(e);
  }

  lemma {:induction false} DocumentSolid(d: DocumentSyntax, first: bool)
    requires GoodDocument(d, first) && Sound(d.root)
    ensures Solid(SpellDocument(d))
  {
    hide Spell, Good, Solid;
    var head := if d.explicit then d.directives + [DocumentStartToken] else [];
    NodeSolid(d.root, DocumentTags(d), true, false) by { RootIsGood(d, first); }
    PlainSolid(Ends(d.ends));
    PlainSolid(head);
    SolidAdds(Spell(d.root), Ends(d.ends));
    SolidAdds(head, Spell(d.root) + Ends(d.ends));
  }

  lemma RootIsGood(d: DocumentSyntax, first: bool)
    requires GoodDocument(d, first)
    ensures Good(d.root, DocumentTags(d), true, false, true)
  {
  }

  lemma {:induction false} DocumentsSolid(ds: seq<DocumentSyntax>, first: bool)
    requires GoodDocuments(ds, first) && SoundDocuments(ds)
    ensures Solid(SpellDocuments(ds)) && SpellDocuments(ds) != [] && Last(SpellDocuments(ds)) == StreamEndToken
    decreases |ds|
  {
    hide SpellDocument, GoodDocument, Sound;
    if ds == [] {
      PlainSolid([StreamEndToken]);
    } else {
      DocumentSolid(ds[0], first);
      DocumentsSolid(ds[1..], false);
      SolidAdds(SpellDocument(ds[0]), SpellDocuments(ds[1..]));
      ApartAdds(SpellDocument(ds[0]), SpellDocuments(ds[1..]));
    }
  }

  // -------------------------------------------------- runs of sentences are tidy

  /** Where a sentence is parsed to its end no token is wrongly consumed for a missing key. */
  lemma {:induction false} NothingHarms(tokens: seq<Token>, ds: seq<DocumentSyntax>, front: seq<Event>, c: Config, rest: seq<Event>, e: Config)
    requires GoodDocuments(ds, true) && SoundDocuments(ds) && Lies(tokens, 0, [StreamStartToken] + SpellDocuments(ds))
    requires Runs(tokens, Start, front, c) && Runs(tokens, c, rest, e) && e.state.EndState?
    ensures !Harms(tokens, c)
  {
    hide SpellDocuments, SoundDocuments, GoodDocuments, Doomed, Runs, Lies, Debt, Solid, Apart;
    if Harms(tokens, c) {
      RunsThenRuns(tokens, Start, front, c, rest, e);
      NotDoomed(tokens, ds, front + rest, e);
      if NotLost(tokens, c) {
        NothingYet(tokens);
        RunKeeps(tokens, Start, front, c);
        DocumentsSolid(ds, true);
        InsideSentence(tokens, SpellDocuments(ds), c);
      } else {
        LostIsDoomed(tokens, c);
        RunsIntoDoom(tokens, Start, front, c);
      }
    }
  }

  /** What follows the token consumed could still belong to a pair. */
  predicate NotLost(tokens: seq<Token>, c: Config) {
    c.pos + 1 < |tokens| && Clash(tokens[c.pos].kind, tokens[c.pos + 1].kind)
  }

  lemma LostIsDoomed(tokens: seq<Token>, c: Config)
    requires Harms(tokens, c) && !NotLost(tokens, c)
    ensures Doomed(tokens, c)
  {
    hide Doomed, Step, Runs, Dead;
    if tokens[c.pos].kind.FlowSequenceEndToken? {
      assert Dead(tokens, c) by { DeadAtBracket(tokens, c); }
      DeadIsDoomed(tokens, c);
    } else if c.pos + 1 < |tokens| {
      PairIsLost(tokens, c);
    } else {
      PairSwallows(tokens, c);
      var d := c.(pos := c.pos + 1, state := FlowSequenceEntryMappingValue);
      NothingLeft(tokens, d);
      StepDooms(tokens, d);
      StepDooms(tokens, c);
    }
  }

  lemma NothingLeft(tokens: seq<Token>, d: Config)
    requires d.state.FlowSequenceEntryMappingValue? && d.pos >= |tokens|
    ensures Step(tokens, d).Error?
  {
  }

  lemma {:induction false} InsideSentence(tokens: seq<Token>, ks: seq<TokenKind>, c: Config)
    requires Lies(tokens, 0, [StreamStartToken] + ks) && Solid(ks) && ks != [] && Last(ks) == StreamEndToken
    requires Upright(tokens, c) && !c.state.EndState? && c.pos + 1 < |tokens| && Loose(tokens[c.pos].kind)
    ensures !Clash(tokens[c.pos].kind, tokens[c.pos + 1].kind)
  {
    var all := [StreamStartToken] + ks;
    assert all[|ks|] == StreamEndToken;
    assert tokens[0 + |ks|].kind == all[|ks|];
    assert c.pos < |ks|;
    assert tokens[0 + c.pos].kind == all[c.pos] && tokens[0 + (c.pos + 1)].kind == all[c.pos + 1];
    if c.pos > 0 {
      assert all[c.pos] == ks[c.pos - 1] && all[c.pos + 1] == ks[c.pos - 1 + 1];
    }
  }

  lemma {:induction false} RunIsTidy(tokens: seq<Token>, ds: seq<DocumentSyntax>, front: seq<Event>, c: Config, rest: seq<Event>, e: Config)
    requires GoodDocuments(ds, true) && SoundDocuments(ds) && Lies(tokens, 0, [StreamStartToken] + SpellDocuments(ds))
    requires Runs(tokens, Start, front, c) && Runs(tokens, c, rest, e) && e.state.EndState?
    ensures Tidy(tokens, c, rest, e)
    decreases |rest|
  {
    hide SpellDocuments, SoundDocuments, GoodDocuments, Lies, Harms, Step;
    if rest != [] {
      NothingHarms(tokens, ds, front, c, rest, e);
      var o := Step(tokens, c);
      RunsThenStep(tokens, Start, front, c);
      RunIsTidy(tokens, ds, front + [o.event], o.next, rest[1..], e);
    }
  }

  ghost predicate IsSentence(tokens: seq<Token>, ds: seq<DocumentSyntax>) {
    GoodDocuments(ds, true) && SoundDocuments(ds) && Lies(tokens, 0, [StreamStartToken] + SpellDocuments(ds))
  }

  /** For all tokens: the parser comes to the end of the stream, consuming no token wrongly for a
      missing key, if and only if the tokens are a sound sentence of the grammar. */
  lemma SentencesExactly(tokens: seq<Token>)
    ensures (exists es :: Completes(tokens, Start, es)) <==> (exists ds :: IsSentence(tokens, ds))
  {
    hide SpellDocuments, SoundDocuments, GoodDocuments, Lies, Runs, Tidy;
    if es :| Completes(tokens, Start, es) {
      var ds := TidyIsSentence(tokens, es);
      assert IsSentence(tokens, ds);
    }
    if ds :| IsSentence(tokens, ds) {
      StreamRuns(tokens, ds);
      var es, e := [StreamStart] + TellDocuments(ds), Config(1 + |SpellDocuments(ds)|, EndState, [], []);
      assert Runs(tokens, Start, [], Start) by { RunsNowhere(tokens); }
      RunIsTidy(tokens, ds, [], Start, es, e);
      assert Completes(tokens, Start, es);
    }
  }

  lemma RunsNowhere(tokens: seq<Token>)
    ensures Runs(tokens, Start, [], Start)
  {
  }
}
