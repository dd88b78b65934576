/** Scanner, parser and tree builder together, on texts that are well laid out. */
module YamlLoadText {
  import opened YamlEvents
  import opened YamlTokens
  import opened YamlKeys
  import opened YamlKeysInvariant
  import opened YamlLookahead
  import opened YamlTokenScanner
  import opened YamlLayout
  import opened YamlDocumentLayout
  import opened YamlBuilder
  import YamlLoad
  import S = YamlSentences
  import T = YamlTrees

  /** From a text that is well laid out, and means good and sound documents, the tree of the first is loaded. */
  method LoadText(start: Mark, lexemes: seq<Lexeme>, ghost ds: seq<DocumentLayout>, ghost done: Lexeme)
    returns (ok: bool, n: Option<Node>)
    requires LaidOut(start, ds, done) && lexemes == TextLexemes(ds) + [done]
    requires S.GoodDocuments(TextMeans(ds), true) && S.SoundDocuments(TextMeans(ds))
    ensures ok && n == FirstNode(T.DocumentsOf(TextMeans(ds)))
  {
    hide LaidOut, TextLexemes, TextMeans, Text, S.GoodDocuments, S.SoundDocuments, S.SpellDocuments, FirstNode, YamlLoad.Loaded,
         Kinds, Tokenised, Sealed, Inner, Depth, Balanced, YamlLoad.IsSentence, KeysSpent;
    LaidOutIsSpelled(start, ds, done);
    SpentCompletes(Tokenised(start, lexemes));
    var scanned, panicked, tokens := ScanTokens(start, lexemes);
    ScannedIsSentence(tokens, TextMeans(ds));
    ok, n := YamlLoad.Load(tokens);
  }

  lemma SpentCompletes(r: Result)
    requires r.Good? && KeysSpent(r.scan)
    ensures Scanner.Completes(r)
  {
  }

  lemma {:induction false} ScannedIsSentence(tokens: seq<Token>, ds: seq<S.DocumentSyntax>)
    requires Kinds(tokens) == [StreamStartToken] + S.SpellDocuments(ds) && S.GoodDocuments(ds, true)
    ensures YamlLoad.IsSentence(tokens, ds)
  {
    hide S.SpellDocuments, S.GoodDocuments;
    KindsLie(tokens, [StreamStartToken] + S.SpellDocuments(ds));
  }
}
