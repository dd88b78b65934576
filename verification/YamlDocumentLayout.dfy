/** Whole texts: documents that are well laid out are scanned to the tokens that spell them,
    and so, if they are good and sound, parsed to the events that tell them. */
module YamlDocumentLayout {
  import opened YamlEvents
  import opened YamlTokens
  import opened YamlStep
  import opened YamlGrammar
  import opened YamlSentences
  import opened YamlKeys
  import opened YamlKeysInvariant
  import opened YamlLookahead
  import opened YamlScanSteps
  import opened YamlLayout
  import opened YamlFlowLayout
  import opened YamlBlockLayout
  import YamlExactly

  /** `start`: `---`, and the directives in front of it; `ends`: any number of `...`. */
  datatype DocumentLayout = DocumentLayout(directives: seq<Lexeme>, start: seq<Lexeme>, root: Layout, ends: seq<Lexeme>)

  function Front(d: DocumentLayout): seq<Lexeme> {
    d.directives + d.start
  }

  function DocumentLexemes(d: DocumentLayout): seq<Lexeme> {
    Front(d) + (Lexemes(d.root) + d.ends)
  }

  function TextLexemes(ds: seq<DocumentLayout>): seq<Lexeme> {
    if ds == [] then [] else DocumentLexemes(ds[0]) + TextLexemes(ds[1..])
  }

  function DocumentMeans(d: DocumentLayout): DocumentSyntax {
    DocumentSyntax(d.start != [], KindsOf(d.directives), Means(d.root), |d.ends|)
  }

  function TextMeans(ds: seq<DocumentLayout>): seq<DocumentSyntax> {
    if ds == [] then [] else [DocumentMeans(ds[0])] + TextMeans(ds[1..])
  }

  predicate IsMarker(l: Lexeme) {
    l.what.Directive? || l.what.DocumentMarker?
  }

  /** Only the first document may do without `---`.  Behind `---` a block collection starts on a new line. */
  predicate DocumentWell(d: DocumentLayout, first: bool, mark: Mark) {
    && (forall i | 0 <= i < |d.directives| :: d.directives[i].what.Directive?)
    && AtMost(d.start, DocumentMarker(DocumentStartToken)) && (d.start == [] ==> first && d.directives == [])
    && (forall i | 0 <= i < |d.ends| :: d.ends[i].what == DocumentMarker(DocumentEndToken))
    && BlockWell(d.root, -1, EndMark(mark, Front(d)), d.start == [])
  }

  predicate TextWell(ds: seq<DocumentLayout>, first: bool, mark: Mark)
    decreases |ds|
  {
    ds != [] ==> DocumentWell(ds[0], first, mark) && TextWell(ds[1..], false, EndMark(mark, DocumentLexemes(ds[0])))
  }

  // ------------------------------------------------------------------ markers

  lemma {:induction false} UnrollTwice(s: Scan, column: int)
    requires Levels(s.indents, s.indent) && s.level == 0 && column >= -1
    ensures Unroll(Unroll(s, column), -1) == Unroll(s, -1)
    decreases |s.indents|
  {
    if s.indent > column {
      var last := |s.indents| - 1;
      UnrollTwice(YamlKeys.Push(s, BlockEndToken, s.mark, s.mark).(indent := s.indents[last], indents := s.indents[..last]), column);
    }
  }

  lemma Ground(s: Scan)
    requires Inv(s)
    ensures [-1] <= Stack(s) && (|Stack(s)| > 1 ==> Stack(s)[1] > -1) && Levels(s.indents, s.indent)
  {
    hide KeysPlaced, YamlKeys.InOrder, Nested, Columns;
  }

  /** Stale keys dropped, no level closed yet. */
  lemma Drops(s: Scan, start: Mark) returns (a: Scan)
    requires Inv(s) && s.level == 0 && TopLoose(s) && Reaches(s.mark, start)
    ensures Levels(a.indents, a.indent) && a.level == 0 && a.mark == start && Stack(a) == Stack(s) && a.tokens == s.tokens
    ensures |a.keys| == 1 && !(a.keys[0].possible && a.keys[0].required)
    ensures Settle(s, start) == Good(Unroll(a, start.column))
  {
    hide KeysPlaced, YamlKeys.InOrder, Nested, Columns, Unroll, StaleKeys, Levels, DropIfStale, Timely;
    HasKeys(s);
    LooseIsTimely(s, start);
    StalesOne(s, start);
    a := StaleKeys(Approach(s, start)).scan;
    DroppedIsLoose(s.keys[0], start);
  }

  /** All levels closed, the key given up. */
  lemma ClosesAll(s: Scan, start: Mark) returns (m: Scan, u: Scan)
    requires Inv(s) && s.level == 0 && TopLoose(s) && Reaches(s.mark, start)
    ensures Settle(s, start) == Good(m) && Inv(m) && m.mark == start && m.level == 0 && |m.keys| == 1 && Levels(m.indents, m.indent)
    ensures u == Unroll(m, -1) && Stack(u) == [-1] && Kinds(u.tokens) == Closed(s, [-1]) && u.keys == m.keys && u.level == 0 && u.mark == start
    ensures RemoveKey(u) == Good(u.(keys := [m.keys[0].(possible := false)]))
  {
    hide KeysPlaced, YamlKeys.InOrder, Nested, Columns, Unroll, Settle, Levels, Kinds, Closers, Reaches;
    var a := Drops(s, start);
    Ground(s);
    UnrollTo(a, -1, [-1]);
    UnrollTwice(a, start.column);
    SettleKeeps(s, start);
    m := Settle(s, start).scan;
    u := Unroll(m, -1);
  }

  lemma DroppedIsLoose(k: SimpleKey, start: Mark)
    requires !(k.possible && k.required)
    ensures !(DropIfStale(k, start).possible && DropIfStale(k, start).required)
  {
  }

  ghost predicate OnGround(s: Scan, kinds: seq<TokenKind>) {
    Inv(s) && s.level == 0 && TopFree(s) && Stack(s) == [-1] && Kinds(s.tokens) == kinds
  }

  /** A directive or a document indicator. */
  lemma MarkerFed(s: Scan, l: Lexeme) returns (r: Scan)
    requires Inv(s) && s.level == 0 && TopLoose(s) && Follows(s.mark, l) && l.scans && IsMarker(l)
    ensures Fed(s, [l], r) && r.mark == l.after && [-1] <= Stack(s) && OnGround(r, Closed(s, [-1]) + [KindOf(l)])
  {
    hide KeysPlaced, YamlKeys.InOrder, Nested, Columns, Levels, Settle, Unroll, RemoveKey, Closed;
    Ground(s);
    FetchKeeps(s, l);
    var m, u := ClosesAll(s, l.start);
    r := Fetch(s, l).scan;
    FedOne(s, l, r);
    KindsAdd(u.tokens, [Token(KindOf(l), l.start, l.end)]);
    assert Kinds([Token(KindOf(l), l.start, l.end)]) == [KindOf(l)];
  }

  /** The end of the input. */
  lemma DoneFed(s: Scan, l: Lexeme) returns (r: Scan)
    requires Inv(s) && s.level == 0 && TopLoose(s) && Follows(s.mark, l) && l.what.Done?
    ensures Fetch(s, l) == Good(r) && [-1] <= Stack(s) && Kinds(r.tokens) == Closed(s, [-1]) + [StreamEndToken]
    ensures |r.keys| == 1 && !r.keys[0].possible
  {
    hide KeysPlaced, YamlKeys.InOrder, Nested, Columns, Levels, Settle, Unroll, FetchDone, Closed;
    Ground(s);
    var m, u := ClosesAll(s, l.start);
    r := EndFed(m, u);
    assert FetchAt(m, l) == FetchDone(m);
  }

  lemma EndFed(m: Scan, u: Scan) returns (r: Scan)
    requires Inv(m) && m.level == 0 && |m.keys| == 1 && Levels(m.indents, m.indent) && u == Unroll(m, -1)
    requires RemoveKey(u) == Good(u.(keys := [m.keys[0].(possible := false)]))
    ensures CanFetch(m) && FetchDone(m) == Good(r) && Kinds(r.tokens) == Kinds(u.tokens) + [StreamEndToken]
    ensures |r.keys| == 1 && !r.keys[0].possible
  {
    hide KeysPlaced, YamlKeys.InOrder, Nested, Columns, Levels, Unroll;
    var f := if m.mark.column != 0 then m.mark.(column := 0, line := m.mark.line + 1) else m.mark;
    UnrollElsewhere(m, f);
    var v := Unroll(m.(mark := f), -1);
    r := FetchDone(m).scan;
    KindsAdd(v.tokens, [Token(StreamEndToken, f, f)]);
    assert Kinds([Token(StreamEndToken, f, f)]) == [StreamEndToken];
  }

  /** The place where the levels are closed makes no difference to the kinds of the tokens. */
  lemma {:induction false} UnrollElsewhere(s: Scan, mark: Mark)
    requires Inv(s) && s.level == 0
    ensures var u, v := Unroll(s, -1), Unroll(s.(mark := mark), -1);
      Kinds(u.tokens) == Kinds(v.tokens) && u.keys == v.keys && Levels(s.indents, s.indent)
  {
    Ground(s);
    UnrollTo(s, -1, [-1]);
    UnrollTo(s.(mark := mark), -1, [-1]);
    hide Inv;
  }

  // ---------------------------------------------------------------- documents

  lemma {:induction false} MarkersFed(ls: seq<Lexeme>, s: Scan) returns (r: Scan)
    requires Inv(s) && s.level == 0 && TopLoose(s) && Consecutive(s.mark, ls) && forall i | 0 <= i < |ls| :: IsMarker(ls[i])
    ensures Read(s, ls, [-1], Closed(s, [-1]) + KindsOf(ls), r)
    ensures if ls == [] then r == s else OnGround(r, Closed(s, [-1]) + KindsOf(ls))
    decreases |ls|
  {
    hide Inv, Fed, Read, Closed, Levels, Kinds, Consecutive;
    if ls == [] {
      r := s;
      assert Closed(s, [-1]) + KindsOf(ls) == Closed(s, [-1]);
      StillThere(s);
    } else {
      var l, rest := ls[0], ls[1..];
      ChainFirst(s.mark, ls);
      var m := MarkerFed(s, l);
      r := MarkersFed(rest, m);
      GroundClosed(m);
      assert ls == [l] + rest && KindsOf(ls) == [KindOf(l)] + KindsOf(rest);
      assert Closed(s, [-1]) + [KindOf(l)] + KindsOf(rest) == Closed(s, [-1]) + KindsOf(ls);
      EndOne(s.mark, l);
      ReadOn(s, [l], m, rest, [-1], Closed(s, [-1]) + KindsOf(ls), r);
    }
  }

  lemma GroundClosed(s: Scan)
    requires Stack(s) == [-1]
    ensures Closed(s, [-1]) == Kinds(s.tokens) && s.indent == -1
  {
    assert Stack(s)[|Stack(s)| - 1] == s.indent;
  }

  lemma {:induction false} DocumentFed(d: DocumentLayout, s: Scan, first: bool) returns (r: Scan)
    requires DocumentWell(d, first, s.mark) && Inv(s) && s.level == 0 && TopLoose(s) && Consecutive(s.mark, DocumentLexemes(d))
    requires first ==> s.allowed && OnGround(s, Kinds(s.tokens))
    ensures Read(s, DocumentLexemes(d), [-1], Closed(s, [-1]) + SpellDocument(DocumentMeans(d)), r)
  {
    hide Inv, Fed, Read, Closed, Levels, Kinds, Consecutive, BlockWell, Lexemes, Spell, Means, SpellDocument, DocumentMeans;
    var front, root, ends := Front(d), Lexemes(d.root), d.ends;
    ChainSplit(s.mark, front, root + ends);
    ChainSplit(EndMark(s.mark, front), root, ends);
    FrontMarkers(d, first, s.mark);
    var m := MarkersFed(front, s);
    var k0, k1 := Closed(s, [-1]) + KindsOf(front), Spell(Means(d.root));
    ReadLasts(s, front, [-1], k0, m);
    GroundClosed(m);
    var q := BlockFed(d.root, m, d.start == []);
    ReadLasts(m, root, [-1], k0 + k1, q);
    r := MarkersFed(ends, q);
    ReadOn(m, root, q, ends, [-1], k0 + k1 + KindsOf(ends), r);
    MarkersLast(front);
    NoFrontRead(s, front, m, root + ends, k0 + k1 + KindsOf(ends), r);
    DocumentSpelled(d, first, s.mark);
    assert k0 + k1 + KindsOf(ends) == Closed(s, [-1]) + SpellDocument(DocumentMeans(d));
  }

  lemma {:induction false} NoFrontRead(s: Scan, a: seq<Lexeme>, m: Scan, b: seq<Lexeme>, goal: seq<TokenKind>, r: Scan)
    requires Fed(s, a, m) && m.mark == EndMark(s.mark, a) && Read(m, b, [-1], goal, r) && !Lasts(a)
    ensures Read(s, a + b, [-1], goal, r)
  {
    ReadOn(s, a, m, b, [-1], goal, r);
  }

  lemma {:induction false} FrontMarkers(d: DocumentLayout, first: bool, mark: Mark)
    requires DocumentWell(d, first, mark)
    ensures forall i | 0 <= i < |Front(d)| :: IsMarker(Front(d)[i])
    ensures forall i | 0 <= i < |d.ends| :: IsMarker(d.ends[i])
    ensures Front(d) == [] <==> d.start == []
    ensures Front(d) == [] ==> first
  {
  }

  lemma {:induction false} MarkersLast(ls: seq<Lexeme>)
    requires forall i | 0 <= i < |ls| :: IsMarker(ls[i])
    ensures !Lasts(ls)
  {
  }

  lemma {:induction false} DocumentSpelled(d: DocumentLayout, first: bool, mark: Mark)
    requires DocumentWell(d, first, mark)
    ensures SpellDocument(DocumentMeans(d)) == KindsOf(Front(d)) + (Spell(Means(d.root)) + KindsOf(d.ends))
  {
    hide Spell, Means, BlockWell;
    assert KindsOf(d.ends) == Ends(|d.ends|);
    if d.start != [] {
      assert KindsOf(Front(d)) == KindsOf(d.directives) + [DocumentStartToken];
    }
  }

  /** What is spelled in front of the end of the stream. */
  function AllSpelled(ds: seq<DocumentSyntax>): seq<TokenKind> {
    if ds == [] then [] else SpellDocument(ds[0]) + AllSpelled(ds[1..])
  }

  lemma {:induction false} AllButTheEnd(ds: seq<DocumentSyntax>)
    ensures SpellDocuments(ds) == AllSpelled(ds) + [StreamEndToken]
  {
    hide SpellDocument;
    if ds != [] {
      AllButTheEnd(ds[1..]);
      assert SpellDocument(ds[0]) + (AllSpelled(ds[1..]) + [StreamEndToken]) == AllSpelled(ds) + [StreamEndToken];
    }
  }

  lemma {:induction false} TextFed(ds: seq<DocumentLayout>, s: Scan, first: bool) returns (r: Scan)
    requires TextWell(ds, first, s.mark) && Inv(s) && s.level == 0 && TopLoose(s) && Consecutive(s.mark, TextLexemes(ds))
    requires first ==> s.allowed && OnGround(s, Kinds(s.tokens))
    ensures Read(s, TextLexemes(ds), [-1], Closed(s, [-1]) + AllSpelled(TextMeans(ds)), r)
    ensures ds == [] ==> r == s
    decreases |ds|
  {
    hide Inv, Fed, Read, Closed, Levels, Kinds, DocumentWell, SpellDocument, DocumentMeans, DocumentLexemes, OnGround,
         TextLexemes, TextMeans, AllSpelled, Consecutive;
    TextSplit(ds);
    if ds == [] {
      r := s;
      StillThere(s);
    } else {
      var front, rest := DocumentLexemes(ds[0]), TextLexemes(ds[1..]);
      var k, more := SpellDocument(DocumentMeans(ds[0])), AllSpelled(TextMeans(ds[1..]));
      ChainSplit(s.mark, front, rest);
      var m := DocumentFed(ds[0], s, first);
      ReadLasts(s, front, [-1], Closed(s, [-1]) + k, m);
      r := TextFed(ds[1..], m, false);
      assert Closed(s, [-1]) + k + more == Closed(s, [-1]) + (k + more);
      RestHasLexemes(ds[1..], m.mark);
      ReadOn(s, front, m, rest, [-1], Closed(s, [-1]) + (k + more), r);
    }
  }

  lemma {:induction false} TextSplit(ds: seq<DocumentLayout>)
    ensures ds == [] ==> TextLexemes(ds) == [] && AllSpelled(TextMeans(ds)) == [] && forall k: seq<TokenKind> :: k + AllSpelled(TextMeans(ds)) == k
    ensures ds != [] ==> TextLexemes(ds) == DocumentLexemes(ds[0]) + TextLexemes(ds[1..])
    ensures ds != [] ==> AllSpelled(TextMeans(ds)) == SpellDocument(DocumentMeans(ds[0])) + AllSpelled(TextMeans(ds[1..]))
  {
    hide DocumentLexemes, SpellDocument, DocumentMeans;
    if ds != [] {
      assert TextMeans(ds)[1..] == TextMeans(ds[1..]);
    }
  }

  lemma StillThere(s: Scan)
    requires Inv(s) && s.level == 0 && TopLoose(s)
    ensures Read(s, [], [-1], Closed(s, [-1]), s)
  {
    Ground(s);
    hide Inv, Closed, Levels;
  }

  lemma {:induction false} RestHasLexemes(ds: seq<DocumentLayout>, mark: Mark)
    requires TextWell(ds, false, mark)
    ensures ds != [] ==> TextLexemes(ds) != []
  {
    hide BlockWell, Lexemes;
  }

  // --------------------------------------------------------------- main results

  lemma {:induction false} ChainIsText(mark: Mark, ls: seq<Lexeme>, done: Lexeme)
    requires Consecutive(mark, ls) && Follows(EndMark(mark, ls), done) && done.what.Done?
    ensures Text(mark, ls + [done])
    decreases |ls|
  {
    hide Follows;
    if ls == [] {
      assert ls + [done] == [done];
    } else {
      assert (ls + [done])[1..] == ls[1..] + [done];
      ChainIsText(ls[0].after, ls[1..], done);
    }
  }

  lemma {:induction false} FedThenAll(s: Scan, ls: seq<Lexeme>, m: Scan, done: Lexeme, r: Scan)
    requires Inv(s) && Fed(s, ls, m) && Text(s.mark, ls + [done]) && done.what.Done?
    requires Inv(m) && Follows(m.mark, done) && Fetch(m, done) == Good(r)
    ensures FetchAll(s, ls + [done]) == Good(r)
    decreases |ls|
  {
    hide KeysPlaced, YamlKeys.InOrder, Nested, Columns, Levels, Fetch, Follows;
    if ls == [] {
      assert ls + [done] == [done];
    } else {
      var all := ls + [done];
      assert all[0] == ls[0] && all[1..] == ls[1..] + [done];
      FetchKeeps(s, ls[0]);
      FetchMoves(s, ls[0]);
      FedThenAll(Fetch(s, ls[0]).scan, ls[1..], m, done, r);
    }
  }

  /** A text that is well laid out, up to the end of the input. */
  predicate LaidOut(start: Mark, ds: seq<DocumentLayout>, done: Lexeme) {
    && TextWell(ds, true, start) && Consecutive(start, TextLexemes(ds))
    && Follows(EndMark(start, TextLexemes(ds)), done) && done.what.Done?
  }

  /** No key is left that its `:` might still come to. */
  predicate KeysSpent(s: Scan) {
    forall i | 0 <= i < |s.keys| :: !s.keys[i].possible
  }

  lemma OneSpent(s: Scan)
    requires |s.keys| == 1 && !s.keys[0].possible
    ensures KeysSpent(s)
  {
  }

  /** A text that is well laid out is scanned, and to just the tokens that spell its documents. */
  lemma {:induction false} LaidOutIsSpelled(start: Mark, ds: seq<DocumentLayout>, done: Lexeme)
    requires LaidOut(start, ds, done)
    ensures Text(start, TextLexemes(ds) + [done])
    ensures var r := Tokenised(start, TextLexemes(ds) + [done]);
      r.Good? && Kinds(r.scan.tokens) == [StreamStartToken] + SpellDocuments(TextMeans(ds)) && KeysSpent(r.scan)
  {
    hide KeysSpent, Kinds, TextWell, Consecutive, Follows, SpellDocuments, AllSpelled, Text, Fetch, Fed, Inv, OnGround, Closed,
         TextLexemes, TextMeans, FetchAll;
    ChainIsText(start, TextLexemes(ds), done);
    StartInv(start);
    var s := YamlKeys.Start(start);
    StartOnGround(start);
    var m := TextFed(ds, s, true);
    var spelled := AllSpelled(TextMeans(ds));
    ReadLasts(s, TextLexemes(ds), [-1], Closed(s, [-1]) + spelled, m);
    var r := DoneFed(m, done);
    OneSpent(r);
    FedThenAll(s, TextLexemes(ds), m, done, r);
    AllButTheEnd(TextMeans(ds));
    assert [StreamStartToken] + spelled + [StreamEndToken] == [StreamStartToken] + (spelled + [StreamEndToken]);
  }

  lemma StartOnGround(start: Mark)
    ensures var s := YamlKeys.Start(start);
      Inv(s) && OnGround(s, Kinds(s.tokens)) && s.allowed && Closed(s, [-1]) == [StreamStartToken] && TopLoose(s) && s.mark == start
  {
    StartInv(start);
    hide Inv;
    assert Stack(YamlKeys.Start(start)) == [-1];
    GroundClosed(YamlKeys.Start(start));
  }

  lemma {:induction false} KindsLie(tokens: seq<Token>, ks: seq<TokenKind>)
    requires Kinds(tokens) == ks
    ensures Lies(tokens, 0, ks)
  {
    forall i | 0 <= i < |ks| ensures tokens[0 + i].kind == ks[i] {
      assert Kinds(tokens)[i] == tokens[i].kind;
    }
  }

  /** And if what it means is good, it is parsed to the end just if that is sound, and then to the events
      that tell its documents. */
  lemma {:induction false} LaidOutIsParsed(start: Mark, ds: seq<DocumentLayout>, done: Lexeme)
    requires LaidOut(start, ds, done) && GoodDocuments(TextMeans(ds), true)
    ensures Text(start, TextLexemes(ds) + [done]) && Tokenised(start, TextLexemes(ds) + [done]).Good?
    ensures var tokens := Tokenised(start, TextLexemes(ds) + [done]).scan.tokens;
      && (YamlExactly.Parsed(tokens) <==> SoundDocuments(TextMeans(ds)))
      && forall es, d :: Runs(tokens, YamlSentences.Start, es, d) && d.state.EndState? ==> es == [StreamStart] + TellDocuments(TextMeans(ds))
  {
    hide LaidOut, GoodDocuments, SoundDocuments, SpellDocuments, TellDocuments, Runs, Text, Lies, YamlExactly.Parsed;
    LaidOutIsSpelled(start, ds, done);
    var tokens := Tokenised(start, TextLexemes(ds) + [done]).scan.tokens;
    KindsLie(tokens, [StreamStartToken] + SpellDocuments(TextMeans(ds)));
    YamlExactly.ParsedExactly(tokens, TextMeans(ds));
  }

  // ------------------------------------------------------------------ one text

  function At(i: nat): Mark {
    Mark(i, 0, i)
  }

  const DASH := Lexeme(Dash, Mark(0, 0, 0), Mark(1, 0, 1), Mark(1, 0, 1), true)
  const END := Lexeme(Done, Mark(3, 0, 3), Mark(3, 0, 3), Mark(3, 0, 3), true)

  function Word(a: string): Lexeme {
    Lexeme(Plain(ScalarToken(a, true), false), At(2), At(3), At(3), true)
  }

  function DashItem(a: string): Item {
    Item([DASH], [], Layout.Leaf([], [Word(a)]), [], Gone)
  }

  function DashText(a: string): DocumentLayout {
    DocumentLayout([], [], Block([], BlockSeq, [DashItem(a)]), [])
  }

  lemma {:induction false} DashLexed(a: string)
    ensures Lexemes(DashText(a).root) == [DASH, Word(a)] && ItemLexemes(DashItem(a)) == [DASH, Word(a)]
    ensures TextLexemes([DashText(a)]) == [DASH, Word(a)] && DocumentLexemes(DashText(a)) == [DASH, Word(a)]
  {
    var it := DashItem(a);
    assert Lexemes(it.key) == [Word(a)];
    assert Lexemes(it.value) == [] && ItemLexemes(it) == [DASH, Word(a)];
    assert [it][1..] == [] && AllLexemes([it][1..]) == [] && AllLexemes([it]) == [DASH, Word(a)];
    assert DocumentLexemes(DashText(a)) == [DASH, Word(a)];
    assert [DashText(a)][1..] == [];
  }

  lemma {:induction false} DashLaidOut(a: string)
    ensures TextLexemes([DashText(a)]) == [DASH, Word(a)] && LaidOut(At(0), [DashText(a)], END)
  {
    DashLexed(a);
    DashWell(a);
    hide BlockWell, Lexemes, TextLexemes, DocumentLexemes;
    assert [DASH, Word(a)][1..] == [Word(a)] && [Word(a)][1..] == [];
    assert Consecutive(DASH.after, [Word(a)]);
    assert Consecutive(At(0), [DASH, Word(a)]);
    NoMoreItems(EndMark(At(0), [DASH, Word(a)]));
    assert DocumentWell(DashText(a), true, At(0));
    assert [DashText(a)][1..] == [] && [DashText(a)][0] == DashText(a);
    assert TextWell([DashText(a)], true, At(0));
    assert EndMark(At(0), [DASH, Word(a)]) == At(3);
    assert Follows(At(3), END);
  }

  lemma {:induction false} DashWell(a: string)
    ensures BlockWell(DashText(a).root, -1, At(0), true)
  {
    DashLexed(a);
    var it := DashItem(a);
    NoMoreItems(EndMark(At(0), [DASH, Word(a)]));
    assert BlockItemWell(BlockSeq, it, 0, At(0), true);
    hide BlockItemWell, ItemLexemes, Lexemes;
    assert [it][1..] == [];
    assert BlockItemsWell(BlockSeq, [it], 0, At(0), true);
  }

  lemma NoMoreItems(mark: Mark)
    ensures forall free, c :: BlockItemsWell(BlockSeq, [], c, mark, free)
    ensures forall first :: TextWell([], first, mark)
  {
  }

  lemma {:induction false} DashSpelled(a: string)
    ensures SpellDocuments(TextMeans([DashText(a)])) == [BlockSequenceStartToken, BlockEntryToken, ScalarToken(a, true), BlockEndToken, StreamEndToken]
  {
    var it := DashItem(a);
    var e := ItemMeans(BlockSeq, it);
    assert [it][1..] == [] && AllMean(BlockSeq, [it]) == [e] && [e][1..] == [];
    assert KindOf(Word(a)) == ScalarToken(a, true) && it.key == Layout.Leaf([], [Word(a)]);
    assert Means(it.key) == Syntax.Scalar(PropsOf([]), a, true) && SpellProps(PropsOf([])) == [];
    assert Spell(e.key) == [ScalarToken(a, true)];
    assert SpellEntries(BlockSeq, [e], true) == [BlockEntryToken, ScalarToken(a, true)];
    var root := Means(DashText(a).root);
    assert SpellProps(root.props) == [];
    assert Spell(root) == [BlockSequenceStartToken, BlockEntryToken, ScalarToken(a, true), BlockEndToken];
    hide Spell, Means;
    var d := DocumentMeans(DashText(a));
    assert SpellDocument(d) == Spell(root);
    assert [DashText(a)][1..] == [] && TextMeans([DashText(a)]) == [d] && [d][1..] == [];
  }

  /** `- a`, to its end, is a sequence of one scalar. */
  lemma {:induction false} DashIsSequence(a: string)
    ensures Text(At(0), [DASH, Word(a), END])
    ensures var r := Tokenised(At(0), [DASH, Word(a), END]);
      && r.Good?
      && Kinds(r.scan.tokens) == [StreamStartToken, BlockSequenceStartToken, BlockEntryToken, ScalarToken(a, true), BlockEndToken, StreamEndToken]
  {
    hide LaidOut, TextLexemes, SpellDocuments, TextMeans;
    DashLaidOut(a);
    DashSpelled(a);
    LaidOutIsSpelled(At(0), [DashText(a)], END);
    assert [DASH, Word(a)] + [END] == [DASH, Word(a), END];
  }
}