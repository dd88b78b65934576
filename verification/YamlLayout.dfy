/** How nodes are laid out in a text: the lexemes of a node in their order, and the syntax they
    stand for.  `YamlFlowLayout` and `YamlBlockLayout` show that what is well laid out is scanned
    to the tokens that spell that syntax. */
module YamlLayout {
  import opened YamlEvents
  import opened YamlTokens
  import opened YamlStep
  import opened YamlGrammar
  import opened YamlKeys
  import opened YamlKeysInvariant

  /** A node with its lexemes.  `Gone` is the empty place of a node that is left out. */
  datatype Layout =
    | Gone
    | Leaf(props: seq<Lexeme>, content: seq<Lexeme>)
    | Flow(props: seq<Lexeme>, opener: Lexeme, items: seq<Item>, comma: seq<Lexeme>, closer: Lexeme)
    | Block(props: seq<Lexeme>, style: Style, items: seq<Item>)

  /** `lead`: the comma or the dash in front; `asks`: `?`; `colon`: `:`. */
  datatype Item = Item(lead: seq<Lexeme>, asks: seq<Lexeme>, key: Layout, colon: seq<Lexeme>, value: Layout)

  function Lexemes(n: Layout): seq<Lexeme>
    decreases n, 0
  {
    match n
    case Gone => []
    case Leaf(props, content) => props + content
    case Flow(props, opener, items, comma, closer) => props + ([opener] + (AllLexemes(items) + (comma + [closer])))
    case Block(props, _, items) => props + AllLexemes(items)
  }

  function AllLexemes(items: seq<Item>): seq<Lexeme>
    decreases items, 2
  {
    if items == [] then [] else ItemLexemes(items[0]) + AllLexemes(items[1..])
  }

  function ItemLexemes(it: Item): seq<Lexeme>
    decreases it, 1
  {
    it.lead + (it.asks + (Lexemes(it.key) + (it.colon + Lexemes(it.value))))
  }

  // ------------------------------------------------------------ what it means

  /** The token of a lexeme. */
  function KindOf(l: Lexeme): TokenKind {
    match l.what
    case Done => StreamEndToken
    case Directive(k) => k
    case DocumentMarker(k) => k
    case FlowOpen(k) => k
    case FlowClose(k) => k
    case Comma => FlowEntryToken
    case Dash => BlockEntryToken
    case Question => KeyToken
    case Colon => ValueToken
    case Property(k) => k
    case Quoted(k) => k
    case Plain(k, _) => k
    case BlockText(k) => k
    case Nothing => StreamEndToken
  }

  function KindsOf(ls: seq<Lexeme>): (r: seq<TokenKind>)
    ensures |r| == |ls|
  {
    seq(|ls|, i requires 0 <= i < |ls| => KindOf(ls[i]))
  }

  function PropsOf(ls: seq<Lexeme>): Props {
    var a := if ls == [] then None else if KindOf(ls[0]).AnchorToken? then Some(KindOf(ls[0]).name)
             else if |ls| == 2 && KindOf(ls[1]).AnchorToken? then Some(KindOf(ls[1]).name) else None;
    var t := if ls == [] then None else if KindOf(ls[0]).TagToken? then Some((KindOf(ls[0]).tagHandle, KindOf(ls[0]).suffix))
             else if |ls| == 2 && KindOf(ls[1]).TagToken? then Some((KindOf(ls[1]).tagHandle, KindOf(ls[1]).suffix)) else None;
    Props(a, t, ls != [] && KindOf(ls[0]).AnchorToken?)
  }

  predicate IsAnchor(l: Lexeme) {
    l.what.Property? && l.what.kind.AnchorToken?
  }

  predicate IsTag(l: Lexeme) {
    l.what.Property? && l.what.kind.TagToken?
  }

  /** An anchor, a tag, or both in either order. */
  predicate WellProps(ls: seq<Lexeme>) {
    || ls == []
    || (|ls| == 1 && (IsAnchor(ls[0]) || IsTag(ls[0])))
    || (|ls| == 2 && ((IsAnchor(ls[0]) && IsTag(ls[1])) || (IsTag(ls[0]) && IsAnchor(ls[1]))))
  }

  lemma {:induction false} PropsSpelled(ls: seq<Lexeme>)
    requires WellProps(ls)
    ensures SpellProps(PropsOf(ls)) == KindsOf(ls)
  {
  }

  function Means(n: Layout): Syntax
    decreases n, 0
  {
    match n
    case Gone => Absent
    case Leaf(props, content) =>
      if content == [] then Bare(PropsOf(props))
      else
        (match KindOf(content[0])
         case AliasToken(name) => Syntax.Alias(name)
         case ScalarToken(v, plain) => Syntax.Scalar(PropsOf(props), v, plain)
         case _ => Absent)
    case Flow(props, opener, items, comma, _) =>
      Collection(PropsOf(props), FlowStyle(opener), AllMean(FlowStyle(opener), items), comma != [])
    case Block(props, style, items) => Collection(PropsOf(props), style, AllMean(style, items), false)
  }

  function FlowStyle(opener: Lexeme): Style {
    if KindOf(opener).FlowSequenceStartToken? then FlowSeq else FlowMap
  }

  function AllMean(s: Style, items: seq<Item>): seq<Entry>
    decreases items, 2
  {
    if items == [] then [] else [ItemMeans(s, items[0])] + AllMean(s, items[1..])
  }

  function ItemMeans(s: Style, it: Item): Entry
    decreases it, 1
  {
    Entry(it.asks != [] || it.colon != [], Means(it.key), it.colon != [], Means(it.value))
  }

  // ------------------------------------------------------------ well laid out

  /** The lexemes follow each other in the text, and all can be scanned. */
  predicate Consecutive(mark: Mark, ls: seq<Lexeme>)
    decreases |ls|
  {
    ls != [] ==> Follows(mark, ls[0]) && ls[0].scans && !ls[0].what.Done? && !ls[0].what.Nothing? && Consecutive(ls[0].after, ls[1..])
  }

  function EndMark(mark: Mark, ls: seq<Lexeme>): Mark {
    if ls == [] then mark else Last(ls).after
  }

  lemma {:induction false} ChainSplit(mark: Mark, a: seq<Lexeme>, b: seq<Lexeme>)
    ensures Consecutive(mark, a + b) <==> Consecutive(mark, a) && Consecutive(EndMark(mark, a), b)
    ensures EndMark(EndMark(mark, a), b) == EndMark(mark, a + b)
    decreases |a|
  {
    if a == [] {
      assert a + b == b;
    } else {
      assert (a + b)[1..] == a[1..] + b;
      ChainSplit(a[0].after, a[1..], b);
    }
  }

  lemma {:induction false} ChainReaches(mark: Mark, ls: seq<Lexeme>, i: nat)
    requires Consecutive(mark, ls) && i < |ls|
    ensures Reaches(mark, ls[i].start) && Reaches(ls[i].start, ls[i].after)
    ensures i > 0 ==> Precedes(ls[0].start, ls[i].start)
    decreases |ls|
  {
    assert Reaches(mark, ls[0].start) && Precedes(ls[0].start, ls[0].after);
    if i > 0 {
      assert ls[i] == ls[1..][i - 1];
      ChainReaches(ls[0].after, ls[1..], i - 1);
    }
  }

  /** All on one line and close enough to be a simple key in front of `mark`. */
  predicate OneLine(ls: seq<Lexeme>, mark: Mark) {
    ls != [] && ls[0].start.line >= mark.line && ls[0].start.index + 1024 >= mark.index
  }

  predicate IsFlowPair(opener: Lexeme, closer: Lexeme) {
    || (opener.what == FlowOpen(FlowSequenceStartToken) && closer.what == FlowClose(FlowSequenceEndToken))
    || (opener.what == FlowOpen(FlowMappingStartToken) && closer.what == FlowClose(FlowMappingEndToken))
  }

  predicate WellLeaf(props: seq<Lexeme>, content: seq<Lexeme>) {
    && WellProps(props)
    && (content == [] ==> props != [])
    && |content| <= 1
    && (content != [] ==>
         var w := content[0].what;
         || (w.Property? && w.kind.AliasToken? && props == [])
         || ((w.Quoted? || w.Plain? || w.BlockText?) && w.kind.ScalarToken?))
  }

  /** At most one lexeme, of this kind. */
  predicate AtMost(ls: seq<Lexeme>, w: Lexical) {
    ls == [] || (|ls| == 1 && ls[0].what == w)
  }

  /** A node that may stand in a flow collection, or be a simple key. */
  predicate FlowWell(n: Layout)
    decreases n, 0
  {
    match n
    case Leaf(props, content) => WellLeaf(props, content) && (content != [] ==> !content[0].what.BlockText?)
    case Flow(props, opener, items, comma, closer) =>
      && WellProps(props) && IsFlowPair(opener, closer)
      && AtMost(comma, Comma) && (comma != [] ==> items != [])
      && ItemsWell(items, true)
    case _ => false
  }

  predicate ItemsWell(items: seq<Item>, first: bool)
    decreases items, 2
  {
    items != [] ==> ItemWell(items[0], first) && ItemsWell(items[1..], false)
  }

  /** A pair with a simple key has it on one line; other keys are asked for. */
  predicate ItemWell(it: Item, first: bool)
    decreases it, 1
  {
    && AtMost(it.lead, Comma) && (it.lead == [] <==> first)
    && AtMost(it.asks, Question) && AtMost(it.colon, Colon)
    && (if it.key.Gone? then it.asks != [] else FlowWell(it.key))
    && (it.value.Gone? || (FlowWell(it.value) && it.colon != []))
    && (it.asks == [] && it.colon != [] ==> OneLine(Lexemes(it.key), it.colon[0].start))
  }

  // ------------------------------------------------------------------ scanning

  /** The lexemes are fetched one after the other. */
  ghost predicate Fed(s: Scan, ls: seq<Lexeme>, r: Scan)
    decreases |ls|
  {
    if ls == [] then s == r
    else
      Inv(s) && Follows(s.mark, ls[0]) && !ls[0].what.Done? && Fetch(s, ls[0]).Good? && Fed(Fetch(s, ls[0]).scan, ls[1..], r)
  }

  lemma {:induction false} FedFed(s: Scan, a: seq<Lexeme>, m: Scan, b: seq<Lexeme>, r: Scan)
    requires Fed(s, a, m) && Fed(m, b, r)
    ensures Fed(s, a + b, r)
    decreases |a|
  {
    hide KeysPlaced, YamlKeys.InOrder, Nested, Columns, Levels, Fetch, Follows;
    if a == [] {
      assert a + b == b;
    } else {
      assert (a + b)[1..] == a[1..] + b;
      FedFed(Fetch(s, a[0]).scan, a[1..], m, b, r);
    }
  }

  lemma FedOne(s: Scan, l: Lexeme, r: Scan)
    requires Inv(s) && Follows(s.mark, l) && !l.what.Done? && Fetch(s, l) == Good(r)
    ensures Fed(s, [l], r)
  {
    hide KeysPlaced, YamlKeys.InOrder, Nested, Columns, Levels, Fetch, Follows;
    assert [l][1..] == [];
  }

  function Kinds(ts: seq<Token>): (r: seq<TokenKind>)
    ensures |r| == |ts|
  {
    seq(|ts|, i requires 0 <= i < |ts| => ts[i].kind)
  }

  lemma KindsAdd(a: seq<Token>, b: seq<Token>)
    ensures Kinds(a + b) == Kinds(a) + Kinds(b)
  {
  }

  /** The tokens `ks` were added behind those there were. */
  predicate Added(s: Scan, r: Scan, ks: seq<TokenKind>) {
    |s.tokens| <= |r.tokens| && r.tokens[..|s.tokens|] == s.tokens && Kinds(r.tokens[|s.tokens|..]) == ks
  }

  lemma AddedNone(s: Scan, r: Scan)
    requires r.tokens == s.tokens
    ensures Added(s, r, [])
  {
  }

  lemma AddedOne(s: Scan, r: Scan, t: Token)
    requires r.tokens == s.tokens + [t]
    ensures Added(s, r, [t.kind])
  {
    assert r.tokens[|s.tokens|..] == [t];
  }

  lemma AddedAdded(s: Scan, m: Scan, r: Scan, a: seq<TokenKind>, b: seq<TokenKind>)
    requires Added(s, m, a) && Added(m, r, b)
    ensures Added(s, r, a + b)
  {
    var n, k := |s.tokens|, |m.tokens|;
    assert r.tokens[n..] == m.tokens[n..] + r.tokens[k..] by {
      assert r.tokens == m.tokens + r.tokens[k..];
    }
    KindsAdd(m.tokens[n..], r.tokens[k..]);
    assert r.tokens[..n] == r.tokens[..k][..n];
  }
}
