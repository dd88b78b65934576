/** Nodes in block style are scanned to the tokens that spell them: columns give the starts and
    the ends of block collections. */
module YamlBlockLayout {
  import opened YamlEvents
  import opened YamlTokens
  import opened YamlStep
  import opened YamlGrammar
  import opened YamlKeys
  import opened YamlKeysInvariant
  import opened YamlScanSteps
  import opened YamlLayout
  import opened YamlFlowLayout

  // ------------------------------------------------------------ well laid out

  predicate Right(ls: seq<Lexeme>, indent: int) {
    forall i | 0 <= i < |ls| :: indent < ls[i].start.column
  }

  /** A block collection, or an entry of one, may start there: on a new line, or where the line is `open`. */
  predicate MayBegin(mark: Mark, free: bool, start: Mark) {
    free || mark.line < start.line
  }

  /** Behind these the next line has been reached already. */
  predicate Lasts(ls: seq<Lexeme>) {
    ls != [] && (ls[|ls| - 1].what.BlockText? || (ls[|ls| - 1].what.Plain? && ls[|ls| - 1].what.ranOn))
  }

  /** The first lexeme of an entry. */
  function FirstOf(it: Item): seq<Lexeme> {
    if it.lead != [] then it.lead else if it.asks != [] then it.asks else Lexemes(it.key)
  }

  /** A node in block context, on a level with this indentation, behind `mark`. */
  predicate BlockWell(n: Layout, indent: int, mark: Mark, free: bool)
    decreases n, 0
  {
    match n
    case Gone => true
    case Leaf(props, content) => WellLeaf(props, content) && Right(props + content, indent)
    case Flow(props, opener, _, _, _) => FlowWell(n) && Right(props + [opener], indent)
    case Block(props, style, items) =>
      && WellProps(props) && Right(props, indent) && items != [] && FirstOf(items[0]) != []
      && var c := FirstOf(items[0])[0].start.column;
         && (if style.Indentless? then c == indent else c > indent)
         && BlockItemsWell(style, items, c, EndMark(mark, props), free && props == [])
  }

  predicate BlockItemsWell(style: Style, items: seq<Item>, c: nat, mark: Mark, free: bool)
    decreases items, 2
  {
    items != [] ==>
      && BlockItemWell(style, items[0], c, mark, free)
      && BlockItemsWell(style, items[1..], c, EndMark(mark, ItemLexemes(items[0])), Lasts(ItemLexemes(items[0])))
  }

  /** A dash and a node; or `?`, a node and perhaps `:` in the same column and a node; or a simple key,
      `:` and a node. */
  predicate BlockItemWell(style: Style, it: Item, c: nat, mark: Mark, free: bool)
    decreases it, 1
  {
    match style
    case BlockSeq => DashWell(it, c, mark, free) && BlockWell(it.key, c, it.lead[0].after, true)
    case Indentless => DashWell(it, c, mark, free) && BlockWell(it.key, c, it.lead[0].after, true)
    case BlockMap =>
      it.lead == [] &&
      if it.asks != [] then
        && AskWell(it, c, mark, free)
        && BlockWell(it.key, c, it.asks[0].after, true)
        && (it.colon != [] ==> BlockWell(it.value, c, it.colon[0].after, true))
      else
        SimpleWell(it, c, mark, free) && BlockWell(it.value, c, it.colon[0].after, false)
    case _ => false
  }

  predicate DashWell(it: Item, c: nat, mark: Mark, free: bool) {
    && |it.lead| == 1 && it.lead[0].what.Dash? && it.asks == [] && it.colon == [] && it.value.Gone?
    && it.lead[0].start.column == c && MayBegin(mark, free, it.lead[0].start)
  }

  predicate AskWell(it: Item, c: nat, mark: Mark, free: bool) {
    && |it.asks| == 1 && it.asks[0].what.Question? && it.asks[0].start.column == c && MayBegin(mark, free, it.asks[0].start)
    && (it.colon == [] ==> it.value.Gone?) && AtMost(it.colon, Colon)
    && (it.colon != [] ==>
          it.colon[0].start.column == c
          && MayBegin(EndMark(it.asks[0].after, Lexemes(it.key)), Lasts(Lexemes(it.key)), it.colon[0].start))
  }

  predicate SimpleWell(it: Item, c: nat, mark: Mark, free: bool) {
    && |it.colon| == 1 && it.colon[0].what.Colon? && FlowWell(it.key) && Lexemes(it.key) != []
    && Lexemes(it.key)[0].start.column == c && MayBegin(mark, free, Lexemes(it.key)[0].start)
    && OneLine(Lexemes(it.key), it.colon[0].start)
  }

  // ------------------------------------------------------------------- levels

  function Stack(s: Scan): seq<int> {
    s.indents + [s.indent]
  }

  function Closers(n: nat): seq<TokenKind> {
    seq(n, i => BlockEndToken)
  }

  /** The kinds of the tokens once the levels above `base` are closed. */
  function Closed(s: Scan, base: seq<int>): seq<TokenKind>
    requires |base| <= |Stack(s)|
  {
    Kinds(s.tokens) + Closers(|Stack(s)| - |base|)
  }

  lemma CloserMore(n: nat)
    ensures Closers(n + 1) == [BlockEndToken] + Closers(n) && Closers(n + 1) == Closers(n) + [BlockEndToken]
    ensures Closers(0) == []
  {
  }

  lemma KindsOne(t: Token)
    ensures Kinds([t]) == [t.kind]
  {
  }

  /** Unrolling to a level that is open closes those above it. */
  lemma {:induction false} UnrollTo(s: Scan, column: int, base: seq<int>)
    requires Levels(s.indents, s.indent) && s.level == 0 && column >= -1
    requires base != [] && base <= Stack(s) && base[|base| - 1] <= column
    requires |base| < |Stack(s)| ==> Stack(s)[|base|] > column
    ensures var u := Unroll(s, column);
      Stack(u) == base && Kinds(u.tokens) == Closed(s, base)
    decreases |s.indents|
  {
    hide Levels, Kinds, Closers, Stack;
    if |base| == |Stack(s)| {
      UnrollDone(s, column, base);
    } else {
      var p := UnrollOne(s, column, base);
      UnrollTo(p, column, base);
      CloserMore(|Stack(p)| - |base|);
      RegroupOne(Kinds(s.tokens), BlockEndToken, Closers(|Stack(p)| - |base|));
    }
  }

  lemma RegroupOne<T>(a: seq<T>, x: T, b: seq<T>)
    ensures a + [x] + b == a + ([x] + b)
  {
  }

  lemma UnrollDone(s: Scan, column: int, base: seq<int>)
    requires Levels(s.indents, s.indent) && s.level == 0 && column >= -1
    requires |base| == |Stack(s)| && base <= Stack(s) && base[|base| - 1] <= column
    ensures Unroll(s, column) == s && Stack(s) == base && Kinds(s.tokens) == Closed(s, base)
  {
    assert Stack(s)[|s.indents|] == s.indent;
    CloserMore(0);
  }

  lemma UnrollOne(s: Scan, column: int, base: seq<int>) returns (p: Scan)
    requires Levels(s.indents, s.indent) && s.level == 0 && column >= -1
    requires base <= Stack(s) && |base| < |Stack(s)| && Stack(s)[|base|] > column
    ensures Levels(p.indents, p.indent) && p.level == 0 && |p.indents| < |s.indents| && Unroll(s, column) == Unroll(p, column)
    ensures base <= Stack(p) && |Stack(p)| == |Stack(s)| - 1 && (|base| < |Stack(p)| ==> Stack(p)[|base|] > column)
    ensures Kinds(p.tokens) == Kinds(s.tokens) + [BlockEndToken]
  {
    assert Stack(s)[|base|] <= s.indent;
    p := YamlKeys.Push(s, BlockEndToken, s.mark, s.mark).(indent := s.indents[|s.indents| - 1], indents := s.indents[..|s.indents| - 1]);
    assert Stack(p) == s.indents && Stack(p) == Stack(s)[..|s.indents|];
    KindsAdd(s.tokens, [Token(BlockEndToken, s.mark, s.mark)]);
    KindsOne(Token(BlockEndToken, s.mark, s.mark));
  }

  /** On one level there is at most one key, and none that must be one. */
  lemma LooseIsTimely(s: Scan, mark: Mark)
    requires TopLoose(s) && |s.keys| == 1
    ensures Timely(s.keys, mark)
  {
  }

  /** Where a key may start none is possible any more. */
  lemma NoKeyLeft(s: Scan, start: Mark)
    requires Inv(s) && s.level == 0 && s.keys != [] && Reaches(s.mark, start) && MayStart(s, start)
    ensures !DropIfStale(s.keys[|s.keys| - 1], start).possible
  {
    hide YamlKeys.InOrder, Nested, Levels;
  }

  /** Arriving at a lexeme in the column of a level that is open, or of none deeper. */
  lemma Arrives(s: Scan, start: Mark, base: seq<int>) returns (m: Scan)
    requires Inv(s) && s.level == 0 && TopLoose(s) && Reaches(s.mark, start) && MayStart(s, start)
    requires base != [] && base <= Stack(s) && base[|base| - 1] <= start.column
    requires |base| < |Stack(s)| ==> Stack(s)[|base|] > start.column
    ensures Settle(s, start) == Good(m) && Inv(m) && m.level == 0 && m.mark == start && m.allowed && TopFree(m)
    ensures Stack(m) == base && Kinds(m.tokens) == Closed(s, base)
  {
    HasKeys(s);
    LooseIsTimely(s, start);
    NoKeyLeft(s, start);
    StalesOne(s, start);
    var a := StaleKeys(Approach(s, start)).scan;
    UnrollTo(a, start.column, base);
    hide KeysPlaced, YamlKeys.InOrder, Nested, Columns, Unroll, StaleKeys;
    SettleKeeps(s, start);
    m := Settle(s, start).scan;
  }

  lemma StalesOne(s: Scan, start: Mark)
    requires CanFetch(s) && |s.keys| == 1 && Timely(s.keys, start) && s.level == 0
    ensures StaleKeys(Approach(s, start)).Good?
    ensures var a := StaleKeys(Approach(s, start)).scan;
      && a.tokens == s.tokens && a.level == s.level && a.indent == s.indent && a.indents == s.indents && a.mark == start
      && a.allowed == MayStart(s, start) && a.keys == [DropIfStale(s.keys[0], start)]
  {
    hide Levels;
  }

  /** The fetch does not tell the scanner from the one that has settled already. */
  lemma {:induction false} Landed(s: Scan, m: Scan, ls: seq<Lexeme>, r: Scan)
    requires Inv(s) && ls != [] && Follows(s.mark, ls[0]) && Settle(s, ls[0].start) == Good(m) && Fed(m, ls, r)
    requires Inv(m) && m.mark == ls[0].start && m.level == 0 && m.indent <= ls[0].start.column && TopFree(m)
    ensures Fed(s, ls, r)
  {
    HasKeys(m);
    SettledAgain(m);
    hide KeysPlaced, YamlKeys.InOrder, Nested, Columns, Levels, Settle, FetchAt, Follows;
  }

  lemma SettledAgain(m: Scan)
    requires Inv(m) && m.level == 0 && m.indent <= m.mark.column && |m.keys| == 1 && !m.keys[0].possible
    ensures Settle(m, m.mark) == Good(m)
  {
    Settles(m, m.mark);
    hide KeysPlaced, YamlKeys.InOrder, Nested, Columns, Levels;
    assert Approach(m, m.mark) == m;
    assert Fresh(m.keys, m.mark) == m.keys;
  }

  // ------------------------------------------------------ entries of collections

  /** The levels once an entry stands in that column. */
  function Deepened(base: seq<int>, column: nat): seq<int>
    requires base != []
  {
    if base[|base| - 1] < column then base + [column] else base
  }

  function Opener(base: seq<int>, column: nat, k: TokenKind): seq<TokenKind>
    requires base != []
  {
    if base[|base| - 1] < column then [k] else []
  }

  /** Where the scanner can arrive at a column with just these levels open. */
  ghost predicate CanArrive(s: Scan, l: Lexeme, base: seq<int>) {
    && Inv(s) && s.level == 0 && TopLoose(s) && Follows(s.mark, l) && Reaches(s.mark, l.start) && l.scans && !l.what.Done? && !l.what.Nothing? && MayStart(s, l.start)
    && base != [] && base <= Stack(s) && base[|base| - 1] <= l.start.column
    && (|base| < |Stack(s)| ==> Stack(s)[|base|] > l.start.column)
  }

  lemma TakesEntry(m: Scan, opener: TokenKind, k: TokenKind, l: Lexeme, allowed: bool)
    requires CanFetch(m) && m.level == 0 && m.allowed && TopFree(m) && l.scans && m.mark == l.start && m.indent <= l.start.column
    ensures FetchEntry(m, opener, k, l, allowed).Good?
    ensures var r := FetchEntry(m, opener, k, l, allowed).scan;
      && r.level == 0 && r.allowed == allowed && r.mark == l.after && TopFree(r)
      && Stack(r) == Deepened(Stack(m), l.start.column)
      && r.tokens == m.tokens + (if m.indent < l.start.column then [Token(opener, m.mark, m.mark)] else []) + [Token(k, l.start, l.end)]
  {
    hide Levels;
    InsertLast(m.tokens, Token(opener, m.mark, m.mark));
    hide Insert;
    assert Stack(m)[|Stack(m)| - 1] == m.indent;
  }

  lemma KindsFront(s: Scan, base: seq<int>, column: nat, opener: Token, tokens: seq<Token>, t: Token, kinds: seq<TokenKind>)
    requires base != [] && Kinds(tokens) == kinds
    ensures Kinds(tokens + (if base[|base| - 1] < column then [opener] else []) + [t]) == kinds + (Opener(base, column, opener.kind) + [t.kind])
  {
    var o := if base[|base| - 1] < column then [opener] else [];
    KindsAdd(tokens + o, [t]);
    KindsAdd(tokens, o);
    assert kinds + (Opener(base, column, opener.kind) + [t.kind]) == kinds + Opener(base, column, opener.kind) + [t.kind];
  }

  lemma DashFed(s: Scan, l: Lexeme, base: seq<int>) returns (r: Scan)
    requires CanArrive(s, l, base) && l.what.Dash?
    ensures Fed(s, [l], r) && Inv(r) && r.level == 0 && r.allowed && TopFree(r) && r.mark == l.after
    ensures Stack(r) == Deepened(base, l.start.column)
    ensures Kinds(r.tokens) == Closed(s, base) + (Opener(base, l.start.column, BlockSequenceStartToken) + [BlockEntryToken])
  {
    hide KeysPlaced, YamlKeys.InOrder, Nested, Columns, Levels, Settle, FetchEntry, Follows;
    var m := Arrives(s, l.start, base);
    assert m.indent == base[|base| - 1];
    TakesEntry(m, BlockSequenceStartToken, BlockEntryToken, l, true);
    KindsFront(s, base, l.start.column, Token(BlockSequenceStartToken, m.mark, m.mark), m.tokens,
               Token(BlockEntryToken, l.start, l.end), Closed(s, base));
    r := FetchEntry(m, BlockSequenceStartToken, BlockEntryToken, l, true).scan;
    FetchKeeps(s, l);
    FedOne(s, l, r);
  }

  lemma AskBlockFed(s: Scan, l: Lexeme, base: seq<int>) returns (r: Scan)
    requires CanArrive(s, l, base) && l.what.Question?
    ensures Fed(s, [l], r) && Inv(r) && r.level == 0 && r.allowed && TopFree(r) && r.mark == l.after
    ensures Stack(r) == Deepened(base, l.start.column)
    ensures Kinds(r.tokens) == Closed(s, base) + (Opener(base, l.start.column, BlockMappingStartToken) + [KeyToken])
  {
    hide KeysPlaced, YamlKeys.InOrder, Nested, Columns, Levels, Settle, FetchEntry, Follows;
    var m := Arrives(s, l.start, base);
    assert m.indent == base[|base| - 1];
    TakesEntry(m, BlockMappingStartToken, KeyToken, l, true);
    KindsFront(s, base, l.start.column, Token(BlockMappingStartToken, m.mark, m.mark), m.tokens,
               Token(KeyToken, l.start, l.end), Closed(s, base));
    r := FetchEntry(m, BlockMappingStartToken, KeyToken, l, true).scan;
    FetchKeeps(s, l);
    FedOne(s, l, r);
  }

  lemma TakesColon(m: Scan, l: Lexeme)
    requires CanFetch(m) && m.level == 0 && m.allowed && TopFree(m) && l.scans && m.mark == l.start && m.indent == l.start.column
    ensures FetchValue(m, l).Good?
    ensures var r := FetchValue(m, l).scan;
      && r.level == 0 && r.allowed && r.mark == l.after && TopFree(r) && Stack(r) == Stack(m)
      && r.tokens == m.tokens + [Token(ValueToken, l.start, l.end)]
  {
    hide Levels, Insert;
  }

  /** `:` behind a node that was asked for. */
  lemma ColonBlockFed(s: Scan, l: Lexeme, base: seq<int>) returns (r: Scan)
    requires CanArrive(s, l, base) && l.what.Colon? && base[|base| - 1] == l.start.column
    ensures Fed(s, [l], r) && Inv(r) && r.level == 0 && r.allowed && TopFree(r) && r.mark == l.after
    ensures Stack(r) == base && Kinds(r.tokens) == Closed(s, base) + [ValueToken]
  {
    hide KeysPlaced, YamlKeys.InOrder, Nested, Columns, Levels, Settle, FetchValue, Follows;
    var m := Arrives(s, l.start, base);
    assert m.indent == base[|base| - 1];
    TakesColon(m, l);
    KindsAdd(m.tokens, [Token(ValueToken, l.start, l.end)]);
    assert Kinds([Token(ValueToken, l.start, l.end)]) == [ValueToken];
    r := FetchValue(m, l).scan;
    FetchKeeps(s, l);
    FedOne(s, l, r);
  }

  // ------------------------------------------------------------- simple keys

  lemma {:induction false} OuterIsFront(n: Layout)
    requires FlowWell(n)
    ensures Outer(n) != [] && Outer(n) <= Lexemes(n)
  {
    hide ItemsWell, AllLexemes;
    if n.Flow? {
      Regroup(n.props, n.opener, AllLexemes(n.items) + (n.comma + [n.closer]));
    }
  }

  lemma Regroup<T>(a: seq<T>, x: T, b: seq<T>)
    ensures a + ([x] + b) == (a + [x]) + b
  {
  }

  /** A simple key stands in one line, so its later lexemes lie right of the first. */
  lemma {:induction false} KeyPlaced(n: Layout, m: Scan, end: Mark)
    requires FlowWell(n) && Consecutive(m.mark, Lexemes(n)) && Reaches(EndMark(m.mark, Lexemes(n)), end) && OneLine(Lexemes(n), end)
    requires m.level == 0 && m.allowed && m.indent <= Lexemes(n)[0].start.column
    ensures Placed(m, Outer(n), Lexemes(n), end)
  {
    hide FlowWell, Lexemes, Outer;
    OuterIsFront(n);
    var ls, o := Lexemes(n), Outer(n);
    ChainBounds(m.mark, ls, end);
    forall i | 0 < i < |o| ensures m.indent < o[i].start.column {
      assert o[i] == ls[i];
      ChainReaches(m.mark, ls, i);
    }
    assert o[0] == ls[0];
  }

  /** The chain from the place where the scanner has settled. */
  lemma {:induction false} ChainFrom(mark: Mark, ls: seq<Lexeme>)
    requires Consecutive(mark, ls) && ls != []
    ensures Consecutive(ls[0].start, ls) && EndMark(ls[0].start, ls) == EndMark(mark, ls)
  {
  }

  /** A simple key on its line, and `:` behind it. */
  lemma {:induction false} KeyLineFed(n: Layout, s: Scan, l: Lexeme, base: seq<int>) returns (r: Scan)
    requires FlowWell(n) && Lexemes(n) != [] && CanArrive(s, Lexemes(n)[0], base) && l.what.Colon?
    requires Consecutive(s.mark, Lexemes(n) + [l]) && OneLine(Lexemes(n), l.start)
    ensures Fed(s, Lexemes(n) + [l], r) && Inv(r) && r.level == 0 && !r.allowed && TopFree(r) && r.mark == l.after
    ensures Stack(r) == Deepened(base, Lexemes(n)[0].start.column)
    ensures Kinds(r.tokens) == Closed(s, base)
      + (Opener(base, Lexemes(n)[0].start.column, BlockMappingStartToken) + ([KeyToken] + (Spell(Means(n)) + [ValueToken])))
  {
    hide FlowWell, NodeScanned, Inv, Timely, Consecutive, Reaches, Spell, Lexemes, Means, Aged, IsStale, Fed, Placed, Follows, Settle, Marked;
    var ls := Lexemes(n);
    var start := ls[0].start;
    EndWithin(s.mark, ls, [l], EndMark(s.mark, ls + [l])) by { MarkReaches(EndMark(s.mark, ls + [l])); }
    ChainFirst(EndMark(s.mark, ls), [l]);
    var m := Arrives(s, start, base);
    HasKeys(m);
    assert m.indent == base[|base| - 1];
    ChainFrom(s.mark, ls);
    LooseIsTimely(m, l.start);
    KeyPlaced(n, m, l.start);
    var q := InlineFed(n, m, l.start);
    KeyReady(n, m, q, l.start);
    Landed(s, m, ls, q);
    KeyColumn(s.mark, ls, l);
    r := StepSimple(q, l);
    FedOne(q, l, r);
    FedFed(s, ls, q, [l], r);
    KeyKinds(m, q, r, Spell(Means(n)), l, Closed(s, base), base, start);
  }

  lemma MarkReaches(m: Mark)
    ensures Reaches(m, m)
  {
  }

  lemma {:induction false} KeyReady(n: Layout, m: Scan, q: Scan, end: Mark)
    requires NodeScanned(n, m, end, q) && m.allowed && OneLine(Lexemes(n), end) && m.level == 0
    ensures Timely(q.keys, end) && Inv(q) && q.level == 0 && q.mark == EndMark(m.mark, Lexemes(n)) && q.keys != []
    ensures q.keys[|q.keys| - 1] == KeyAt(m, Lexemes(n)[0].start) && !IsStale(q.keys[|q.keys| - 1], end)
    ensures Same(m, q) && Fed(m, Lexemes(n), q) && Added(m, q, Spell(Means(n)))
  {
    hide Inv, Fed, Added, Aged, Timely, Lexemes;
  }

  /** `:` on the line of the key lies right of it. */
  lemma {:induction false} KeyColumn(mark: Mark, ls: seq<Lexeme>, l: Lexeme)
    requires ls != [] && Consecutive(mark, ls + [l]) && OneLine(ls, l.start)
    ensures ls[0].start.column <= l.start.column
  {
    assert (ls + [l])[|ls|] == l && (ls + [l])[0] == ls[0];
    ChainReaches(mark, ls + [l], |ls|);
  }

  lemma {:induction false} KeyKinds(m: Scan, q: Scan, r: Scan, ks: seq<TokenKind>, l: Lexeme, kinds: seq<TokenKind>, base: seq<int>, start: Mark)
    requires Added(m, q, ks) && base != [] && Kinds(m.tokens) == kinds && Stack(m) == base && Same(m, q) && m.level == 0
    requires var key := KeyAt(m, start);
      var opens := q.level == 0 && q.indent < key.mark.column;
      var front := if opens then [Token(BlockMappingStartToken, key.mark, key.mark), Token(KeyToken, key.mark, key.mark)]
                   else [Token(KeyToken, key.mark, key.mark)];
      && r.tokens == q.tokens[..key.number] + front + q.tokens[key.number..] + [Token(ValueToken, l.start, l.end)]
      && r.indents == (if opens then q.indents + [q.indent] else q.indents)
      && r.indent == (if opens then key.mark.column else q.indent)
    ensures Stack(r) == Deepened(base, start.column)
    ensures Kinds(r.tokens) == kinds + (Opener(base, start.column, BlockMappingStartToken) + ([KeyToken] + (ks + [ValueToken])))
  {
    hide Kinds, Added, Opener;
    var b, k, v := Token(BlockMappingStartToken, start, start), Token(KeyToken, start, start), Token(ValueToken, l.start, l.end);
    assert base[|base| - 1] == m.indent;
    var opens := m.indent < start.column;
    AddedParts(m, q, ks);
    FourKinds(m.tokens, if opens then [b, k] else [k], q.tokens[|m.tokens|..], [v]);
    FrontKinds(opens, b, k, v);
    var o := Opener(base, start.column, BlockMappingStartToken);
    assert o == (if opens then [b.kind] else []) by { OpenerIs(base, start.column, BlockMappingStartToken); }
    RegroupKey(kinds, o, KeyToken, ks, ValueToken);
  }

  lemma OpenerIs(base: seq<int>, column: nat, k: TokenKind)
    requires base != []
    ensures Opener(base, column, k) == if base[|base| - 1] < column then [k] else []
  {
  }

  lemma RegroupKey<T>(a: seq<T>, o: seq<T>, k: T, ks: seq<T>, v: T)
    ensures a + (o + [k]) + ks + [v] == a + (o + ([k] + (ks + [v])))
  {
  }

  lemma AddedParts(m: Scan, q: Scan, ks: seq<TokenKind>)
    requires Added(m, q, ks)
    ensures |m.tokens| <= |q.tokens| && q.tokens[..|m.tokens|] == m.tokens && Kinds(q.tokens[|m.tokens|..]) == ks
  {
  }

  lemma FourKinds(a: seq<Token>, b: seq<Token>, c: seq<Token>, d: seq<Token>)
    ensures Kinds(a + b + c + d) == Kinds(a) + Kinds(b) + Kinds(c) + Kinds(d)
  {
    hide Kinds;
    KindsAdd(a + b + c, d);
    KindsAdd(a + b, c);
    KindsAdd(a, b);
  }

  lemma FrontKinds(opens: bool, b: Token, k: Token, v: Token)
    ensures Kinds(if opens then [b, k] else [k]) == (if opens then [b.kind] else []) + [k.kind] && Kinds([v]) == [v.kind]
  {
  }

  // ------------------------------------------------------------------- nodes

  /** Some lexemes were scanned in block context: with the levels above `base` closed the tokens are `goal`. */
  ghost predicate Read(s: Scan, ls: seq<Lexeme>, base: seq<int>, goal: seq<TokenKind>, r: Scan) {
    && Fed(s, ls, r) && Inv(r) && r.level == 0 && TopLoose(r) && r.mark == EndMark(s.mark, ls)
    && base != [] && base <= Stack(r) && Closed(r, base) == goal
    && (Lasts(ls) ==> r.allowed)
  }

  /** A node is due on the level the scanner is on. */
  ghost predicate Due(n: Layout, s: Scan, free: bool) {
    && Inv(s) && s.level == 0 && TopFree(s) && Consecutive(s.mark, Lexemes(n))
    && BlockWell(n, s.indent, s.mark, free) && (free ==> s.allowed)
  }

  lemma ClosedNow(s: Scan)
    ensures Closed(s, Stack(s)) == Kinds(s.tokens)
  {
  }

  lemma ClosedBelow(r: Scan, base: seq<int>, c: int)
    requires base + [c] <= Stack(r)
    ensures base <= Stack(r) && Closed(r, base) == Closed(r, base + [c]) + [BlockEndToken]
  {
    CloserMore(|Stack(r)| - |base| - 1);
  }

  lemma {:induction false} ReadOn(s: Scan, a: seq<Lexeme>, m: Scan, b: seq<Lexeme>, base: seq<int>, goal: seq<TokenKind>, r: Scan)
    requires Fed(s, a, m) && m.mark == EndMark(s.mark, a) && Read(m, b, base, goal, r)
    requires b == [] ==> Lasts(a) ==> r.allowed
    ensures Read(s, a + b, base, goal, r)
  {
    hide Fed, Inv;
    FedFed(s, a, m, b, r);
    if b == [] {
      assert a + b == a;
    }
  }

  lemma {:induction false} NothingRead(s: Scan)
    requires Inv(s) && s.level == 0 && TopLoose(s)
    ensures Read(s, [], Stack(s), Kinds(s.tokens), s)
  {
    ClosedNow(s);
    hide Inv;
  }

  lemma {:induction false} AddedKinds(s: Scan, r: Scan, ks: seq<TokenKind>)
    requires Added(s, r, ks)
    ensures Kinds(r.tokens) == Kinds(s.tokens) + ks
  {
    assert r.tokens == s.tokens + r.tokens[|s.tokens|..];
    KindsAdd(s.tokens, r.tokens[|s.tokens|..]);
  }

  /** What `YamlFlowLayout` shows of a node, in terms of levels. */
  lemma {:induction false} InlineRead(n: Layout, s: Scan, end: Mark, r: Scan)
    requires NodeScanned(n, s, end, r) && s.level == 0 && Lexemes(n) != [] && s.indent < Lexemes(n)[0].start.column
    requires Lasts(Lexemes(n)) ==> RunsOn(Lexemes(n))
    ensures Read(s, Lexemes(n), Stack(s), Kinds(s.tokens) + Spell(Means(n)), r)
  {
    hide Fed, Inv, Added, Timely, Aged, Lexemes, Spell, Means;
    AddedKinds(s, r, Spell(Means(n)));
    assert Stack(r) == Stack(s);
    ClosedNow(r);
  }

  lemma {:induction false} InlineBlockFed(n: Layout, s: Scan, free: bool) returns (r: Scan)
    requires Due(n, s, free) && FlowWell(n)
    ensures Read(s, Lexemes(n), Stack(s), Kinds(s.tokens) + Spell(Means(n)), r)
  {
    var end := EndMark(s.mark, Lexemes(n));
    InlineRight(n, s, free);
    HasKeys(s);
    LooseIsTimely(s, end);
    MarkReaches(end);
    hide Due, FlowWell, NodeScanned, Read, Inv, Consecutive, Timely, Reaches;
    r := InlineFed(n, s, end);
    InlineRead(n, s, end, r);
  }

  lemma {:induction false} InlineRight(n: Layout, s: Scan, free: bool)
    requires Due(n, s, free) && FlowWell(n)
    ensures Placed(s, Outer(n), Lexemes(n), EndMark(s.mark, Lexemes(n)))
    ensures Lexemes(n) != [] && s.indent < Lexemes(n)[0].start.column
    ensures Lasts(Lexemes(n)) ==> RunsOn(Lexemes(n))
  {
    hide Inv, FlowWell, Lexemes, Outer, Consecutive;
    OuterIsFront(n);
    OuterRight(n, s.indent, s.mark, free);
    LastRuns(n, s.mark);
    assert Outer(n)[0] == Lexemes(n)[0];
  }

  lemma {:induction false} OuterRight(n: Layout, indent: int, mark: Mark, free: bool)
    requires BlockWell(n, indent, mark, free) && FlowWell(n)
    ensures Right(Outer(n), indent)
  {
    hide ItemsWell;
  }

  lemma {:induction false} LastRuns(n: Layout, mark: Mark)
    requires FlowWell(n)
    ensures Lasts(Lexemes(n)) ==> RunsOn(Lexemes(n))
  {
    if n.Flow? {
      FlowEnd(n, mark);
      var front := n.props + ([n.opener] + (AllLexemes(n.items) + n.comma));
      assert Lexemes(n) == front + [n.closer];
    } else {
      LeafIs(n);
    }
  }

  /** Properties in front of a block scalar or a block collection. */
  lemma {:induction false} PropsFed(props: seq<Lexeme>, s: Scan) returns (r: Scan)
    requires Inv(s) && s.level == 0 && TopFree(s) && Consecutive(s.mark, props) && WellProps(props) && Right(props, s.indent)
    ensures Read(s, props, Stack(s), Kinds(s.tokens) + KindsOf(props), r) && Stack(r) == Stack(s) && r.keys != []
    ensures props == [] ==> r == s
  {
    hide Inv, Fed, Added, Timely, Consecutive, Reaches;
    if props == [] {
      r := s;
      NothingRead(s);
      assert Kinds(s.tokens) + KindsOf(props) == Kinds(s.tokens);
    } else {
      var end := EndMark(s.mark, props);
      HasKeys(s);
      LooseIsTimely(s, end);
      MarkReaches(end);
      PropsKeyable(props);
      r := KeyablesFed(props, s, props, end);
      AddedKinds(s, r, KindsOf(props));
      PropsLast(props);
      ClosedNow(r);
    }
  }

  lemma {:induction false} PropsLast(props: seq<Lexeme>)
    requires WellProps(props)
    ensures !Lasts(props) && !RunsOn(props)
  {
  }

  /** A block scalar. */
  lemma {:induction false} TextFed(s: Scan, l: Lexeme) returns (r: Scan)
    requires Inv(s) && s.level == 0 && TopLoose(s) && Consecutive(s.mark, [l]) && l.what.BlockText? && s.indent < l.start.column
    ensures Read(s, [l], Stack(s), Kinds(s.tokens) + [KindOf(l)], r)
  {
    hide KeysPlaced, YamlKeys.InOrder, Nested, Columns, Levels, Settle, Follows, FetchBlockText, Kinds, Timely, Reaches, DropIfStale;
    ChainFirst(s.mark, [l]);
    HasKeys(s);
    LooseIsTimely(s, l.start);
    Settles(s, l.start);
    FetchKeeps(s, l);
    var m := Settle(s, l.start).scan;
    DropsLoose(s.keys, l.start);
    TakesText(m, l);
    r := Fetch(s, l).scan;
    FedOne(s, l, r);
    AddedOne(s, r, Token(l.what.kind, l.start, l.end));
    AddedKinds(s, r, [KindOf(l)]);
    assert Stack(r) == Stack(s);
    ClosedNow(r);
    assert [l][0] == l;
  }

  lemma DropsLoose(keys: seq<SimpleKey>, start: Mark)
    requires |keys| == 1 && !(keys[0].possible && keys[0].required)
    ensures !(Fresh(keys, start)[0].possible && Fresh(keys, start)[0].required)
  {
  }

  lemma TakesText(m: Scan, l: Lexeme)
    requires CanFetch(m) && |m.keys| == 1 && TopLoose(m) && l.scans && l.what.BlockText?
    ensures FetchBlockText(m, l.what.kind, l).Good?
    ensures var r := FetchBlockText(m, l.what.kind, l).scan;
      && r.level == m.level && r.indent == m.indent && r.indents == m.indents && r.mark == l.after && r.allowed && TopLoose(r)
      && r.tokens == m.tokens + [Token(l.what.kind, l.start, l.end)]
  {
    hide Levels;
  }

  lemma {:induction false} TextLeafFed(n: Layout, s: Scan, free: bool) returns (r: Scan)
    requires Due(n, s, free) && n.Leaf? && !FlowWell(n)
    ensures Read(s, Lexemes(n), Stack(s), Kinds(s.tokens) + Spell(Means(n)), r)
  {
    hide Inv, Fed, Read, Consecutive;
    var l := n.content[0];
    assert n.content == [l];
    TextLeafIs(n, s.indent);
    ChainSplit(s.mark, n.props, [l]);
    var m := PropsFed(n.props, s);
    PropsRead(s, n.props, m);
    r := TextFed(m, l);
    assert Kinds(s.tokens) + KindsOf(n.props) + [KindOf(l)] == Kinds(s.tokens) + Spell(Means(n));
    LastRead(s, n.props, m, [l], Stack(s), Kinds(s.tokens) + Spell(Means(n)), r);
  }

  lemma {:induction false} TextLeafIs(n: Layout, indent: int)
    requires n.Leaf? && WellLeaf(n.props, n.content) && !FlowWell(n) && Right(n.props + n.content, indent)
    ensures n.content[0].what.BlockText? && WellProps(n.props) && Right(n.props, indent) && indent < n.content[0].start.column
    ensures Spell(Means(n)) == KindsOf(n.props) + [KindOf(n.content[0])]
  {
    PropsSpelled(n.props);
    assert (n.props + n.content)[|n.props|] == n.content[0];
    forall i | 0 <= i < |n.props| ensures indent < n.props[i].start.column {
      assert (n.props + n.content)[i] == n.props[i];
    }
  }

  lemma {:induction false} PropsRead(s: Scan, props: seq<Lexeme>, m: Scan)
    requires Read(s, props, Stack(s), Kinds(s.tokens) + KindsOf(props), m) && Stack(m) == Stack(s)
    ensures Fed(s, props, m) && Inv(m) && m.level == 0 && TopLoose(m) && m.mark == EndMark(s.mark, props)
    ensures Kinds(m.tokens) == Kinds(s.tokens) + KindsOf(props) && m.indent == s.indent
  {
    ClosedNow(m);
    hide Inv, Fed;
    assert Stack(m)[|Stack(m)| - 1] == m.indent && Stack(s)[|Stack(s)| - 1] == s.indent;
  }

  lemma {:induction false} LastRead(s: Scan, a: seq<Lexeme>, m: Scan, b: seq<Lexeme>, base: seq<int>, goal: seq<TokenKind>, r: Scan)
    requires Fed(s, a, m) && m.mark == EndMark(s.mark, a) && Read(m, b, base, goal, r) && b != []
    ensures Read(s, a + b, base, goal, r)
  {
    ReadOn(s, a, m, b, base, goal, r);
  }

  // -------------------------------------------------------------- collections

  predicate IsBlock(style: Style) {
    style.BlockSeq? || style.Indentless? || style.BlockMap?
  }

  function StartKind(style: Style): TokenKind {
    if style.BlockMap? then BlockMappingStartToken else BlockSequenceStartToken
  }

  /** Entries are due: in a column that is a level already, or becomes one. */
  ghost predicate ItemsDue(style: Style, ls: seq<Lexeme>, s: Scan, base: seq<int>, c: nat, free: bool) {
    && Inv(s) && s.level == 0 && TopLoose(s) && Consecutive(s.mark, ls) && (free ==> s.allowed) && IsBlock(style)
    && base != [] && base <= Stack(s) && base[|base| - 1] <= c && (|base| < |Stack(s)| ==> Stack(s)[|base|] > c)
  }

  lemma DeepestLevel(s: Scan, base: seq<int>, c: nat)
    requires Inv(s) && base != [] && base[|base| - 1] <= c && Deepened(base, c) <= Stack(s)
    ensures var b := Deepened(base, c);
      b != [] && b[|b| - 1] == c && Deepened(b, c) == b && (|b| < |Stack(s)| ==> Stack(s)[|b|] > c)
    ensures forall k :: Opener(Deepened(base, c), c, k) == []
  {
    hide KeysPlaced, YamlKeys.InOrder, Nested, Columns;
  }

  lemma {:induction false} ArrivesAt(style: Style, ls: seq<Lexeme>, s: Scan, base: seq<int>, c: nat, free: bool)
    requires ItemsDue(style, ls, s, base, c, free) && ls != [] && ls[0].start.column == c && MayBegin(s.mark, free, ls[0].start)
    ensures CanArrive(s, ls[0], base)
  {
    ChainFirst(s.mark, ls);
    hide Inv;
  }

  lemma {:induction false} DashItemFed(style: Style, it: Item, s: Scan, base: seq<int>, c: nat, free: bool) returns (r: Scan)
    requires (style.BlockSeq? || style.Indentless?) && DashWell(it, c, s.mark, free) && BlockWell(it.key, c, it.lead[0].after, true)
    requires ItemsDue(style, ItemLexemes(it), s, base, c, free)
    ensures Read(s, ItemLexemes(it), Deepened(base, c),
                 Closed(s, base) + (Opener(base, c, BlockSequenceStartToken) + SpellEntry(style, ItemMeans(style, it), true)), r)
    decreases it, 1
  {
    hide Inv, Fed, Read, Consecutive, BlockWell, Spell, Lexemes, Means, Closed, Kinds, CanArrive;
    var l := it.lead[0];
    var b := Deepened(base, c);
    DashLexemes(it);
    ArrivesAt(style, ItemLexemes(it), s, base, c, free);
    var m := DashFed(s, l, base);
    ChainSplit(s.mark, [l], Lexemes(it.key));
    NodeIsDue(it.key, m, c, base, l.after, true);
    r := BlockFed(it.key, m, true);
    EndOne(s.mark, l);
    ItemRead(s, [l], m, it.key, b, r);
    var o := Opener(base, c, BlockSequenceStartToken);
    assert Closed(s, base) + (o + [BlockEntryToken]) + Spell(Means(it.key)) == Closed(s, base) + (o + ([BlockEntryToken] + Spell(Means(it.key))));
  }

  lemma EndOne(mark: Mark, l: Lexeme)
    ensures EndMark(mark, [l]) == l.after
    ensures Lasts([l]) <==> l.what.BlockText? || (l.what.Plain? && l.what.ranOn)
  {
  }

  lemma {:induction false} DashLexemes(it: Item)
    requires |it.lead| == 1 && it.asks == [] && it.colon == [] && it.value.Gone?
    ensures ItemLexemes(it) == [it.lead[0]] + Lexemes(it.key)
  {
    assert Lexemes(it.value) == [] && it.lead == [it.lead[0]];
  }

  lemma {:induction false} NodeIsDue(n: Layout, m: Scan, c: nat, base: seq<int>, mark: Mark, free: bool)
    requires Inv(m) && m.level == 0 && TopFree(m) && m.mark == mark && (free ==> m.allowed) && base != [] && base[|base| - 1] <= c
    requires Stack(m) == Deepened(base, c) && Consecutive(mark, Lexemes(n)) && BlockWell(n, c, mark, free)
    ensures Due(n, m, free)
  {
    assert Stack(m)[|Stack(m)| - 1] == m.indent;
    hide Inv, Consecutive, BlockWell;
  }

  lemma {:induction false} ItemRead(s: Scan, a: seq<Lexeme>, m: Scan, n: Layout, b: seq<int>, r: Scan)
    requires Fed(s, a, m) && m.mark == EndMark(s.mark, a) && Stack(m) == b && !Lasts(a)
    requires Read(m, Lexemes(n), Stack(m), Kinds(m.tokens) + Spell(Means(n)), r)
    ensures Read(s, a + Lexemes(n), b, Kinds(m.tokens) + Spell(Means(n)), r)
  {
    hide Inv, Fed, Lexemes;
    ReadOn(s, a, m, Lexemes(n), b, Kinds(m.tokens) + Spell(Means(n)), r);
  }

  lemma {:induction false} BlockFed(n: Layout, s: Scan, free: bool) returns (r: Scan)
    requires Due(n, s, free)
    ensures Read(s, Lexemes(n), Stack(s), Kinds(s.tokens) + Spell(Means(n)), r)
    decreases n, 1
  {
    hide Inv, Read, Fed, Consecutive;
    match n
    case Gone =>
      r := s;
      assert Lexemes(n) == [] && Kinds(s.tokens) + Spell(Means(n)) == Kinds(s.tokens);
      NothingRead(s);
    case Leaf(_, _) =>
      if FlowWell(n) { r := InlineBlockFed(n, s, free); } else { r := TextLeafFed(n, s, free); }
    case Flow(_, _, _, _, _) => r := InlineBlockFed(n, s, free);
    case Block(_, _, _) => r := CollectionFed(n, s, free);
  }

  /** `?` and a node. */
  lemma {:induction false} AskedNodeFed(it: Item, s: Scan, base: seq<int>, c: nat, free: bool) returns (r: Scan)
    requires AskWell(it, c, s.mark, free) && BlockWell(it.key, c, it.asks[0].after, true)
    requires ItemsDue(BlockMap, [it.asks[0]] + Lexemes(it.key), s, base, c, free)
    ensures Read(s, [it.asks[0]] + Lexemes(it.key), Deepened(base, c),
                 Closed(s, base) + (Opener(base, c, BlockMappingStartToken) + ([KeyToken] + Spell(Means(it.key)))), r)
    ensures Lasts(Lexemes(it.key)) ==> r.allowed
    decreases it, 0
  {
    hide Inv, Fed, Read, Consecutive, BlockWell, Spell, Lexemes, Means, Closed, Kinds, CanArrive;
    var l := it.asks[0];
    ArrivesAt(BlockMap, [l] + Lexemes(it.key), s, base, c, free);
    var m := AskBlockFed(s, l, base);
    ChainSplit(s.mark, [l], Lexemes(it.key));
    NodeIsDue(it.key, m, c, base, l.after, true);
    r := BlockFed(it.key, m, true);
    EndOne(s.mark, l);
    ItemRead(s, [l], m, it.key, Deepened(base, c), r);
    ReadLasts(m, Lexemes(it.key), Stack(m), Kinds(m.tokens) + Spell(Means(it.key)), r);
    var o := Opener(base, c, BlockMappingStartToken);
    assert Closed(s, base) + (o + [KeyToken]) + Spell(Means(it.key)) == Closed(s, base) + (o + ([KeyToken] + Spell(Means(it.key))));
  }

  lemma {:induction false} ReadLasts(s: Scan, ls: seq<Lexeme>, base: seq<int>, goal: seq<TokenKind>, r: Scan)
    requires Read(s, ls, base, goal, r)
    ensures Lasts(ls) ==> r.allowed
    ensures Fed(s, ls, r) && Inv(r) && r.level == 0 && TopLoose(r) && r.mark == EndMark(s.mark, ls)
    ensures base != [] && base <= Stack(r) && Closed(r, base) == goal
  {
    hide Fed, Inv, Closed;
  }

  /** `:` in the column of `?`, and a node. */
  lemma {:induction false} AskedValueFed(it: Item, s: Scan, b: seq<int>, c: nat) returns (r: Scan)
    requires it.colon != [] && it.colon[0].what.Colon? && it.colon[0].start.column == c && BlockWell(it.value, c, it.colon[0].after, true)
    requires Inv(s) && s.level == 0 && TopLoose(s) && b != [] && b <= Stack(s) && b[|b| - 1] == c && (|b| < |Stack(s)| ==> Stack(s)[|b|] > c)
    requires MayStart(s, it.colon[0].start) && Consecutive(s.mark, [it.colon[0]] + Lexemes(it.value))
    ensures Read(s, [it.colon[0]] + Lexemes(it.value), b, Closed(s, b) + ([ValueToken] + Spell(Means(it.value))), r)
    decreases it, 0
  {
    hide Inv, Fed, Read, Consecutive, BlockWell, Spell, Lexemes, Means, Closed, Kinds;
    var l := it.colon[0];
    ChainFirst(s.mark, [l] + Lexemes(it.value));
    var m := ColonBlockFed(s, l, b);
    ChainSplit(s.mark, [l], Lexemes(it.value));
    NodeIsDue(it.value, m, c, b, l.after, true);
    r := BlockFed(it.value, m, true);
    EndOne(s.mark, l);
    ItemRead(s, [l], m, it.value, b, r);
    assert Closed(s, b) + [ValueToken] + Spell(Means(it.value)) == Closed(s, b) + ([ValueToken] + Spell(Means(it.value)));
  }

  lemma {:induction false} AskItemFed(it: Item, s: Scan, base: seq<int>, c: nat, free: bool) returns (r: Scan)
    requires it.lead == [] && AskWell(it, c, s.mark, free) && BlockWell(it.key, c, it.asks[0].after, true)
    requires it.colon != [] ==> BlockWell(it.value, c, it.colon[0].after, true)
    requires ItemsDue(BlockMap, ItemLexemes(it), s, base, c, free)
    ensures Read(s, ItemLexemes(it), Deepened(base, c),
                 Closed(s, base) + (Opener(base, c, BlockMappingStartToken) + SpellEntry(BlockMap, ItemMeans(BlockMap, it), true)), r)
    decreases it, 1
  {
    hide Inv, Fed, Read, Consecutive, BlockWell, Spell, Lexemes, Means, Closed, ItemLexemes, SpellEntry, Kinds;
    var b, head := Deepened(base, c), [it.asks[0]] + Lexemes(it.key);
    var o, key := Opener(base, c, BlockMappingStartToken), Spell(Means(it.key));
    AskLexemes(it);
    AskSpelled(it);
    if it.colon == [] {
      assert ItemLexemes(it) == head && SpellEntry(BlockMap, ItemMeans(BlockMap, it), true) == [KeyToken] + key;
      r := AskedNodeFed(it, s, base, c, free);
    } else {
      var tail := [it.colon[0]] + Lexemes(it.value);
      ChainSplit(s.mark, head, tail);
      var m := AskedNodeFed(it, s, base, c, free);
      ReadLasts(s, head, b, Closed(s, base) + (o + ([KeyToken] + key)), m);
      DeepestLevel(m, base, c);
      HeadEnd(s.mark, it.asks[0], Lexemes(it.key));
      r := AskedValueFed(it, m, b, c);
      var v := [ValueToken] + Spell(Means(it.value));
      assert Closed(s, base) + (o + ([KeyToken] + key)) + v == Closed(s, base) + (o + ([KeyToken] + key + v));
      LastRead(s, head, m, tail, b, Closed(s, base) + (o + ([KeyToken] + key + v)), r);
    }
  }

  lemma {:induction false} HeadEnd(mark: Mark, l: Lexeme, ls: seq<Lexeme>)
    ensures EndMark(mark, [l] + ls) == EndMark(l.after, ls)
  {
  }

  lemma {:induction false} AskLexemes(it: Item)
    requires it.lead == [] && |it.asks| == 1 && AtMost(it.colon, Colon) && (it.colon == [] ==> it.value.Gone?)
    ensures ItemLexemes(it) == [it.asks[0]] + Lexemes(it.key) + (if it.colon == [] then [] else [it.colon[0]] + Lexemes(it.value))
  {
    assert it.asks == [it.asks[0]];
    if it.colon != [] {
      assert it.colon == [it.colon[0]];
    } else {
      assert Lexemes(it.value) == [];
    }
  }

  lemma {:induction false} AskSpelled(it: Item)
    requires it.asks != [] || it.colon != []
    ensures SpellEntry(BlockMap, ItemMeans(BlockMap, it), true)
      == [KeyToken] + Spell(Means(it.key)) + (if it.colon != [] then [ValueToken] + Spell(Means(it.value)) else [])
  {
    hide Spell, Means;
    var e := ItemMeans(BlockMap, it);
    assert SpellPair(e) == [KeyToken] + Spell(e.key) + SpellValue(e);
  }

  /** A simple key, `:` and a node. */
  lemma {:induction false} SimpleItemFed(it: Item, s: Scan, base: seq<int>, c: nat, free: bool) returns (r: Scan)
    requires it.lead == [] && it.asks == [] && SimpleWell(it, c, s.mark, free) && BlockWell(it.value, c, it.colon[0].after, false)
    requires ItemsDue(BlockMap, ItemLexemes(it), s, base, c, free)
    ensures Read(s, ItemLexemes(it), Deepened(base, c),
                 Closed(s, base) + (Opener(base, c, BlockMappingStartToken) + SpellEntry(BlockMap, ItemMeans(BlockMap, it), true)), r)
    decreases it, 1
  {
    hide Inv, Fed, Read, Consecutive, BlockWell, FlowWell, Spell, Lexemes, Means, Closed, ItemLexemes, SpellEntry, CanArrive, Kinds, OneLine;
    var l, key := it.colon[0], Lexemes(it.key);
    var b, o, k := Deepened(base, c), Opener(base, c, BlockMappingStartToken), Spell(Means(it.key));
    SimpleLexemes(it);
    AskSpelled(it);
    ChainSplit(s.mark, key + [l], Lexemes(it.value));
    assert ItemLexemes(it)[0] == key[0];
    ArrivesAt(BlockMap, ItemLexemes(it), s, base, c, free);
    var m := KeyLineFed(it.key, s, l, base);
    KeyEnd(s.mark, key, l);
    NodeIsDue(it.value, m, c, base, l.after, false);
    r := BlockFed(it.value, m, false);
    ItemRead(s, key + [l], m, it.value, b, r);
    var v := Spell(Means(it.value));
    assert Closed(s, base) + (o + ([KeyToken] + (k + [ValueToken]))) + v == Closed(s, base) + (o + ([KeyToken] + k + ([ValueToken] + v)));
  }

  lemma {:induction false} KeyEnd(mark: Mark, ls: seq<Lexeme>, l: Lexeme)
    requires l.what.Colon?
    ensures EndMark(mark, ls + [l]) == l.after && !Lasts(ls + [l])
  {
  }

  lemma {:induction false} SimpleLexemes(it: Item)
    requires it.lead == [] && it.asks == [] && |it.colon| == 1
    ensures ItemLexemes(it) == (Lexemes(it.key) + [it.colon[0]]) + Lexemes(it.value)
  {
    assert it.colon == [it.colon[0]];
  }

  lemma {:induction false} BlockItemFed(style: Style, it: Item, s: Scan, base: seq<int>, c: nat, free: bool) returns (r: Scan)
    requires BlockItemWell(style, it, c, s.mark, free) && ItemsDue(style, ItemLexemes(it), s, base, c, free)
    ensures Read(s, ItemLexemes(it), Deepened(base, c),
                 Closed(s, base) + (Opener(base, c, StartKind(style)) + SpellEntry(style, ItemMeans(style, it), true)), r)
    decreases it, 2
  {
    hide Inv, Read, Consecutive, BlockWell, SpellEntry, DashWell, AskWell, SimpleWell, ItemLexemes, Closed;
    if style.BlockMap? {
      if it.asks != [] {
        r := AskItemFed(it, s, base, c, free);
      } else {
        SimpleAsks(it);
        r := SimpleItemFed(it, s, base, c, free);
      }
    } else {
      r := DashItemFed(style, it, s, base, c, free);
    }
  }

  lemma {:induction false} SimpleAsks(it: Item)
    requires it.lead == []
    ensures it.lead + it.asks == it.asks
  {
  }

  /** The entries of a block collection, up to where the next lexeme stands left of it. */
  lemma {:induction false} BlockItemsFed(style: Style, items: seq<Item>, s: Scan, base: seq<int>, c: nat, free: bool) returns (r: Scan)
    requires items != [] && BlockItemsWell(style, items, c, s.mark, free) && ItemsDue(style, AllLexemes(items), s, base, c, free)
    ensures Read(s, AllLexemes(items), Deepened(base, c),
                 Closed(s, base) + (Opener(base, c, StartKind(style)) + SpellEntries(style, AllMean(style, items), true)), r)
    decreases items, 3
  {
    hide Inv, Fed, Read, Consecutive, BlockItemWell, SpellEntry, ItemLexemes, Closed, ItemMeans;
    var b, o := Deepened(base, c), Opener(base, c, StartKind(style));
    var it, rest := items[0], items[1..];
    var e, more := SpellEntry(style, ItemMeans(style, it), true), SpellEntries(style, AllMean(style, rest), true);
    ChainSplit(s.mark, ItemLexemes(it), AllLexemes(rest));
    var m := BlockItemFed(style, it, s, base, c, free);
    ReadLasts(s, ItemLexemes(it), b, Closed(s, base) + (o + e), m);
    ItemsSpelled(style, items);
    if rest == [] {
      r := m;
      assert AllLexemes(items) == ItemLexemes(it) && o + e == o + (e + []);
    } else {
      DeepestLevel(m, base, c);
      r := BlockItemsFed(style, rest, m, b, c, Lasts(ItemLexemes(it)));
      assert Closed(m, b) + ([] + more) == Closed(s, base) + (o + (e + more));
      RestNotEmpty(style, rest, c, m.mark, Lasts(ItemLexemes(it)));
      LastRead(s, ItemLexemes(it), m, AllLexemes(rest), b, Closed(s, base) + (o + (e + more)), r);
    }
  }

  lemma {:induction false} RestNotEmpty(style: Style, items: seq<Item>, c: nat, mark: Mark, free: bool)
    requires items != [] && BlockItemsWell(style, items, c, mark, free)
    ensures AllLexemes(items) != []
  {
  }

  lemma {:induction false} ItemsSpelled(style: Style, items: seq<Item>)
    requires items != [] && IsBlock(style)
    ensures SpellEntries(style, AllMean(style, items), true)
      == SpellEntry(style, ItemMeans(style, items[0]), true)
         + (if items[1..] == [] then [] else SpellEntries(style, AllMean(style, items[1..]), true))
  {
    hide ItemMeans;
    assert AllMean(style, items)[1..] == AllMean(style, items[1..]);
    FirstDoesNotMatter(style, AllMean(style, items[1..]));
  }

  lemma {:induction false} FirstDoesNotMatter(style: Style, es: seq<Entry>)
    requires IsBlock(style)
    ensures SpellEntries(style, es, false) == SpellEntries(style, es, true)
  {
    if es != [] {
      assert SpellEntry(style, es[0], false) == SpellEntry(style, es[0], true) by { hide Spell, SpellPair, SpellValue; }
    }
  }

  lemma {:induction false} CollectionFed(n: Layout, s: Scan, free: bool) returns (r: Scan)
    requires Due(n, s, free) && n.Block?
    ensures Read(s, Lexemes(n), Stack(s), Kinds(s.tokens) + Spell(Means(n)), r)
    decreases n, 0
  {
    hide Inv, Fed, Read, Consecutive, BlockItemsWell, AllLexemes, SpellEntries, AllMean, Closed, WellProps, Kinds;
    var items, base := n.items, Stack(s);
    var c := FirstOf(items[0])[0].start.column;
    var begins := free && n.props == [];
    ChainSplit(s.mark, n.props, AllLexemes(items));
    var m := PropsFed(n.props, s);
    PropsRead(s, n.props, m);
    CollectionIsBlock(n, c, EndMark(s.mark, n.props), begins);
    assert base[|base| - 1] == s.indent;
    r := BlockItemsFed(n.style, items, m, base, c, begins);
    ClosedNow(m);
    var es := SpellEntries(n.style, AllMean(n.style, items), true);
    BlockSpelled(n);
    CollectionEnds(n, AllLexemes(items), m, base, c, es, r);
    LastRead(s, n.props, m, AllLexemes(items), base, Kinds(m.tokens) + (Opening(n.style) + (es + YamlGrammar.Closing(n.style))), r);
    assert Kinds(m.tokens) + (Opening(n.style) + (es + YamlGrammar.Closing(n.style))) == Kinds(s.tokens) + Spell(Means(n));
  }

  lemma {:induction false} CollectionIsBlock(n: Layout, c: nat, mark: Mark, free: bool)
    requires n.Block? && n.items != [] && BlockItemsWell(n.style, n.items, c, mark, free)
    ensures IsBlock(n.style) && AllLexemes(n.items) != []
  {
    RestNotEmpty(n.style, n.items, c, mark, free);
  }

  lemma {:induction false} BlockSpelled(n: Layout)
    requires n.Block? && WellProps(n.props)
    ensures Spell(Means(n)) == KindsOf(n.props)
      + (Opening(n.style) + (SpellEntries(n.style, AllMean(n.style, n.items), true) + YamlGrammar.Closing(n.style)))
  {
    hide SpellProps, WellProps, Opening, KindsOf, PropsOf, AllMean, SpellEntries;
    PropsSpelled(n.props);
    CollectionSpelled(Means(n));
    assert Tail(n.style, false) == YamlGrammar.Closing(n.style);
  }

  /** A collection with a level of its own is closed with it. */
  lemma {:induction false} CollectionEnds(n: Layout, ls: seq<Lexeme>, m: Scan, base: seq<int>, c: nat, es: seq<TokenKind>, r: Scan)
    requires n.Block? && IsBlock(n.style) && base != [] && (if n.style.Indentless? then c == base[|base| - 1] else c > base[|base| - 1])
    requires |base| <= |Stack(m)| && Closed(m, base) == Kinds(m.tokens)
    requires Read(m, ls, Deepened(base, c), Closed(m, base) + (Opener(base, c, StartKind(n.style)) + es), r)
    ensures Read(m, ls, base, Kinds(m.tokens) + (Opening(n.style) + (es + YamlGrammar.Closing(n.style))), r)
  {
    hide Fed, Inv, Closed, Kinds;
    var ks, o := Kinds(m.tokens), Opening(n.style);
    if n.style.Indentless? {
      assert ks + (o + (es + YamlGrammar.Closing(n.style))) == ks + ([] + es);
    } else {
      ClosedBelow(r, base, c);
      assert ks + ([StartKind(n.style)] + es) + [BlockEndToken] == ks + (o + (es + YamlGrammar.Closing(n.style)));
    }
  }
}
