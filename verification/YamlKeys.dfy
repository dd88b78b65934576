/** What the scanner's fetchers do, as functions on values: simple keys, indentation
    levels, and the tokens they put in front of tokens already scanned.  The tokens are
    numbered from the start of the stream, handed out or not. */
module YamlKeys {
  import opened YamlTokens

  /** A place where a KEY token may still have to be put. */
  datatype SimpleKey = SimpleKey(possible: bool, required: bool, number: nat, mark: Mark)

  const NO_KEY := SimpleKey(false, false, 0, Mark(0, 0, 0))

  /** What the characters at the current place are taken for. */
  datatype Lexical =
    | Done
    | Directive(kind: TokenKind)
    | DocumentMarker(kind: TokenKind)
    | FlowOpen(kind: TokenKind)
    | FlowClose(kind: TokenKind)
    | Comma
    | Dash
    | Question
    | Colon
    | Property(kind: TokenKind)
    | Quoted(kind: TokenKind)
    | Plain(kind: TokenKind, ranOn: bool)
    | BlockText(kind: TokenKind)
    | Nothing

  /** One fetch: where the characters start, where the token ends, where the scanner
      stands afterwards, and whether they could be scanned at all. */
  datatype Lexeme = Lexeme(what: Lexical, start: Mark, end: Mark, after: Mark, scans: bool)

  predicate IsPunctuation(w: Lexical) {
    w.FlowOpen? || w.FlowClose? || w.Comma? || w.Dash? || w.Question? || w.Colon?
  }

  predicate IsBlockStart(k: TokenKind) {
    k.BlockSequenceStartToken? || k.BlockMappingStartToken?
  }

  predicate IsBlockBracket(k: TokenKind) {
    IsBlockStart(k) || k.BlockEndToken?
  }

  /** Not later in the text. */
  predicate Reaches(a: Mark, b: Mark) {
    a.index <= b.index && (a.line < b.line || (a.line == b.line && a.column <= b.column))
  }

  /** Earlier in the text, by a character at least. */
  predicate Precedes(a: Mark, b: Mark) {
    a.index <= b.index && (a.line < b.line || (a.line == b.line && a.column < b.column))
  }

  predicate ProperKind(w: Lexical) {
    match w
    case Directive(k) => k.VersionDirectiveToken? || k.TagDirectiveToken?
    case DocumentMarker(k) => k.DocumentStartToken? || k.DocumentEndToken?
    case FlowOpen(k) => k.FlowSequenceStartToken? || k.FlowMappingStartToken?
    case FlowClose(k) => k.FlowSequenceEndToken? || k.FlowMappingEndToken?
    case Property(k) => k.AliasToken? || k.AnchorToken? || k.TagToken?
    case Quoted(k) => k.ScalarToken?
    case Plain(k, _) => k.ScalarToken?
    case BlockText(k) => k.ScalarToken?
    case _ => true
  }

  /** A lexeme the text can hold behind `mark`. */
  predicate Follows(mark: Mark, l: Lexeme) {
    && ProperKind(l.what)
    && Reaches(mark, l.start)
    && (l.what.Done? || l.what.Nothing? || Precedes(l.start, l.after))
    && (IsPunctuation(l.what) || l.what.DocumentMarker? ==> l.after.line == l.start.line)
    && (l.what.Plain? && l.what.ranOn ==> l.start.line < l.after.line)
  }

  datatype Scan = Scan(
    tokens: seq<Token>,
    keys: seq<SimpleKey>,
    allowed: bool,
    level: nat,
    indent: int,
    indents: seq<int>,
    mark: Mark,
    // Not in the scanner: the line of the outermost open flow collection, and whether
    // the last lexeme outside flow collections began on an earlier line than it ended on.
    openLine: nat,
    resumed: bool)

  datatype Result = Good(scan: Scan) | Failure | Panic

  function Start(mark: Mark): Scan {
    Scan([Token(StreamStartToken, mark, mark)], [NO_KEY], true, 0, -1, [], mark, 0, false)
  }

  // ---------------------------------------------------------- simple keys

  /** A simple key stays on one line and within 1024 characters. */
  predicate IsStale(k: SimpleKey, mark: Mark) {
    k.possible && (k.mark.line < mark.line || k.mark.index + 1024 < mark.index)
  }

  function DropIfStale(k: SimpleKey, mark: Mark): SimpleKey {
    if IsStale(k, mark) then k.(possible := false) else k
  }

  function Fresh(keys: seq<SimpleKey>, mark: Mark): (r: seq<SimpleKey>)
    ensures |r| == |keys|
  {
    seq(|keys|, i requires 0 <= i < |keys| => DropIfStale(keys[i], mark))
  }

  predicate MissesValue(keys: seq<SimpleKey>, mark: Mark) {
    exists i :: 0 <= i < |keys| && IsStale(keys[i], mark) && keys[i].required
  }

  function StaleKeys(s: Scan): Result {
    if MissesValue(s.keys, s.mark) then Failure else Good(s.(keys := Fresh(s.keys, s.mark)))
  }

  function RemoveKey(s: Scan): Result
    requires s.keys != []
  {
    var top := |s.keys| - 1;
    if s.keys[top].possible && s.keys[top].required then Failure
    else Good(s.(keys := s.keys[top := s.keys[top].(possible := false)]))
  }

  predicate IsRequired(s: Scan) {
    s.level == 0 && s.indent == s.mark.column
  }

  function SaveKey(s: Scan): Result
    requires s.keys != []
  {
    if IsRequired(s) && !s.allowed then Panic
    else if s.allowed then
      match RemoveKey(s)
      case Good(r) => Good(r.(keys := r.keys[|r.keys| - 1 := SimpleKey(true, IsRequired(s), |s.tokens|, s.mark)]))
      case other => other
    else Good(s)
  }

  // ---------------------------------------------------------- indentation

  function Push(s: Scan, k: TokenKind, start: Mark, end: Mark): Scan {
    s.(tokens := s.tokens + [Token(k, start, end)])
  }

  function Insert<T>(q: seq<T>, i: nat, x: T): seq<T>
    requires i <= |q|
  {
    q[..i] + [x] + q[i..]
  }

  function InsertAt(s: Scan, number: nat, k: TokenKind, mark: Mark): Scan
    requires number <= |s.tokens|
  {
    s.(tokens := Insert(s.tokens, number, Token(k, mark, mark)))
  }

  /** Open an indentation level if the column lies deeper than the current one. */
  function Roll(s: Scan, column: nat, number: nat, k: TokenKind, mark: Mark): Scan
    requires number <= |s.tokens|
  {
    if s.level > 0 || s.indent >= column then s
    else InsertAt(s.(indents := s.indents + [s.indent], indent := column), number, k, mark)
  }

  predicate Levels(indents: seq<int>, indent: int) {
    && (forall i, j | 0 <= i < j < |indents| :: indents[i] < indents[j])
    && (forall i | 0 <= i < |indents| :: indents[i] < indent)
    && (if indents == [] then indent == -1 else indents[0] == -1)
  }

  /** Close the levels deeper than the column. */
  function Unroll(s: Scan, column: int): (r: Scan)
    requires Levels(s.indents, s.indent) && column >= -1
    ensures r == s.(tokens := r.tokens, indent := r.indent, indents := r.indents)
    ensures Levels(r.indents, r.indent) && |s.tokens| <= |r.tokens| && (s.level == 0 ==> r.indent <= column)
    decreases |s.indents|
  {
    if s.level > 0 || s.indent <= column then s
    else
      var p := Push(s, BlockEndToken, s.mark, s.mark);
      Unroll(p.(indent := s.indents[|s.indents| - 1], indents := s.indents[..|s.indents| - 1]), column)
  }

  // -------------------------------------------------------------- fetchers

  /** The scanner has consumed a lexeme and puts its token last. */
  function Take(s: Scan, k: TokenKind, l: Lexeme, allowed: bool): Result {
    if !l.scans then Failure
    else Good(Push(s, k, l.start, l.end).(mark := l.after, allowed := allowed,
                resumed := s.level == 0 && !allowed && l.start.line < l.after.line))
  }

  ghost predicate CanFetch(s: Scan) {
    && |s.keys| == s.level + 1
    && Levels(s.indents, s.indent)
    && forall i | 0 <= i < |s.keys| && s.keys[i].possible :: s.keys[i].number < |s.tokens|
  }

  function FetchDone(s: Scan): Result
    requires CanFetch(s)
  {
    var m := if s.mark.column != 0 then s.mark.(column := 0, line := s.mark.line + 1) else s.mark;
    match RemoveKey(Unroll(s.(mark := m), -1))
    case Good(r) => Good(Push(r, StreamEndToken, m, m).(allowed := false, resumed := false))
    case other => other
  }

  function FetchMarker(s: Scan, k: TokenKind, l: Lexeme): Result
    requires CanFetch(s)
  {
    match RemoveKey(Unroll(s, -1))
    case Good(r) => Take(r, k, l, false)
    case other => other
  }

  function FetchOpen(s: Scan, k: TokenKind, l: Lexeme): Result
    requires CanFetch(s)
  {
    match SaveKey(s)
    case Good(r) =>
      Take(r.(keys := r.keys + [NO_KEY], level := r.level + 1,
              openLine := if r.level == 0 then l.start.line else r.openLine), k, l, true)
    case other => other
  }

  function FetchClose(s: Scan, k: TokenKind, l: Lexeme): Result
    requires CanFetch(s)
  {
    match RemoveKey(s)
    case Good(r) =>
      (match Take(if r.level > 0 then r.(level := r.level - 1, keys := r.keys[..|r.keys| - 1]) else r, k, l, false)
       case Good(t) => Good(t.(resumed := s.level == 1 && s.openLine < l.start.line))
       case other => other)
    case other => other
  }

  function FetchComma(s: Scan, l: Lexeme): Result
    requires CanFetch(s)
  {
    match RemoveKey(s)
    case Good(r) => Take(r, FlowEntryToken, l, true)
    case other => other
  }

  /** `-`, and `?` with a key of any kind behind it. */
  function FetchEntry(s: Scan, opener: TokenKind, k: TokenKind, l: Lexeme, allowed: bool): Result
    requires CanFetch(s)
  {
    if s.level == 0 && !s.allowed then Failure
    else
      match RemoveKey(Roll(s, s.mark.column, |s.tokens|, opener, s.mark))
      case Good(r) => Take(r, k, l, allowed)
      case other => other
  }

  /** `:`; if a simple key is possible, it gets its KEY token now, and its mapping a start. */
  function FetchValue(s: Scan, l: Lexeme): Result
    requires CanFetch(s)
  {
    var top := |s.keys| - 1;
    var key := s.keys[top];
    if key.possible then
      var a := InsertAt(s, key.number, KeyToken, key.mark);
      var b := Roll(a, key.mark.column, key.number, BlockMappingStartToken, key.mark);
      Take(b.(keys := b.keys[top := key.(possible := false)]), ValueToken, l, false)
    else if s.level == 0 && !s.allowed then Failure
    else
      var b := Roll(s, s.mark.column, |s.tokens|, BlockMappingStartToken, s.mark);
      Take(b, ValueToken, l, b.level == 0)
  }

  /** Aliases, anchors, tags, quoted and plain scalars: a simple key may start there. */
  function FetchKeyable(s: Scan, k: TokenKind, l: Lexeme, allowed: bool): Result
    requires CanFetch(s)
  {
    match SaveKey(s)
    case Good(r) => Take(r, k, l, allowed)
    case other => other
  }

  function FetchBlockText(s: Scan, k: TokenKind, l: Lexeme): Result
    requires CanFetch(s)
  {
    match RemoveKey(s)
    case Good(r) => Take(r, k, l, true)
    case other => other
  }

  /** The lexeme decides. */
  function FetchAt(s: Scan, l: Lexeme): Result
    requires CanFetch(s)
  {
    match l.what
    case Done => FetchDone(s)
    case Directive(k) => FetchMarker(s, k, l)
    case DocumentMarker(k) => FetchMarker(s, k, l)
    case FlowOpen(k) => FetchOpen(s, k, l)
    case FlowClose(k) => FetchClose(s, k, l)
    case Comma => FetchComma(s, l)
    case Dash => FetchEntry(s, BlockSequenceStartToken, BlockEntryToken, l, true)
    case Question => FetchEntry(s, BlockMappingStartToken, KeyToken, l, s.level == 0)
    case Colon => FetchValue(s, l)
    case Property(k) => FetchKeyable(s, k, l, false)
    case Quoted(k) => FetchKeyable(s, k, l, false)
    case Plain(k, ranOn) => FetchKeyable(s, k, l, ranOn)
    case BlockText(k) => FetchBlockText(s, k, l)
    case Nothing => Failure
  }

  /** Blanks, comments and line breaks in front of the lexeme. */
  function Approach(s: Scan, start: Mark): Scan {
    s.(mark := start,
       allowed := s.allowed || (s.level == 0 && s.mark.line < start.line),
       resumed := s.resumed && s.mark.line == start.line)
  }

  /** Ready for the lexeme: stale keys dropped, deeper levels closed. */
  function Settle(s: Scan, start: Mark): (r: Result)
    requires CanFetch(s)
    ensures r.Good? ==> CanFetch(r.scan)
  {
    match StaleKeys(Approach(s, start))
    case Good(r) => Good(Unroll(r, start.column))
    case other => other
  }

  function Fetch(s: Scan, l: Lexeme): Result
    requires CanFetch(s)
  {
    match Settle(s, l.start)
    case Good(r) => FetchAt(r, l)
    case other => other
  }

  // ------------------------------------------------------------- invariant

  /** Every possible key points at the token that starts where the key would start;
      keys of inner levels point at later tokens. */
  ghost predicate KeysPlaced(s: Scan)
    requires CanFetch(s)
  {
    && (forall i | 0 <= i < |s.keys| && s.keys[i].possible ::
          s.tokens[s.keys[i].number].start == s.keys[i].mark && Precedes(s.keys[i].mark, s.mark))
    && (forall i, j | 0 <= i < j < |s.keys| && s.keys[i].possible && s.keys[j].possible ::
          s.keys[i].number < s.keys[j].number)
  }

  /** Tokens come in the order of their places in the text, KEY and BLOCK-MAPPING-START included. */
  ghost predicate InOrder(tokens: seq<Token>, mark: Mark) {
    && (forall i, j | 0 <= i <= j < |tokens| :: tokens[i].start.index <= tokens[j].start.index)
    && (forall i | 0 <= i < |tokens| :: tokens[i].start.index <= mark.index)
  }

  /** Block collections open behind a run of tokens. */
  function Depth(tokens: seq<Token>): int {
    if tokens == [] then 0
    else
      var k := tokens[|tokens| - 1].kind;
      Depth(tokens[..|tokens| - 1]) + if IsBlockStart(k) then 1 else if k.BlockEndToken? then -1 else 0
  }

  ghost predicate Balanced(tokens: seq<Token>) {
    forall k | 0 <= k <= |tokens| :: Depth(tokens[..k]) >= 0
  }

  /** No block collection starts or ends from token `number` on. */
  ghost predicate FlowOnly(tokens: seq<Token>, number: nat) {
    forall j | number <= j < |tokens| :: !IsBlockBracket(tokens[j].kind)
  }

  ghost predicate Nested(s: Scan) {
    && Depth(s.tokens) == |s.indents|
    && Balanced(s.tokens)
    && forall i | 0 <= i < |s.keys| && s.keys[i].possible :: FlowOnly(s.tokens, s.keys[i].number)
  }

  /** Where the scanner can stand relative to the current indentation. */
  ghost predicate Columns(s: Scan)
    requires CanFetch(s)
  {
    && (s.keys[0].possible ==> s.indent <= s.keys[0].mark.column)
    && (s.level == 0 && s.keys[0].possible && s.keys[0].mark.line == s.mark.line ==> !s.allowed)
    && (s.level == 0 && !s.allowed && !s.resumed ==> s.indent < s.mark.column)
    && (s.level > 0 ==> s.openLine <= s.mark.line)
    && (s.level > 0 && s.openLine == s.mark.line ==> s.indent < s.mark.column)
    && (s.resumed ==> s.level == 0 && !s.allowed)
  }

  ghost predicate Inv(s: Scan) {
    CanFetch(s) && KeysPlaced(s) && InOrder(s.tokens, s.mark) && Nested(s) && Columns(s)
  }

  lemma StartInv(mark: Mark)
    ensures Inv(Start(mark))
  {
    var t := Start(mark).tokens;
    assert t[..0] == [] && t[..1] == t;
  }

  // ------------------------------------------------------------ list facts

  lemma DepthPush(tokens: seq<Token>, t: Token)
    ensures Depth(tokens + [t]) == Depth(tokens) + if IsBlockStart(t.kind) then 1 else if t.kind.BlockEndToken? then -1 else 0
  {
    assert (tokens + [t])[..|tokens|] == tokens;
  }

  lemma BalancedPush(tokens: seq<Token>, t: Token)
    requires Balanced(tokens) && (t.kind.BlockEndToken? ==> Depth(tokens) > 0)
    ensures Balanced(tokens + [t])
  {
    var more := tokens + [t];
    DepthPush(tokens, t);
    forall k | 0 <= k <= |more| ensures Depth(more[..k]) >= 0 {
      if k <= |tokens| {
        assert more[..k] == tokens[..k];
      } else {
        assert more[..k] == more && tokens[..|tokens|] == tokens;
      }
    }
  }

  /** Behind the place of insertion all depths shift by the same amount. */
  lemma {:induction false} DepthInsert(tokens: seq<Token>, i: nat, t: Token, k: nat)
    requires i <= k <= |tokens|
    ensures Depth(Insert(tokens, i, t)[..k + 1])
         == Depth(tokens[..k]) + if IsBlockStart(t.kind) then 1 else if t.kind.BlockEndToken? then -1 else 0
  {
    var more := Insert(tokens, i, t);
    if k == i {
      assert more[..k + 1] == tokens[..i] + [t];
      DepthPush(tokens[..i], t);
    } else {
      DepthInsert(tokens, i, t, k - 1);
      assert more[..k + 1] == more[..k] + [tokens[k - 1]];
      assert tokens[..k] == tokens[..k - 1] + [tokens[k - 1]];
      DepthPush(more[..k], tokens[k - 1]);
      DepthPush(tokens[..k - 1], tokens[k - 1]);
    }
  }

  lemma BalancedInsert(tokens: seq<Token>, i: nat, t: Token)
    requires i <= |tokens| && Balanced(tokens) && !t.kind.BlockEndToken?
    ensures Balanced(Insert(tokens, i, t))
    ensures Depth(Insert(tokens, i, t)) == Depth(tokens) + if IsBlockStart(t.kind) then 1 else 0
  {
    hide Depth, Insert;
    var more := Insert(tokens, i, t);
    InsertLength(tokens, i, t);
    forall k | 0 <= k <= |more| ensures Depth(more[..k]) >= 0 {
      if k <= i {
        InsertFront(tokens, i, t, k);
      } else {
        DepthInsert(tokens, i, t, k - 1);
      }
    }
    DepthInsert(tokens, i, t, |tokens|);
    assert more[..|tokens| + 1] == more && tokens[..|tokens|] == tokens;
  }

  lemma InsertLength<T>(q: seq<T>, i: nat, x: T)
    requires i <= |q|
    ensures |Insert(q, i, x)| == |q| + 1
  {
  }

  lemma InsertFront<T>(q: seq<T>, i: nat, x: T, k: nat)
    requires k <= i <= |q|
    ensures |Insert(q, i, x)| == |q| + 1 && Insert(q, i, x)[..k] == q[..k]
  {
  }

  lemma OrderPush(tokens: seq<Token>, mark: Mark, t: Token, after: Mark)
    requires InOrder(tokens, mark) && t.start == mark && mark.index <= after.index
    ensures InOrder(tokens + [t], after)
  {
  }

  /** A token put in front of one that starts at the same place keeps the order. */
  lemma OrderInsert(tokens: seq<Token>, mark: Mark, i: nat, t: Token)
    requires InOrder(tokens, mark) && i < |tokens| && t.start == tokens[i].start
    ensures InOrder(Insert(tokens, i, t), mark)
  {
    var more := Insert(tokens, i, t);
    forall a, b | 0 <= a <= b < |more| ensures more[a].start.index <= more[b].start.index {
      var p, q := if a < i then a else if a == i then i else a - 1, if b < i then b else if b == i then i else b - 1;
      assert more[a].start == tokens[p].start && more[b].start == tokens[q].start;
    }
  }
}
