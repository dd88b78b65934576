/** Handing tokens out while later ones are still being fetched gives the same tokens as
    fetching everything first; and when the scanner panics. */
module YamlLookahead {
  import opened YamlTokens
  import opened YamlKeys
  import opened YamlKeysInvariant

  /** The first `p` tokens can be handed out: no key may still start in front of one of them. */
  ghost predicate Free(s: Scan, p: nat) {
    p <= |s.tokens| && forall i | 0 <= i < |s.keys| && s.keys[i].possible :: p <= s.keys[i].number
  }

  /** What a step does to tokens handed out: nothing. */
  ghost predicate Extends(s: Scan, p: nat, r: Scan) {
    Free(r, p) && |s.tokens| <= |r.tokens| && p <= |s.tokens| && r.tokens[..p] == s.tokens[..p]
  }

  lemma ExtendsTake(s: Scan, p: nat, r: Scan, k: TokenKind, l: Lexeme, allowed: bool)
    requires Extends(s, p, r) && l.scans
    ensures Extends(s, p, Take(r, k, l, allowed).scan) && |Take(r, k, l, allowed).scan.tokens| > |s.tokens|
    ensures Take(r, k, l, allowed).scan.mark == l.after
  {
    assert (r.tokens + [Token(k, l.start, l.end)])[..p] == r.tokens[..p];
  }

  lemma ExtendsUnroll(s: Scan, p: nat, column: int)
    requires Inv(s) && column >= -1 && Free(s, p)
    ensures Extends(s, p, Unroll(s, column))
  {
    hide Depth, Balanced, KeysPlaced, InOrder, Columns;
    UnrollKeeps(s, column);
  }

  lemma ExtendsRemove(s: Scan, p: nat, r: Scan)
    requires Extends(s, p, r) && r.keys != []
    ensures RemoveKey(r).Good? ==> Extends(s, p, RemoveKey(r).scan) && RemoveKey(r).scan == r.(keys := RemoveKey(r).scan.keys)
                                   && |RemoveKey(r).scan.keys| == |r.keys|
  {
  }

  lemma ExtendsSave(s: Scan, p: nat)
    requires CanFetch(s) && Free(s, p)
    ensures SaveKey(s).Good? ==> Extends(s, p, SaveKey(s).scan) && SaveKey(s).scan == s.(keys := SaveKey(s).scan.keys)
  {
  }

  lemma ExtendsRoll(s: Scan, p: nat, r: Scan, column: nat, number: nat, k: TokenKind, mark: Mark)
    requires Extends(s, p, r) && p <= number <= |r.tokens|
    ensures Extends(s, p, Roll(r, column, number, k, mark)) && Extends(s, p, InsertAt(r, number, k, mark))
  {
    InsertFront(r.tokens, number, Token(k, mark, mark), p);
    hide Insert;
  }

  ghost predicate Took(s: Scan, p: nat, l: Lexeme, r: Result) {
    r.Good? ==> Extends(s, p, r.scan) && |r.scan.tokens| > |s.tokens| && (l.what.Done? || r.scan.mark == l.after)
  }

  lemma DoneTook(s: Scan, p: nat, l: Lexeme)
    requires Inv(s) && Free(s, p) && l.what.Done?
    ensures Took(s, p, l, FetchDone(s))
  {
    hide Nested, KeysPlaced, Columns, Extends;
    var m := if s.mark.column != 0 then s.mark.(column := 0, line := s.mark.line + 1) else s.mark;
    var f := s.(mark := m);
    ForceLine(s, m);
    ExtendsUnrollAll(f, p);
    ExtendsRemove(f, p, Unroll(f, -1));
    var r := RemoveKey(Unroll(f, -1));
    if r.Good? {
      assert Extends(s, p, Push(r.scan, StreamEndToken, m, m).(allowed := false, resumed := false)) by {
        ExtendsPush(f, p, r.scan, Token(StreamEndToken, m, m));
        ExtendsFrom(f, s, p, Push(r.scan, StreamEndToken, m, m).(allowed := false, resumed := false));
      }
      assert |r.scan.tokens| >= |s.tokens| by { ExtendsLonger(f, p, r.scan); }
    }
  }

  lemma ExtendsUnrollAll(s: Scan, p: nat)
    requires Halfway(s) && CanFetch(s) && Free(s, p)
    ensures Extends(s, p, Unroll(s, -1))
  {
    hide Depth, Balanced, InOrder;
    UnrollKeeps(s, -1);
  }

  lemma ExtendsPush(s: Scan, p: nat, r: Scan, t: Token)
    requires Extends(s, p, r)
    ensures Extends(s, p, r.(tokens := r.tokens + [t], allowed := false, resumed := false))
  {
    assert (r.tokens + [t])[..p] == r.tokens[..p];
  }

  lemma ExtendsFrom(f: Scan, s: Scan, p: nat, r: Scan)
    requires Extends(f, p, r) && f.tokens == s.tokens
    ensures Extends(s, p, r)
  {
  }

  lemma ExtendsLonger(s: Scan, p: nat, r: Scan)
    requires Extends(s, p, r)
    ensures |r.tokens| >= |s.tokens|
  {
  }

  lemma ExtendsFree(s: Scan, p: nat, r: Scan)
    requires Extends(s, p, r)
    ensures Free(r, p)
  {
  }

  lemma ExtendsMore(s: Scan, p: nat, r: Scan, q: Scan)
    requires Extends(s, p, r) && q == r.(resumed := q.resumed)
    ensures Extends(s, p, q)
  {
  }

  /** Flow levels come and go without possible keys. */
  lemma ExtendsLevels(s: Scan, p: nat, r: Scan, q: Scan)
    requires Extends(s, p, r) && q.tokens == r.tokens
    requires q.keys == r.keys + [NO_KEY] || (r.keys != [] && q.keys == r.keys[..|r.keys| - 1])
    ensures Extends(s, p, q)
  {
    forall i | 0 <= i < |q.keys| && q.keys[i].possible ensures p <= q.keys[i].number {
      assert q.keys[i] == r.keys[i];
    }
  }

  lemma ExtendsSame(s: Scan, p: nat)
    requires Free(s, p)
    ensures Extends(s, p, s)
  {
  }

  lemma MarkerTook(s: Scan, p: nat, k: TokenKind, l: Lexeme)
    requires Inv(s) && Free(s, p)
    ensures Took(s, p, l, FetchMarker(s, k, l))
  {
    hide Nested, KeysPlaced, Columns, Extends;
    ExtendsUnroll(s, p, -1);
    ExtendsRemove(s, p, Unroll(s, -1));
    if RemoveKey(Unroll(s, -1)).Good? && l.scans {
      ExtendsTake(s, p, RemoveKey(Unroll(s, -1)).scan, k, l, false);
    }
  }

  lemma OpenTook(s: Scan, p: nat, k: TokenKind, l: Lexeme)
    requires CanFetch(s) && Free(s, p)
    ensures Took(s, p, l, FetchOpen(s, k, l))
  {
    hide SaveKey, Extends, Levels, Free;
    ExtendsSave(s, p);
    if SaveKey(s).Good? && l.scans {
      var r := SaveKey(s).scan;
      var q := r.(keys := r.keys + [NO_KEY], level := r.level + 1, openLine := if r.level == 0 then l.start.line else r.openLine);
      ExtendsLevels(s, p, r, q);
      ExtendsTake(s, p, q, k, l, true);
    }
  }

  lemma CloseTook(s: Scan, p: nat, k: TokenKind, l: Lexeme)
    requires CanFetch(s) && Free(s, p)
    ensures Took(s, p, l, FetchClose(s, k, l))
  {
    hide RemoveKey, Extends, Levels, Free;
    ExtendsSame(s, p);
    ExtendsRemove(s, p, s);
    if RemoveKey(s).Good? && l.scans {
      var r := RemoveKey(s).scan;
      var q := if r.level > 0 then r.(level := r.level - 1, keys := r.keys[..|r.keys| - 1]) else r;
      if r.level > 0 {
        ExtendsLevels(s, p, r, q);
      }
      ExtendsTake(s, p, q, k, l, false);
      var t := Take(q, k, l, false).scan;
      ExtendsMore(s, p, t, t.(resumed := s.level == 1 && s.openLine < l.start.line));
    }
  }

  /** `,` and block scalars. */
  lemma RemovingTook(s: Scan, p: nat, k: TokenKind, l: Lexeme)
    requires CanFetch(s) && Free(s, p)
    ensures k.FlowEntryToken? ==> Took(s, p, l, FetchComma(s, l))
    ensures Took(s, p, l, FetchBlockText(s, k, l))
  {
    ExtendsSame(s, p);
    ExtendsRemove(s, p, s);
    hide RemoveKey, Extends;
    if RemoveKey(s).Good? && l.scans {
      ExtendsTake(s, p, RemoveKey(s).scan, k, l, true);
    }
  }

  lemma KeyableTook(s: Scan, p: nat, k: TokenKind, l: Lexeme, allowed: bool)
    requires CanFetch(s) && Free(s, p)
    ensures Took(s, p, l, FetchKeyable(s, k, l, allowed))
  {
    ExtendsSave(s, p);
    hide SaveKey, Extends;
    if SaveKey(s).Good? && l.scans {
      ExtendsTake(s, p, SaveKey(s).scan, k, l, allowed);
    }
  }

  lemma EntryTook(s: Scan, p: nat, opener: TokenKind, k: TokenKind, l: Lexeme, allowed: bool)
    requires CanFetch(s) && Free(s, p)
    ensures Took(s, p, l, FetchEntry(s, opener, k, l, allowed))
  {
    ExtendsSame(s, p);
    ExtendsRoll(s, p, s, s.mark.column, |s.tokens|, opener, s.mark);
    var r := Roll(s, s.mark.column, |s.tokens|, opener, s.mark);
    assert r.keys == s.keys;
    ExtendsRemove(s, p, r);
    hide RemoveKey, Extends, Roll;
    if RemoveKey(r).Good? && l.scans {
      ExtendsTake(s, p, RemoveKey(r).scan, k, l, allowed);
    }
  }

  lemma ValueTook(s: Scan, p: nat, l: Lexeme)
    requires CanFetch(s) && Free(s, p)
    ensures Took(s, p, l, FetchValue(s, l))
  {
    ExtendsSame(s, p);
    var top := |s.keys| - 1;
    var key := s.keys[top];
    if key.possible {
      ExtendsRoll(s, p, s, 0, key.number, KeyToken, key.mark);
      var a := InsertAt(s, key.number, KeyToken, key.mark);
      assert a.keys == s.keys && |a.tokens| > |s.tokens|;
      ExtendsRoll(s, p, a, key.mark.column, key.number, BlockMappingStartToken, key.mark);
      var b := Roll(a, key.mark.column, key.number, BlockMappingStartToken, key.mark);
      assert b.keys == s.keys;
      var q := b.(keys := b.keys[top := key.(possible := false)]);
      assert Extends(s, p, q);
      hide Extends, Roll, InsertAt;
      if l.scans {
        ExtendsTake(s, p, q, ValueToken, l, false);
      }
    } else {
      ExtendsRoll(s, p, s, s.mark.column, |s.tokens|, BlockMappingStartToken, s.mark);
      var b := Roll(s, s.mark.column, |s.tokens|, BlockMappingStartToken, s.mark);
      hide Extends, Roll;
      if l.scans {
        ExtendsTake(s, p, b, ValueToken, l, b.level == 0);
      }
    }
  }

  lemma FetchAtTook(s: Scan, p: nat, l: Lexeme)
    requires Inv(s) && Free(s, p)
    ensures Took(s, p, l, FetchAt(s, l))
  {
    hide Took, Nested, InOrder, KeysPlaced, Columns, FetchDone, FetchMarker, FetchOpen, FetchClose, FetchComma,
         FetchEntry,
      FetchValue, FetchKeyable, FetchBlockText;
    match l.what
    case Done => DoneTook(s, p, l);
    case Directive(k) => MarkerTook(s, p, k, l);
    case DocumentMarker(k) => MarkerTook(s, p, k, l);
    case FlowOpen(k) => OpenTook(s, p, k, l);
    case FlowClose(k) => CloseTook(s, p, k, l);
    case Comma => RemovingTook(s, p, FlowEntryToken, l);
    case Dash => EntryTook(s, p, BlockSequenceStartToken, BlockEntryToken, l, true);
    case Question => EntryTook(s, p, BlockMappingStartToken, KeyToken, l, s.level == 0);
    case Colon => ValueTook(s, p, l);
    case Property(k) => KeyableTook(s, p, k, l, false);
    case Quoted(k) => KeyableTook(s, p, k, l, false);
    case Plain(k, ranOn) => KeyableTook(s, p, k, l, ranOn);
    case BlockText(k) => RemovingTook(s, p, k, l);
    case Nothing => assert Took(s, p, l, Failure) by { TookFailure(s, p, l); }
  }

  lemma TookFailure(s: Scan, p: nat, l: Lexeme)
    ensures Took(s, p, l, Failure)
  {
  }

  /** A fetch adds a token at least, and leaves tokens alone that have been handed out. */
  lemma FetchExtends(s: Scan, p: nat, l: Lexeme)
    requires Inv(s) && Follows(s.mark, l) && Free(s, p)
    ensures Took(s, p, l, Fetch(s, l))
  {
    hide Nested, InOrder, KeysPlaced, Columns, FetchAt, Settle, Extends;
    if Settle(s, l.start).Good? {
      var r := Settle(s, l.start).scan;
      SettleKeeps(s, l.start);
      SettleFree(s, p, l.start);
      ExtendsFree(s, p, r);
      FetchAtTook(r, p, l);
      Chain(s, p, r, l);
    }
  }

  lemma SettleFree(s: Scan, p: nat, start: Mark)
    requires Inv(s) && Reaches(s.mark, start) && Free(s, p) && Settle(s, start).Good?
    ensures Extends(s, p, Settle(s, start).scan)
  {
    hide Depth, Balanced, InOrder, StaleKeys, Approach, Unroll;
    StaleKeeps(s, start);
    StaleKeys1(s, start);
    var m := StaleKeys(Approach(s, start)).scan;
    UnrollKeeps(m, start.column);
  }

  lemma StaleKeys1(s: Scan, start: Mark)
    requires StaleKeys(Approach(s, start)).Good?
    ensures var r := StaleKeys(Approach(s, start)).scan;
      r.tokens == s.tokens && |r.keys| == |s.keys| && forall i | 0 <= i < |r.keys| && r.keys[i].possible :: r.keys[i] == s.keys[i]
  {
  }

  lemma Chain(s: Scan, p: nat, r: Scan, l: Lexeme)
    requires CanFetch(r) && Extends(s, p, r) && Took(r, p, l, FetchAt(r, l))
    ensures Took(s, p, l, FetchAt(r, l))
  {
    hide FetchAt;
  }

  // ---------------------------------------------------------- the whole text

  /** A text from `mark` on: lexemes in order, the end of the input last and only there. */
  ghost predicate Text(mark: Mark, ls: seq<Lexeme>)
    decreases |ls|
  {
    && ls != []
    && Follows(mark, ls[0])
    && (ls[0].what.Done? <==> |ls| == 1)
    && (|ls| > 1 ==> Text(ls[0].after, ls[1..]))
  }

  /** Fetch everything, hand out nothing. */
  ghost function FetchAll(s: Scan, ls: seq<Lexeme>): Result
    requires Inv(s) && Text(s.mark, ls)
    decreases |ls|
  {
    FetchKeeps(s, ls[0]);
    FetchMoves(s, ls[0]);
    match Fetch(s, ls[0])
    case Good(r) => if |ls| == 1 then Good(r) else FetchAll(r, ls[1..])
    case other => other
  }

  lemma FetchMoves(s: Scan, l: Lexeme)
    requires Inv(s) && Follows(s.mark, l)
    ensures Fetch(s, l).Good? ==> l.what.Done? || Fetch(s, l).scan.mark == l.after
  {
    hide Nested, InOrder, KeysPlaced, Columns, Levels, Fetch;
    assert Free(s, 0);
    FetchExtends(s, 0, l);
  }

  /** Tokens handed out in the middle are tokens of the whole. */
  lemma {:induction false} FetchAllExtends(s: Scan, p: nat, ls: seq<Lexeme>)
    requires Inv(s) && Text(s.mark, ls) && Free(s, p)
    ensures FetchAll(s, ls).Good? ==> p <= |FetchAll(s, ls).scan.tokens| && s.tokens[..p] == FetchAll(s, ls).scan.tokens[..p]
    decreases |ls|
  {
    hide Nested, InOrder, KeysPlaced, Columns, Levels, Fetch, Follows;
    FetchExtends(s, p, ls[0]);
    FetchKeeps(s, ls[0]);
    FetchMoves(s, ls[0]);
    if Fetch(s, ls[0]).Good? && |ls| > 1 {
      FetchAllExtends(Fetch(s, ls[0]).scan, p, ls[1..]);
    }
  }

  // ------------------------------------------------------ dropping stale keys

  /** Dropping stale keys early changes nothing for the next fetch. */
  lemma StaleNeutral(s: Scan, l: Lexeme)
    requires Inv(s) && Follows(s.mark, l)
    ensures match StaleKeys(s)
            case Good(r) => Inv(r) && r == s.(keys := r.keys) && Fetch(r, l) == Fetch(s, l)
            case other => other == Failure && Fetch(s, l) == Failure
  {
    hide Nested, InOrder, KeysPlaced, Columns, Levels, FetchAt, Unroll;
    assert Approach(s, s.mark) == s;
    if StaleKeys(s).Good? {
      StaleKeeps(s, s.mark);
      var r := StaleKeys(s).scan;
      assert Fresh(r.keys, l.start) == Fresh(s.keys, l.start);
      forall i | 0 <= i < |s.keys|
        ensures IsStale(s.keys[i], l.start) && s.keys[i].required <==> IsStale(r.keys[i], l.start) && r.keys[i].required
      {
      }
      assert MissesValue(r.keys, l.start) <==> MissesValue(s.keys, l.start) by {
        if MissesValue(s.keys, l.start) {
          var i :| 0 <= i < |s.keys| && IsStale(s.keys[i], l.start) && s.keys[i].required;
          assert IsStale(r.keys[i], l.start) && r.keys[i].required;
        }
      }
    } else {
      var i :| 0 <= i < |s.keys| && IsStale(s.keys[i], s.mark) && s.keys[i].required;
      assert IsStale(s.keys[i], l.start);
    }
  }

  lemma StaleFree(s: Scan, p: nat)
    requires Free(s, p) && StaleKeys(s).Good?
    ensures Free(StaleKeys(s).scan, p)
  {
  }

  // ------------------------------------------------- first and last token

  /** STREAM-START and STREAM-END do not occur behind the first token. */
  ghost predicate Inner(tokens: seq<Token>) {
    forall i | 1 <= i < |tokens| :: !tokens[i].kind.StreamStartToken? && !tokens[i].kind.StreamEndToken?
  }

  /** STREAM-START first and only there, STREAM-END last and only there. */
  ghost predicate Sealed(tokens: seq<Token>) {
    && |tokens| >= 2 && tokens[0].kind.StreamStartToken? && tokens[|tokens| - 1].kind.StreamEndToken?
    && Inner(tokens[..|tokens| - 1])
  }

  predicate IsInner(k: TokenKind) {
    !k.StreamStartToken? && !k.StreamEndToken?
  }

  lemma InnerInsert(tokens: seq<Token>, i: nat, t: Token)
    requires Inner(tokens) && 1 <= i <= |tokens| && IsInner(t.kind)
    ensures Inner(Insert(tokens, i, t))
  {
    var more := Insert(tokens, i, t);
    forall j | 1 <= j < |more| ensures !more[j].kind.StreamStartToken? && !more[j].kind.StreamEndToken? {
      assert more[j] == if j < i then tokens[j] else if j == i then t else tokens[j - 1];
    }
  }

  lemma {:induction false} InnerUnroll(s: Scan, column: int)
    requires Levels(s.indents, s.indent) && column >= -1 && Inner(s.tokens)
    ensures Inner(Unroll(s, column).tokens)
    decreases |s.indents|
  {
    if s.level == 0 && s.indent > column {
      InnerUnroll(Push(s, BlockEndToken, s.mark, s.mark).(indent := s.indents[|s.indents| - 1], indents := s.indents[..|s.indents| - 1]), column);
    }
  }

  lemma InnerRoll(s: Scan, column: nat, number: nat, k: TokenKind, mark: Mark)
    requires Inner(s.tokens) && 1 <= number <= |s.tokens| && IsInner(k)
    ensures Inner(Roll(s, column, number, k, mark).tokens) && Inner(InsertAt(s, number, k, mark).tokens)
  {
    InnerInsert(s.tokens, number, Token(k, mark, mark));
    hide Inner, Insert;
  }

  lemma InnerTake(s: Scan, k: TokenKind, l: Lexeme, allowed: bool)
    requires Inner(s.tokens) && s.tokens != [] && IsInner(k)
    ensures Take(s, k, l, allowed).Good? ==> Inner(Take(s, k, l, allowed).scan.tokens)
  {
  }

  lemma InnerValue(s: Scan, l: Lexeme)
    requires CanFetch(s) && Free(s, 1) && Inner(s.tokens)
    ensures FetchValue(s, l).Good? ==> Inner(FetchValue(s, l).scan.tokens)
  {
    hide Inner, Roll, InsertAt, Take, Levels;
    var top := |s.keys| - 1;
    var key := s.keys[top];
    if key.possible {
      InnerRoll(s, 0, key.number, KeyToken, key.mark);
      InsertLength(s.tokens, key.number, Token(KeyToken, key.mark, key.mark));
      var a := InsertAt(s, key.number, KeyToken, key.mark);
      InsertGrows(s, key.number, KeyToken, key.mark);
      InnerRoll(a, key.mark.column, key.number, BlockMappingStartToken, key.mark);
      var b := Roll(a, key.mark.column, key.number, BlockMappingStartToken, key.mark);
      RollGrows(a, key.mark.column, key.number, BlockMappingStartToken, key.mark);
      InnerTake(b.(keys := b.keys[top := key.(possible := false)]), ValueToken, l, false);
    } else {
      InnerRoll(s, s.mark.column, |s.tokens|, BlockMappingStartToken, s.mark);
      RollGrows(s, s.mark.column, |s.tokens|, BlockMappingStartToken, s.mark);
      var b := Roll(s, s.mark.column, |s.tokens|, BlockMappingStartToken, s.mark);
      InnerTake(b, ValueToken, l, b.level == 0);
    }
  }

  lemma InsertGrows(s: Scan, number: nat, k: TokenKind, mark: Mark)
    requires number <= |s.tokens|
    ensures InsertAt(s, number, k, mark) == s.(tokens := InsertAt(s, number, k, mark).tokens)
    ensures |InsertAt(s, number, k, mark).tokens| == |s.tokens| + 1
  {
  }

  lemma RollGrows(s: Scan, column: nat, number: nat, k: TokenKind, mark: Mark)
    requires number <= |s.tokens|
    ensures var r := Roll(s, column, number, k, mark);
      r == s.(tokens := r.tokens, indent := r.indent, indents := r.indents) && |s.tokens| <= |r.tokens|
  {
  }

  lemma InnerFetchAt(s: Scan, l: Lexeme)
    requires CanFetch(s) && Free(s, 1) && Inner(s.tokens) && ProperKind(l.what) && !l.what.Done? && FetchAt(s, l).Good?
    ensures Inner(FetchAt(s, l).scan.tokens)
  {
    hide Inner, Roll, InsertAt, Levels, Unroll;
    match l.what
    case Colon => InnerValue(s, l);
    case Dash =>
      InnerRoll(s, s.mark.column, |s.tokens|, BlockSequenceStartToken, s.mark);
      RollGrows(s, s.mark.column, |s.tokens|, BlockSequenceStartToken, s.mark);
      InnerTake(RemoveKey(Roll(s, s.mark.column, |s.tokens|, BlockSequenceStartToken, s.mark)).scan, BlockEntryToken, l, true);
    case Question =>
      InnerRoll(s, s.mark.column, |s.tokens|, BlockMappingStartToken, s.mark);
      RollGrows(s, s.mark.column, |s.tokens|, BlockMappingStartToken, s.mark);
      InnerTake(RemoveKey(Roll(s, s.mark.column, |s.tokens|, BlockMappingStartToken, s.mark)).scan, KeyToken, l, s.level == 0);
    case Directive(k) => InnerMarker(s, k, l);
    case DocumentMarker(k) => InnerMarker(s, k, l);
    case FlowOpen(k) => InnerTake(s, k, l, true);
    case FlowClose(k) => InnerTake(s, k, l, false);
    case Comma => InnerTake(s, FlowEntryToken, l, true);
    case Property(k) => InnerTake(s, k, l, false);
    case Quoted(k) => InnerTake(s, k, l, false);
    case Plain(k, ranOn) => InnerTake(s, k, l, ranOn);
    case BlockText(k) => InnerTake(s, k, l, true);
  }

  lemma InnerMarker(s: Scan, k: TokenKind, l: Lexeme)
    requires CanFetch(s) && Free(s, 1) && Inner(s.tokens) && IsInner(k) && FetchMarker(s, k, l).Good?
    ensures Inner(FetchMarker(s, k, l).scan.tokens)
  {
    InnerUnroll(s, -1);
    hide Inner, Levels, Unroll;
    InnerTake(RemoveKey(Unroll(s, -1)).scan, k, l, false);
  }

  lemma SealedDone(s: Scan)
    requires CanFetch(s) && Free(s, 1) && Inner(s.tokens) && s.tokens[0].kind.StreamStartToken? && FetchDone(s).Good?
    requires Free(FetchDone(s).scan, 1) && FetchDone(s).scan.tokens[..1] == s.tokens[..1]
    ensures Sealed(FetchDone(s).scan.tokens)
  {
    var m := if s.mark.column != 0 then s.mark.(column := 0, line := s.mark.line + 1) else s.mark;
    var f := s.(mark := m);
    InnerUnroll(f, -1);
    hide Inner, Levels, Unroll;
    var r := FetchDone(s).scan;
    assert r.tokens[..|r.tokens| - 1] == Unroll(f, -1).tokens;
    assert r.tokens[0] == r.tokens[..1][0] && s.tokens[0] == s.tokens[..1][0];
  }

  // --------------------------------------------------------- whole runs

  /** All keys that are still possible are on earlier lines. */
  ghost predicate Ended(s: Scan) {
    forall i | 0 <= i < |s.keys| && s.keys[i].possible :: s.keys[i].mark.line < s.mark.line
  }

  lemma FetchAllStep(s: Scan, p: nat, ls: seq<Lexeme>)
    requires Inv(s) && Text(s.mark, ls) && Free(s, p)
    ensures Follows(s.mark, ls[0])
    ensures match Fetch(s, ls[0])
            case Good(r) => Inv(r) && Free(r, p) && |r.tokens| > |s.tokens| && r.tokens[..p] == s.tokens[..p] &&
              (if |ls| == 1 then ls[0].what.Done? && FetchAll(s, ls) == Good(r) && Ended(r)
               else !ls[0].what.Done? && Text(r.mark, ls[1..]) && FetchAll(s, ls) == FetchAll(r, ls[1..]))
            case other => FetchAll(s, ls) == other
  {
    hide Nested, InOrder, KeysPlaced, Columns, Levels, Fetch, Follows, Ended;
    FetchExtends(s, p, ls[0]);
    FetchKeeps(s, ls[0]);
    FetchMoves(s, ls[0]);
    if |ls| == 1 {
      FetchEnds(s, ls[0]);
    }
  }

  lemma FetchEnds(s: Scan, l: Lexeme)
    requires Inv(s) && Follows(s.mark, l) && l.what.Done?
    ensures Fetch(s, l).Good? ==> Ended(Fetch(s, l).scan)
  {
    hide Nested, InOrder, KeysPlaced, Columns, Levels, Settle, FetchDone;
    if Settle(s, l.start).Good? {
      SettleKeeps(s, l.start);
      DoneKeeps(Settle(s, l.start).scan, l);
    }
  }

  lemma InnerFetch(s: Scan, l: Lexeme)
    requires Inv(s) && Follows(s.mark, l) && Free(s, 1) && Inner(s.tokens) && s.tokens[0].kind.StreamStartToken?
    ensures match Fetch(s, l)
            case Good(r) => if l.what.Done? then Sealed(r.tokens) && (r.level == 0 ==> r.indents == [])
                            else Inner(r.tokens) && Free(r, 1) && r.tokens[0].kind.StreamStartToken?
            case other => true
  {
    hide Nested, InOrder, KeysPlaced, Columns, Levels, FetchAt, Settle, Inner, Sealed, Unroll;
    FetchExtends(s, 1, l);
    if Fetch(s, l).Good? {
      var m := Settle(s, l.start).scan;
      SettleKeeps(s, l.start);
      SettleFree(s, 1, l.start);
      InnerSettle(s, l.start);
      var r := Fetch(s, l).scan;
      assert r.tokens[0] == r.tokens[..1][0] && s.tokens[0] == s.tokens[..1][0] && m.tokens[0] == m.tokens[..1][0];
      if l.what.Done? {
        assert r == FetchDone(m).scan by { AtDone(m, l); }
        SealedDone(m);
        DoneCloses(m);
      } else {
        InnerFetchAt(m, l);
      }
    }
  }

  lemma AtDone(s: Scan, l: Lexeme)
    requires CanFetch(s) && l.what.Done?
    ensures FetchAt(s, l) == FetchDone(s)
  {
    hide FetchDone;
  }

  lemma DoneCloses(s: Scan)
    requires CanFetch(s) && FetchDone(s).Good?
    ensures FetchDone(s).scan.level == 0 ==> FetchDone(s).scan.indents == []
  {
    var m := if s.mark.column != 0 then s.mark.(column := 0, line := s.mark.line + 1) else s.mark;
    var u := Unroll(s.(mark := m), -1);
    hide Unroll;
    assert Levels(u.indents, u.indent) && (s.level == 0 ==> u.indent <= -1);
  }

  lemma InnerSettle(s: Scan, start: Mark)
    requires CanFetch(s) && Inner(s.tokens) && Settle(s, start).Good?
    ensures Inner(Settle(s, start).scan.tokens)
  {
    hide Inner, Levels, Unroll;
    InnerUnroll(StaleKeys(Approach(s, start)).scan, start.column);
  }

  /** Fetching a whole text: STREAM-START first, STREAM-END last, tokens in the order of the
      text, block collections nested, and all closed unless a flow collection is left open. */
  lemma {:induction false} FetchAllSeals(s: Scan, ls: seq<Lexeme>)
    requires Inv(s) && Text(s.mark, ls) && Free(s, 1) && Inner(s.tokens) && s.tokens[0].kind.StreamStartToken?
    ensures match FetchAll(s, ls)
            case Good(r) => Sealed(r.tokens) && InOrder(r.tokens, r.mark) && Balanced(r.tokens) && (r.level == 0 ==> Depth(r.tokens) == 0)
            case other => true
    decreases |ls|
  {
    hide InOrder, KeysPlaced, Columns, Levels, Fetch, Follows, Sealed, Inner, Depth, Balanced, Ended;
    FetchAllStep(s, 1, ls);
    InnerFetch(s, ls[0]);
    if Fetch(s, ls[0]).Good? && |ls| > 1 {
      FetchAllSeals(Fetch(s, ls[0]).scan, ls[1..]);
    }
  }


  lemma FreeCount(s: Scan, p: nat)
    requires Free(s, p)
    ensures p <= |s.tokens|
  {
  }

  lemma DropsNothing(s: Scan, ls: seq<Lexeme>, p: nat)
    requires Inv(s) && Text(s.mark, ls) && Free(s, p) && Free(s, 1)
    ensures StaleKeys(s).Good? ==>
              && Inv(StaleKeys(s).scan) && StaleKeys(s).scan == s.(keys := StaleKeys(s).scan.keys)
              && FetchAll(StaleKeys(s).scan, ls) == FetchAll(s, ls) && Free(StaleKeys(s).scan, p) && Free(StaleKeys(s).scan, 1)
    ensures !StaleKeys(s).Good? ==> StaleKeys(s) == Failure && FetchAll(s, ls) == Failure
  {
    hide Nested, InOrder, KeysPlaced, Columns, Levels, Fetch, Follows, StaleKeys, Free;
    FetchAllStep(s, 1, ls);
    StaleNeutral(s, ls[0]);
    if StaleKeys(s).Good? {
      StaleFree(s, p);
      StaleFree(s, 1);
      FetchAllStep(StaleKeys(s).scan, 1, ls);
    }
  }

  /** At the end every possible key is stale. */
  lemma DropsAll(s: Scan, goal: Scan, p: nat)
    requires Inv(s) && Ended(s) && Free(s, p) && Free(s, 1)
    requires goal == s.(keys := goal.keys) && |goal.keys| == |s.keys|
    requires forall i | 0 <= i < |s.keys| ::
               s.keys[i] == goal.keys[i] || (!goal.keys[i].required && s.keys[i] == goal.keys[i].(possible := false))
    ensures StaleKeys(s).Good? <==> !MissesValue(goal.keys, goal.mark)
    ensures StaleKeys(s).Good? ==> var r := StaleKeys(s).scan;
      && Inv(r) && r == s.(keys := r.keys) && Ended(r) && Free(r, p) && Free(r, 1) && |r.keys| == |s.keys|
      && (forall i | 0 <= i < |r.keys| :: !r.keys[i].possible)
      && (forall i | 0 <= i < |r.keys| ::
            r.keys[i] == goal.keys[i] || (!goal.keys[i].required && r.keys[i] == goal.keys[i].(possible := false)))
    ensures !StaleKeys(s).Good? ==> StaleKeys(s) == Failure
  {
    hide Nested, InOrder, KeysPlaced, Columns, Levels;
    if MissesValue(goal.keys, goal.mark) {
      var i :| 0 <= i < |goal.keys| && IsStale(goal.keys[i], goal.mark) && goal.keys[i].required;
      assert IsStale(s.keys[i], s.mark) && s.keys[i].required;
    }
    if MissesValue(s.keys, s.mark) {
      var i :| 0 <= i < |s.keys| && IsStale(s.keys[i], s.mark) && s.keys[i].required;
      assert IsStale(goal.keys[i], goal.mark) && goal.keys[i].required;
    } else {
      assert Approach(s, s.mark) == s;
      StaleKeeps(s, s.mark);
      var r := StaleKeys(s).scan;
      forall i | 0 <= i < |r.keys|
        ensures !r.keys[i].possible
             && (r.keys[i] == goal.keys[i] || (!goal.keys[i].required && r.keys[i] == goal.keys[i].(possible := false)))
      {
        assert s.keys[i].possible ==> IsStale(s.keys[i], s.mark) && !s.keys[i].required;
      }
    }
  }

  /** The tokens of a text. */
  ghost function Tokenised(start: Mark, ls: seq<Lexeme>): Result
    requires Text(start, ls)
  {
    StartInv(start);
    FetchAll(Start(start), ls)
  }

  lemma TokenisedSeals(start: Mark, ls: seq<Lexeme>)
    requires Text(start, ls)
    ensures match Tokenised(start, ls)
            case Good(r) => Sealed(r.tokens) && InOrder(r.tokens, r.mark) && Balanced(r.tokens) && (r.level == 0 ==> Depth(r.tokens) == 0)
            case other => true
  {
    hide FetchAll, Text, Sealed, InOrder, Balanced, Depth;
    StartInv(start);
    FetchAllSeals(Start(start), ls);
  }

  // -------------------------------------------------------------- the panic

  /** Lexemes in front of which a simple key may start. */
  predicate StartsKey(w: Lexical) {
    w.FlowOpen? || w.Property? || w.Quoted? || w.Plain?
  }

  lemma FetchAtPanics(s: Scan, l: Lexeme)
    requires CanFetch(s)
    ensures FetchAt(s, l) == Panic <==> StartsKey(l.what) && IsRequired(s) && !s.allowed
  {
    hide Unroll, Roll, Levels, InsertAt;
  }

  /** The check that "should not happen" fails exactly when something that could be a key
      stands at an open indentation level behind a construct that began on an earlier line. */
  lemma PanicsExactly(s: Scan, l: Lexeme)
    requires Inv(s) && Follows(s.mark, l)
    ensures Fetch(s, l) == Panic <==>
              && StartsKey(l.what) && s.level == 0 && s.resumed && s.mark.line == l.start.line
              && l.start.column in s.indents + [s.indent] && !MissesValue(s.keys, l.start)
  {
    hide Nested, InOrder, KeysPlaced, FetchAt, MissesValue, Levels;
    if Settle(s, l.start).Good? {
      var m := StaleKeys(Approach(s, l.start)).scan;
      StaleKeeps(s, l.start);
      FetchAtPanics(Settle(s, l.start).scan, l);
      if s.level == 0 {
        UnrollStops(m, l.start.column);
      }
    }
  }

  const DASH := Lexeme(Dash, Mark(0, 0, 0), Mark(1, 0, 1), Mark(1, 0, 1), true)
  const SECOND_DASH := Lexeme(Dash, Mark(2, 0, 2), Mark(3, 0, 3), Mark(3, 0, 3), true)
  const BRACKET := Lexeme(FlowOpen(FlowSequenceStartToken), Mark(4, 0, 4), Mark(5, 0, 5), Mark(5, 0, 5), true)
  const CLOSING := Lexeme(FlowClose(FlowSequenceEndToken), Mark(6, 1, 0), Mark(7, 1, 1), Mark(7, 1, 1), true)
  const WORD := Lexeme(Plain(ScalarToken("x", true), false), Mark(8, 1, 2), Mark(9, 1, 3), Mark(9, 1, 3), true)
  const FINISH := Lexeme(Done, Mark(9, 1, 3), Mark(9, 1, 3), Mark(9, 1, 3), true)

  lemma AfterDashes() returns (s: Scan)
    ensures Inv(Start(Mark(0, 0, 0)))
    ensures var r := Fetch(Start(Mark(0, 0, 0)), DASH); r.Good? && CanFetch(r.scan) && Fetch(r.scan, SECOND_DASH) == Good(s)
    ensures s.mark == Mark(3, 0, 3) && s.keys == [NO_KEY] && s.allowed && s.level == 0 && s.indent == 2 && s.indents == [-1, 0]
  {
    StartInv(Mark(0, 0, 0));
    var r := Fetch(Start(Mark(0, 0, 0)), DASH).scan;
    assert r.mark == Mark(1, 0, 1) && r.keys == [NO_KEY] && r.allowed && r.level == 0 && r.indent == 0 && r.indents == [-1];
    s := Fetch(r, SECOND_DASH).scan;
  }

  lemma AfterBrackets(s: Scan) returns (r: Scan)
    requires s.mark == Mark(3, 0, 3) && s.keys == [NO_KEY] && s.allowed && s.level == 0 && s.indent == 2 && s.indents == [-1, 0]
    ensures CanFetch(s) && Fetch(s, BRACKET).Good?
    ensures CanFetch(Fetch(s, BRACKET).scan) && Fetch(Fetch(s, BRACKET).scan, CLOSING) == Good(r)
    ensures r.mark == Mark(7, 1, 1) && |r.keys| == 1 && !r.keys[0].possible && !r.allowed
    ensures r.level == 0 && r.indent == 2 && r.indents == [-1, 0]
  {
    var m := Fetch(s, BRACKET).scan;
    assert m.mark == Mark(5, 0, 5) && m.keys == [SimpleKey(true, false, |s.tokens|, Mark(4, 0, 4)), NO_KEY] && m.level == 1;
    r := Fetch(m, CLOSING).scan;
  }

  /** It does happen: a sequence in a sequence whose item `[` is closed on the next line,
      with a word behind the bracket in the column of the inner dash. */
  lemma KeyCheckFails()
    ensures var s := Start(Mark(0, 0, 0));
      var ls := [DASH, SECOND_DASH, BRACKET, CLOSING, WORD, FINISH];
      Inv(s) && Text(s.mark, ls) && FetchAll(s, ls) == Panic
  {
    hide Fetch, FetchAll, Text, Inv, CanFetch;
    var start := Start(Mark(0, 0, 0));
    var s := AfterDashes();
    var r := AfterBrackets(s);
    WordPanics(r);
    TextFinish();
    assert [WORD] + [FINISH] == [WORD, FINISH];
    assert [CLOSING] + [WORD, FINISH] == [CLOSING, WORD, FINISH];
    assert [BRACKET] + [CLOSING, WORD, FINISH] == [BRACKET, CLOSING, WORD, FINISH];
    assert [SECOND_DASH] + [BRACKET, CLOSING, WORD, FINISH] == [SECOND_DASH, BRACKET, CLOSING, WORD, FINISH];
    assert [DASH] + [SECOND_DASH, BRACKET, CLOSING, WORD, FINISH] == [DASH, SECOND_DASH, BRACKET, CLOSING, WORD, FINISH];
    TextCons(r.mark, WORD, [FINISH]);
    TextCons(Mark(5, 0, 5), CLOSING, [WORD, FINISH]);
    TextCons(s.mark, BRACKET, [CLOSING, WORD, FINISH]);
    TextCons(Mark(1, 0, 1), SECOND_DASH, [BRACKET, CLOSING, WORD, FINISH]);
    TextCons(start.mark, DASH, [SECOND_DASH, BRACKET, CLOSING, WORD, FINISH]);
    FetchAllCons(start, DASH, [SECOND_DASH, BRACKET, CLOSING, WORD, FINISH]);
    var m := Fetch(start, DASH).scan;
    FetchAllCons(m, SECOND_DASH, [BRACKET, CLOSING, WORD, FINISH]);
    FetchAllCons(s, BRACKET, [CLOSING, WORD, FINISH]);
    var n := Fetch(s, BRACKET).scan;
    FetchAllCons(n, CLOSING, [WORD, FINISH]);
    FetchAllCons(r, WORD, [FINISH]);
  }

  lemma TextFinish()
    ensures Text(Mark(9, 1, 3), [FINISH])
  {
  }

  lemma TextCons(mark: Mark, l: Lexeme, rest: seq<Lexeme>)
    requires Follows(mark, l) && !l.what.Done? && Text(l.after, rest)
    ensures Text(mark, [l] + rest)
  {
    hide Follows;
    assert ([l] + rest)[1..] == rest;
  }

  lemma FetchAllCons(s: Scan, l: Lexeme, rest: seq<Lexeme>)
    requires Inv(s) && Follows(s.mark, l) && !l.what.Done? && Text(l.after, rest) && Text(s.mark, [l] + rest)
    ensures CanFetch(s)
    ensures Fetch(s, l).Good? ==> Inv(Fetch(s, l).scan) && Fetch(s, l).scan.mark == l.after
                                  && FetchAll(s, [l] + rest) == FetchAll(Fetch(s, l).scan, rest)
    ensures !Fetch(s, l).Good? ==> FetchAll(s, [l] + rest) == Fetch(s, l)
  {
    hide Nested, InOrder, KeysPlaced, Columns, Levels, Fetch, Follows;
    FetchKeeps(s, l);
    FetchMoves(s, l);
    assert ([l] + rest)[1..] == rest;
  }

  lemma WordPanics(r: Scan)
    requires r.mark == Mark(7, 1, 1) && |r.keys| == 1 && !r.keys[0].possible && !r.allowed
    requires r.level == 0 && r.indent == 2 && r.indents == [-1, 0]
    ensures CanFetch(r) && Fetch(r, WORD) == Panic
  {
  }
}

