/** Which token follows the start of a block collection, in the tokens of every text. */
module YamlOpeners {
  import opened YamlTokens
  import opened YamlKeys
  import opened YamlKeysInvariant
  import opened YamlLookahead

  /** The token that goes with the start of a block collection. */
  predicate Opens(start: TokenKind, next: TokenKind) {
    && (start.BlockSequenceStartToken? ==> next.BlockEntryToken?)
    && (start.BlockMappingStartToken? ==> next.KeyToken? || next.ValueToken?)
  }

  /** Each start of a block collection is directly followed by the first token of an entry. */
  predicate Followed(tokens: seq<Token>) {
    forall i | 0 <= i < |tokens| && IsBlockStart(tokens[i].kind) :: i + 1 < |tokens| && Opens(tokens[i].kind, tokens[i + 1].kind)
  }

  /** A token that a simple key may start with; KEY in front of it comes between no start and its entry. */
  predicate Keyable(k: TokenKind) {
    !IsBlockBracket(k) && !k.BlockEntryToken? && !k.KeyToken? && !k.ValueToken?
  }

  ghost predicate Firm(tokens: seq<Token>, keys: seq<SimpleKey>) {
    && Followed(tokens)
    && forall i | 0 <= i < |keys| && keys[i].possible && keys[i].number < |tokens| :: Keyable(tokens[keys[i].number].kind)
  }

  lemma FirmPush(tokens: seq<Token>, keys: seq<SimpleKey>, t: Token)
    requires Firm(tokens, keys) && !IsBlockStart(t.kind)
    requires Keyable(t.kind) || forall i | 0 <= i < |keys| && keys[i].possible :: keys[i].number != |tokens|
    ensures Firm(tokens + [t], keys)
  {
  }

  /** The start of a collection and the token that goes with it. */
  lemma FirmOpen(tokens: seq<Token>, keys: seq<SimpleKey>, start: Token, t: Token)
    requires Firm(tokens, keys) && IsBlockStart(start.kind) && Opens(start.kind, t.kind)
    requires t.kind.BlockEntryToken? || t.kind.KeyToken? || t.kind.ValueToken?
    requires forall i | 0 <= i < |keys| && keys[i].possible :: keys[i].number < |tokens|
    ensures Firm((tokens + [start]) + [t], keys)
  {
  }

  /** KEY, and perhaps the start of a mapping, in front of the token of a key; the keys left are earlier ones. */
  lemma FirmInsert(tokens: seq<Token>, keys: seq<SimpleKey>, number: nat, key: Token, starts: bool, start: Token)
    requires Firm(tokens, keys) && number < |tokens| && Keyable(tokens[number].kind)
    requires key.kind.KeyToken? && start.kind.BlockMappingStartToken?
    requires forall i | 0 <= i < |keys| && keys[i].possible :: keys[i].number < number
    ensures var more := Insert(tokens, number, key);
      Firm(if starts then Insert(more, number, start) else more, keys)
  {
    var more := Insert(tokens, number, key);
    var all := if starts then Insert(more, number, start) else more;
    var n := if starts then 2 else 1;
    assert |all| == |tokens| + n;
    assert forall j | 0 <= j < number :: all[j] == tokens[j];
    assert forall j | number <= j < |tokens| :: all[j + n] == tokens[j];
    forall i | 0 <= i < |all| && IsBlockStart(all[i].kind) ensures i + 1 < |all| && Opens(all[i].kind, all[i + 1].kind) {
      if i < number {
        assert Opens(tokens[i].kind, tokens[i + 1].kind);
      } else if i >= number + n {
        assert all[i] == tokens[i - n];
        assert all[i + 1] == tokens[i - n + 1];
      }
    }
  }

  lemma FirmFewer(tokens: seq<Token>, keys: seq<SimpleKey>, fewer: seq<SimpleKey>)
    requires Firm(tokens, keys)
    requires forall i | 0 <= i < |fewer| && fewer[i].possible ::
      (i < |keys| && fewer[i] == keys[i]) || fewer[i].number >= |tokens|
    ensures Firm(tokens, fewer)
  {
  }

  lemma {:induction false} FirmUnroll(s: Scan, column: int)
    requires Levels(s.indents, s.indent) && column >= -1 && Firm(s.tokens, s.keys)
    requires s.level == 0 && s.indent > column ==> forall i | 0 <= i < |s.keys| && s.keys[i].possible :: s.keys[i].number < |s.tokens|
    ensures Firm(Unroll(s, column).tokens, s.keys)
    decreases |s.indents|
  {
    hide Firm;
    if s.level == 0 && s.indent > column {
      FirmPush(s.tokens, s.keys, Token(BlockEndToken, s.mark, s.mark));
      FirmUnroll(Push(s, BlockEndToken, s.mark, s.mark).(indent := s.indents[|s.indents| - 1], indents := s.indents[..|s.indents| - 1]), column);
    }
  }

  lemma FirmTake(s: Scan, k: TokenKind, l: Lexeme, allowed: bool)
    requires Firm(s.tokens, s.keys) && !IsBlockStart(k)
    requires Keyable(k) || forall i | 0 <= i < |s.keys| && s.keys[i].possible :: s.keys[i].number != |s.tokens|
    ensures Take(s, k, l, allowed).Good? ==> Firm(Take(s, k, l, allowed).scan.tokens, Take(s, k, l, allowed).scan.keys)
  {
    hide Firm;
    FirmPush(s.tokens, s.keys, Token(k, l.start, l.end));
  }

  lemma FirmRemove(s: Scan, r: Scan)
    requires CanFetch(s) && Firm(s.tokens, s.keys) && RemoveKey(s) == Good(r)
    ensures r == s.(keys := r.keys) && Firm(r.tokens, r.keys) && CanFetch(r)
  {
    FirmFewer(s.tokens, s.keys, r.keys);
    hide Firm, Levels;
  }

  lemma FirmSave(s: Scan, r: Scan)
    requires CanFetch(s) && Firm(s.tokens, s.keys) && SaveKey(s) == Good(r)
    ensures r == s.(keys := r.keys) && Firm(r.tokens, r.keys)
  {
    FirmFewer(s.tokens, s.keys, r.keys);
    hide Firm, Levels;
  }

  lemma FirmEntry(s: Scan, opener: TokenKind, k: TokenKind, l: Lexeme, allowed: bool)
    requires CanFetch(s) && Firm(s.tokens, s.keys) && FetchEntry(s, opener, k, l, allowed).Good?
    requires IsBlockStart(opener) && Opens(opener, k) && (k.BlockEntryToken? || k.KeyToken?)
    ensures var r := FetchEntry(s, opener, k, l, allowed).scan; Firm(r.tokens, r.keys)
  {
    hide Levels;
    var a := Roll(s, s.mark.column, |s.tokens|, opener, s.mark);
    var b := RemoveKey(a).scan;
    var start, t := Token(opener, s.mark, s.mark), Token(k, l.start, l.end);
    assert b == a.(keys := b.keys) && |b.keys| == |s.keys|;
    FirmFewer(s.tokens, s.keys, b.keys) by {
      hide Firm;
      assert forall i | 0 <= i < |b.keys| && b.keys[i].possible :: b.keys[i] == s.keys[i];
    }
    assert forall i | 0 <= i < |b.keys| && b.keys[i].possible :: b.keys[i].number < |s.tokens|;
    hide Firm;
    if a.tokens == s.tokens {
      FirmPush(s.tokens, b.keys, t);
    } else {
      assert a.tokens == s.tokens + [start];
      FirmOpen(s.tokens, b.keys, start, t);
    }
  }

  lemma FirmValue(s: Scan, l: Lexeme)
    requires Inv(s) && Firm(s.tokens, s.keys) && FetchValue(s, l).Good?
    ensures var r := FetchValue(s, l).scan; Firm(r.tokens, r.keys)
  {
    hide Levels, InOrder, Nested, Columns, Insert;
    var top := |s.keys| - 1;
    var key := s.keys[top];
    if key.possible {
      var left := s.keys[top := key.(possible := false)];
      var t, start := Token(KeyToken, key.mark, key.mark), Token(BlockMappingStartToken, key.mark, key.mark);
      assert Keyable(s.tokens[key.number].kind);
      FirmFewer(s.tokens, s.keys, left);
      FirmInsert(s.tokens, left, key.number, t, s.level == 0 && s.indent < key.mark.column, start);
      InsertLength(s.tokens, key.number, t);
      hide Firm;
      var a := InsertAt(s, key.number, KeyToken, key.mark);
      var b := Roll(a, key.mark.column, key.number, BlockMappingStartToken, key.mark);
      RollGrows(a, key.mark.column, key.number, BlockMappingStartToken, key.mark);
      var q := b.(keys := left);
      FirmTake(q, ValueToken, l, false);
    } else {
      FirmComplexValue(s, l);
    }
  }

  lemma FirmComplexValue(s: Scan, l: Lexeme)
    requires CanFetch(s) && Firm(s.tokens, s.keys) && FetchValue(s, l).Good? && !s.keys[|s.keys| - 1].possible
    ensures var r := FetchValue(s, l).scan; Firm(r.tokens, r.keys)
  {
    hide Levels, Firm;
    var a := Roll(s, s.mark.column, |s.tokens|, BlockMappingStartToken, s.mark);
    var start, t := Token(BlockMappingStartToken, s.mark, s.mark), Token(ValueToken, l.start, l.end);
    if a.tokens == s.tokens {
      FirmPush(s.tokens, s.keys, t);
    } else {
      assert a.tokens == s.tokens + [start];
      FirmOpen(s.tokens, s.keys, start, t);
    }
  }

  lemma FirmMarker(s: Scan, k: TokenKind, l: Lexeme)
    requires CanFetch(s) && Firm(s.tokens, s.keys) && !IsBlockStart(k) && FetchMarker(s, k, l).Good?
    ensures var r := FetchMarker(s, k, l).scan; Firm(r.tokens, r.keys)
  {
    FirmUnroll(s, -1);
    hide Levels, Unroll, Firm;
    var u := Unroll(s, -1);
    var r := RemoveKey(u).scan;
    assert CanFetch(u);
    FirmRemove(u, r);
    FirmTake(r, k, l, false);
  }

  lemma FirmDone(s: Scan)
    requires CanFetch(s) && Firm(s.tokens, s.keys) && FetchDone(s).Good?
    ensures var r := FetchDone(s).scan; Firm(r.tokens, r.keys)
  {
    var m := if s.mark.column != 0 then s.mark.(column := 0, line := s.mark.line + 1) else s.mark;
    FirmUnroll(s.(mark := m), -1);
    hide Levels, Unroll, Firm;
    var u := Unroll(s.(mark := m), -1);
    var r := RemoveKey(u).scan;
    assert CanFetch(u);
    FirmRemove(u, r);
    FirmPush(r.tokens, r.keys, Token(StreamEndToken, m, m));
  }

  /** `[` and `{`: a key may start there; the new level has none yet. */
  lemma FirmFlowOpen(s: Scan, k: TokenKind, l: Lexeme)
    requires CanFetch(s) && Firm(s.tokens, s.keys) && Keyable(k) && FetchOpen(s, k, l).Good?
    ensures var r := FetchOpen(s, k, l).scan; Firm(r.tokens, r.keys)
  {
    var r := SaveKey(s).scan;
    FirmSave(s, r);
    FirmFewer(r.tokens, r.keys, r.keys + [NO_KEY]);
    hide Levels, SaveKey, Firm;
    FirmTake(r.(keys := r.keys + [NO_KEY], level := r.level + 1, openLine := if r.level == 0 then l.start.line else r.openLine), k, l, true);
  }

  lemma FirmFlowClose(s: Scan, k: TokenKind, l: Lexeme)
    requires CanFetch(s) && Firm(s.tokens, s.keys) && Keyable(k) && FetchClose(s, k, l).Good?
    ensures var r := FetchClose(s, k, l).scan; Firm(r.tokens, r.keys)
  {
    var r := RemoveKey(s).scan;
    FirmRemove(s, r);
    var q := if r.level > 0 then r.(level := r.level - 1, keys := r.keys[..|r.keys| - 1]) else r;
    FirmFewer(r.tokens, r.keys, q.keys);
    hide Levels, RemoveKey, Firm;
    FirmTake(q, k, l, false);
  }

  lemma FirmRemoving(s: Scan, k: TokenKind, l: Lexeme)
    requires CanFetch(s) && Firm(s.tokens, s.keys) && Keyable(k)
    ensures k.FlowEntryToken? && FetchComma(s, l).Good? ==> Firm(FetchComma(s, l).scan.tokens, FetchComma(s, l).scan.keys)
    ensures FetchBlockText(s, k, l).Good? ==> Firm(FetchBlockText(s, k, l).scan.tokens, FetchBlockText(s, k, l).scan.keys)
  {
    if RemoveKey(s).Good? {
      var r := RemoveKey(s).scan;
      FirmRemove(s, r);
      hide Levels, RemoveKey, Firm;
      FirmTake(r, k, l, true);
    }
  }

  lemma FirmKeyable(s: Scan, k: TokenKind, l: Lexeme, allowed: bool)
    requires CanFetch(s) && Firm(s.tokens, s.keys) && Keyable(k) && FetchKeyable(s, k, l, allowed).Good?
    ensures var r := FetchKeyable(s, k, l, allowed).scan; Firm(r.tokens, r.keys)
  {
    var r := SaveKey(s).scan;
    FirmSave(s, r);
    hide Levels, SaveKey, Firm;
    FirmTake(r, k, l, allowed);
  }

  lemma FirmFetchAt(s: Scan, l: Lexeme)
    requires Inv(s) && Firm(s.tokens, s.keys) && ProperKind(l.what) && FetchAt(s, l).Good?
    ensures var r := FetchAt(s, l).scan; Firm(r.tokens, r.keys)
  {
    hide Firm, Nested, InOrder, KeysPlaced, Columns, Levels, FetchDone, FetchMarker, FetchOpen, FetchClose, FetchComma,
         FetchEntry, FetchValue, FetchKeyable, FetchBlockText;
    match l.what
    case Done => FirmDone(s);
    case Directive(k) => FirmMarker(s, k, l);
    case DocumentMarker(k) => FirmMarker(s, k, l);
    case FlowOpen(k) => FirmFlowOpen(s, k, l);
    case FlowClose(k) => FirmFlowClose(s, k, l);
    case Comma => FirmRemoving(s, FlowEntryToken, l);
    case Dash => FirmEntry(s, BlockSequenceStartToken, BlockEntryToken, l, true);
    case Question => FirmEntry(s, BlockMappingStartToken, KeyToken, l, s.level == 0);
    case Colon => FirmValue(s, l);
    case Property(k) => FirmKeyable(s, k, l, false);
    case Quoted(k) => FirmKeyable(s, k, l, false);
    case Plain(k, ranOn) => FirmKeyable(s, k, l, ranOn);
    case BlockText(k) => FirmRemoving(s, k, l);
  }

  lemma FirmSettle(s: Scan, start: Mark)
    requires CanFetch(s) && Firm(s.tokens, s.keys) && Settle(s, start).Good?
    ensures var r := Settle(s, start).scan; Firm(r.tokens, r.keys)
  {
    hide Levels;
    var m := StaleKeys(Approach(s, start)).scan;
    FirmFewer(s.tokens, s.keys, m.keys);
    hide Firm, Unroll;
    FirmUnroll(m, start.column);
  }

  lemma FirmFetch(s: Scan, l: Lexeme)
    requires Inv(s) && Follows(s.mark, l) && Firm(s.tokens, s.keys)
    ensures Fetch(s, l).Good? ==> Firm(Fetch(s, l).scan.tokens, Fetch(s, l).scan.keys)
  {
    hide Nested, InOrder, KeysPlaced, Columns, FetchAt, Settle, Firm, Levels;
    if Settle(s, l.start).Good? {
      SettleKeeps(s, l.start);
      FirmSettle(s, l.start);
      if Fetch(s, l).Good? {
        FirmFetchAt(Settle(s, l.start).scan, l);
      }
    }
  }

  lemma {:induction false} FirmFetchAll(s: Scan, ls: seq<Lexeme>)
    requires Inv(s) && Text(s.mark, ls) && Firm(s.tokens, s.keys)
    ensures FetchAll(s, ls).Good? ==> Followed(FetchAll(s, ls).scan.tokens)
    decreases |ls|
  {
    hide Nested, InOrder, KeysPlaced, Columns, Levels, Fetch, Follows, Followed;
    assert Free(s, 0);
    FetchAllStep(s, 0, ls);
    FirmFetch(s, ls[0]);
    if Fetch(s, ls[0]).Good? && |ls| > 1 {
      FirmFetchAll(Fetch(s, ls[0]).scan, ls[1..]);
    }
  }

  /** In the tokens of every text BLOCK-SEQUENCE-START is directly followed by BLOCK-ENTRY, and
      BLOCK-MAPPING-START by KEY or VALUE. */
  lemma StartsAreFollowed(start: Mark, ls: seq<Lexeme>, i: nat)
    requires Text(start, ls) && Tokenised(start, ls).Good? && i < |Tokenised(start, ls).scan.tokens|
    ensures var ts := Tokenised(start, ls).scan.tokens;
      && (ts[i].kind.BlockSequenceStartToken? ==> i + 1 < |ts| && ts[i + 1].kind.BlockEntryToken?)
      && (ts[i].kind.BlockMappingStartToken? ==> i + 1 < |ts| && (ts[i + 1].kind.KeyToken? || ts[i + 1].kind.ValueToken?))
  {
    hide FetchAll, Text;
    StartInv(start);
    FirmFetchAll(Start(start), ls);
  }
}
