/** The scanner's invariant holds after every fetch, and what follows from it. */
module YamlKeysInvariant {
  import opened YamlTokens
  import opened YamlKeys

  /** Halfway through a fetch: the key saved last may point behind the last token. */
  ghost predicate Halfway(s: Scan) {
    && |s.keys| == s.level + 1 && Levels(s.indents, s.indent)
    && (forall i | 0 <= i < |s.keys| && s.keys[i].possible :: HalfPlaced(s, s.keys[i]))
    && (forall i, j | 0 <= i < j < |s.keys| && s.keys[i].possible && s.keys[j].possible ::
          s.keys[i].number < s.keys[j].number)
    && InOrder(s.tokens, s.mark) && Nested(s)
  }

  ghost predicate HalfPlaced(s: Scan, k: SimpleKey) {
    && k.number <= |s.tokens|
    && (if k.number < |s.tokens| then s.tokens[k.number].start == k.mark && Precedes(k.mark, s.mark) else k.mark == s.mark)
  }

  lemma InvIsHalfway(s: Scan)
    requires Inv(s)
    ensures Halfway(s)
  {
    hide Depth, Balanced, FlowOnly, Levels;
  }

  /** Consuming the lexeme completes the fetch. */
  lemma TakeKeeps(s: Scan, k: TokenKind, l: Lexeme, allowed: bool)
    requires Halfway(s) && s.mark == l.start && Precedes(l.start, l.after) && !IsBlockBracket(k) && l.scans
    ensures var r := Take(s, k, l, allowed).scan;
      CanFetch(r) && KeysPlaced(r) && InOrder(r.tokens, r.mark) && Nested(r) && s.tokens <= r.tokens
  {
    hide Levels, Depth, Balanced;
    var r := Take(s, k, l, allowed).scan;
    var t := Token(k, l.start, l.end);
    DepthPush(s.tokens, t);
    BalancedPush(s.tokens, t);
    OrderPush(s.tokens, s.mark, t, l.after);
    forall i | 0 <= i < |r.keys| && r.keys[i].possible
      ensures r.tokens[r.keys[i].number].start == r.keys[i].mark && Precedes(r.keys[i].mark, r.mark)
    {
      assert HalfPlaced(s, s.keys[i]);
    }
    forall i | 0 <= i < |r.keys| && r.keys[i].possible ensures FlowOnly(r.tokens, r.keys[i].number) {
      assert FlowOnly(s.tokens, s.keys[i].number);
    }
  }

  // ------------------------------------------------------------- unrolling

  lemma {:induction false} UnrollKeeps(s: Scan, column: int)
    requires Levels(s.indents, s.indent) && column >= -1 && InOrder(s.tokens, s.mark)
    requires Depth(s.tokens) == |s.indents| && Balanced(s.tokens)
    ensures var r := Unroll(s, column);
      s.tokens <= r.tokens && InOrder(r.tokens, r.mark) && Depth(r.tokens) == |r.indents| && Balanced(r.tokens)
    ensures s.level > 0 || s.indent <= column ==> Unroll(s, column) == s
    decreases |s.indents|
  {
    hide Depth, Balanced, InOrder;
    if s.level == 0 && s.indent > column {
      var t := Token(BlockEndToken, s.mark, s.mark);
      DepthPush(s.tokens, t);
      BalancedPush(s.tokens, t);
      OrderPush(s.tokens, s.mark, t, s.mark);
      var p := Push(s, BlockEndToken, s.mark, s.mark).(indent := s.indents[|s.indents| - 1], indents := s.indents[..|s.indents| - 1]);
      UnrollKeeps(p, column);
    }
  }

  /** A column is one of the open levels exactly when unrolling to it stops there. */
  lemma {:induction false} UnrollStops(s: Scan, column: nat)
    requires Levels(s.indents, s.indent) && s.level == 0
    ensures Unroll(s, column).indent == column <==> column in s.indents + [s.indent]
    decreases |s.indents|
  {
    if s.indent > column {
      var last := |s.indents| - 1;
      var p := Push(s, BlockEndToken, s.mark, s.mark).(indent := s.indents[last], indents := s.indents[..last]);
      UnrollStops(p, column);
      assert s.indents == p.indents + [p.indent];
    }
  }

  // ------------------------------------------------- in front of the lexeme

  lemma PrecedesReaches(a: Mark, b: Mark, c: Mark)
    requires Precedes(a, b) && Reaches(b, c)
    ensures Precedes(a, c)
  {
  }

  /** What the invariant says after stale keys are dropped: possible keys are on this line. */
  lemma StaleKeeps(s: Scan, start: Mark)
    requires Inv(s) && Reaches(s.mark, start) && StaleKeys(Approach(s, start)).Good?
    ensures var r := StaleKeys(Approach(s, start)).scan;
      && Inv(r) && r.mark == start && r.tokens == s.tokens
      && forall i | 0 <= i < |r.keys| && r.keys[i].possible :: r.keys[i].mark.line == start.line
  {
    hide Depth, Balanced, FlowOnly, Levels;
    var r := StaleKeys(Approach(s, start)).scan;
    forall i | 0 <= i < |r.keys| && r.keys[i].possible
      ensures s.keys[i] == r.keys[i] && Precedes(r.keys[i].mark, r.mark) && r.keys[i].mark.line == start.line
    {
      PrecedesReaches(s.keys[i].mark, s.mark, start);
    }
    assert InOrder(r.tokens, r.mark);
  }

  /** Ready for the lexeme. */
  ghost predicate Settled(r: Scan, start: Mark) {
    && Inv(r) && r.mark == start
    && (forall i | 0 <= i < |r.keys| && r.keys[i].possible :: r.keys[i].mark.line == start.line)
    && (r.level == 0 ==> r.indent <= start.column)
  }

  lemma SettleKeeps(s: Scan, start: Mark)
    requires Inv(s) && Reaches(s.mark, start) && Settle(s, start).Good?
    ensures var r := Settle(s, start).scan; Settled(r, start) && s.tokens <= r.tokens
  {
    hide Depth, Balanced, InOrder, StaleKeys, Approach, FlowOnly, Levels, Inv;
    StaleKeeps(s, start);
    CloseDeeper(StaleKeys(Approach(s, start)).scan, start);
  }

  /** Closing the deeper levels: no key can be possible that starts on a line left of the block. */
  lemma CloseDeeper(m: Scan, start: Mark)
    requires Inv(m) && m.mark == start
    requires forall i | 0 <= i < |m.keys| && m.keys[i].possible :: m.keys[i].mark.line == start.line
    ensures Settled(Unroll(m, start.column), start) && m.tokens <= Unroll(m, start.column).tokens
  {
    hide Inv, Levels;
    InvLevels(m);
    if m.level == 0 && m.indent > start.column {
      NoKeyDeeper(m, start);
      NoKeyUnrolls(m, start.column);
    } else {
      UnrollRests(m, start.column);
    }
  }

  lemma InvLevels(s: Scan)
    requires Inv(s)
    ensures |s.keys| == s.level + 1 && Levels(s.indents, s.indent)
  {
    hide Levels, KeysPlaced, InOrder, Nested, Columns;
  }

  lemma UnrollRests(s: Scan, column: int)
    requires Levels(s.indents, s.indent) && column >= -1 && (s.level > 0 || s.indent <= column)
    ensures Unroll(s, column) == s
  {
  }

  lemma NoKeyDeeper(m: Scan, start: Mark)
    requires Inv(m) && m.mark == start && m.level == 0 && m.indent > start.column
    requires forall i | 0 <= i < |m.keys| && m.keys[i].possible :: m.keys[i].mark.line == start.line
    ensures !m.keys[0].possible
  {
    hide InOrder, Nested, Levels;
  }

  lemma NoKeyUnrolls(m: Scan, column: int)
    requires Inv(m) && m.level == 0 && !m.keys[0].possible && -1 <= column < m.indent && column == m.mark.column
    ensures Inv(Unroll(m, column)) && m.tokens <= Unroll(m, column).tokens
  {
    hide Depth, Balanced, InOrder, FlowOnly, Levels;
    UnrollKeeps(m, column);
  }

  // ------------------------------------------------------- removing, saving

  lemma RemoveKeeps(s: Scan)
    requires Halfway(s) && RemoveKey(s).Good?
    ensures var r := RemoveKey(s).scan;
      && Halfway(r) && r == s.(keys := r.keys) && !r.keys[|r.keys| - 1].possible
      && (forall i | 0 <= i < |r.keys| && r.keys[i].possible :: r.keys[i] == s.keys[i])
      && (CanFetch(s) ==> CanFetch(r))
  {
    hide Depth, Balanced, FlowOnly, Levels, InOrder;
    var r := RemoveKey(s).scan;
    forall i | 0 <= i < |r.keys| && r.keys[i].possible ensures HalfPlaced(r, r.keys[i]) {
      assert HalfPlaced(s, s.keys[i]);
    }
  }

  lemma SaveKeeps(s: Scan)
    requires Inv(s) && SaveKey(s).Good? && (s.level == 0 ==> s.indent <= s.mark.column)
    ensures var r := SaveKey(s).scan;
      && Halfway(r) && r == s.(keys := r.keys)
      && (r.keys[0].possible ==> s.indent <= r.keys[0].mark.column)
      && (s.level > 0 ==> r.keys[0] == s.keys[0])
  {
    InvIsHalfway(s);
    if s.allowed {
      RemoveKeeps(s);
    }
    hide Depth, Balanced, FlowOnly, Levels, InOrder;
    var r := SaveKey(s).scan;
    forall i | 0 <= i < |r.keys| && r.keys[i].possible ensures HalfPlaced(r, r.keys[i]) && FlowOnly(r.tokens, r.keys[i].number) {
      if r.keys[i] == s.keys[i] {
        assert HalfPlaced(s, s.keys[i]);
      } else {
        NoneBehind(s.tokens);
      }
    }
    forall i, j | 0 <= i < j < |r.keys| && r.keys[i].possible && r.keys[j].possible ensures r.keys[i].number < r.keys[j].number {
      assert r.keys[i] == s.keys[i];
    }
  }

  lemma NoneBehind(tokens: seq<Token>)
    ensures FlowOnly(tokens, |tokens|)
  {
  }

  // -------------------------------------------------------- adding tokens

  lemma InsertLast<T>(q: seq<T>, x: T)
    ensures Insert(q, |q|, x) == q + [x]
  {
  }

  /** A level opened at the end of the queue. */
  lemma RollKeeps(s: Scan, k: TokenKind)
    requires Inv(s) && IsBlockStart(k) && (s.level == 0 ==> !s.keys[0].possible)
    ensures var r := Roll(s, s.mark.column, |s.tokens|, k, s.mark);
      Halfway(r) && r == s.(tokens := r.tokens, indent := r.indent, indents := r.indents) && s.tokens <= r.tokens
      && CanFetch(r) && (s.level > 0 ==> r == s)
      && (s.level == 0 ==> r.indent == (if s.indent < s.mark.column then s.mark.column else s.indent))
  {
    InvIsHalfway(s);
    hide Depth, Balanced, FlowOnly, InOrder, Insert, Levels;
    if s.level == 0 && s.indent < s.mark.column {
      InsertLast(s.tokens, Token(k, s.mark, s.mark));
      NewBlockKeeps(s, k);
    }
  }

  lemma NewBlockKeeps(s: Scan, k: TokenKind)
    requires Inv(s) && IsBlockStart(k) && s.level == 0 && !s.keys[0].possible && s.indent < s.mark.column
    ensures var t := Token(k, s.mark, s.mark);
      var r := s.(tokens := s.tokens + [t], indents := s.indents + [s.indent], indent := s.mark.column);
      Halfway(r) && CanFetch(r)
  {
    hide Depth, Balanced, FlowOnly, InOrder, HalfPlaced;
    var t := Token(k, s.mark, s.mark);
    DepthPush(s.tokens, t);
    BalancedPush(s.tokens, t);
    OrderPush(s.tokens, s.mark, t, s.mark);
  }

  lemma InsertFlowOnly(tokens: seq<Token>, i: nat, t: Token, number: nat)
    requires number <= i <= |tokens| && FlowOnly(tokens, number) && !IsBlockBracket(t.kind)
    ensures FlowOnly(Insert(tokens, i, t), number)
  {
    var more := Insert(tokens, i, t);
    forall j | number <= j < |more| ensures !IsBlockBracket(more[j].kind) {
      assert more[j] == if j < i then tokens[j] else if j == i then t else tokens[j - 1];
    }
  }

  /** A KEY token put in front of a token: the keys of outer levels stay where they are. */
  lemma InsertKeyKeeps(s: Scan, number: nat)
    requires Halfway(s) && CanFetch(s) && number < |s.tokens|
    requires forall i | 0 <= i < |s.keys| && s.keys[i].possible :: s.keys[i].number < number
    ensures var r := InsertAt(s, number, KeyToken, s.tokens[number].start);
      Halfway(r) && CanFetch(r) && r == s.(tokens := r.tokens) && |r.tokens| == |s.tokens| + 1 && r.tokens[..number] == s.tokens[..number]
      && r.tokens[number].start == s.tokens[number].start
  {
    hide Depth, Balanced, FlowOnly, InOrder, Levels;
    var t := Token(KeyToken, s.tokens[number].start, s.tokens[number].start);
    var r := InsertAt(s, number, KeyToken, s.tokens[number].start);
    BalancedInsert(s.tokens, number, t);
    OrderInsert(s.tokens, s.mark, number, t);
    forall i | 0 <= i < |r.keys| && r.keys[i].possible
      ensures HalfPlaced(r, r.keys[i]) && FlowOnly(r.tokens, r.keys[i].number)
    {
      assert HalfPlaced(s, s.keys[i]);
      InsertFlowOnly(s.tokens, number, t, s.keys[i].number);
    }
  }

  /** The start of a block mapping put in front of its first key. */
  lemma RollBackKeeps(s: Scan, column: nat, number: nat)
    requires Halfway(s) && CanFetch(s) && number < |s.tokens|
    requires s.level == 0 ==> !s.keys[0].possible
    ensures var r := Roll(s, column, number, BlockMappingStartToken, s.tokens[number].start);
      && Halfway(r) && CanFetch(r) && r == s.(tokens := r.tokens, indent := r.indent, indents := r.indents)
      && r.tokens[..number] == s.tokens[..number] && (s.level > 0 ==> r == s)
      && (s.level == 0 ==> r.indent == (if s.indent < column then column else s.indent))
  {
    hide Depth, Balanced, FlowOnly, InOrder;
    var t := Token(BlockMappingStartToken, s.tokens[number].start, s.tokens[number].start);
    if s.level == 0 && s.indent < column {
      BalancedInsert(s.tokens, number, t);
      OrderInsert(s.tokens, s.mark, number, t);
    }
  }

  // -------------------------------------------------------------- fetchers

  /** What a fetch must give. */
  ghost predicate Kept(r: Result) {
    r.Good? ==> Inv(r.scan)
  }

  lemma CommaKeeps(s: Scan, l: Lexeme)
    requires Settled(s, l.start) && Follows(s.mark, l) && l.what.Comma?
    ensures Kept(FetchComma(s, l))
  {
    if RemoveKey(s).Good? && l.scans {
      InvIsHalfway(s);
      RemoveKeeps(s);
      hide Halfway, Nested, InOrder, KeysPlaced;
      TakeKeeps(RemoveKey(s).scan, FlowEntryToken, l, true);
    }
  }

  lemma BlockTextKeeps(s: Scan, k: TokenKind, l: Lexeme)
    requires Settled(s, l.start) && Follows(s.mark, l) && l.what == BlockText(k)
    ensures Kept(FetchBlockText(s, k, l))
  {
    if RemoveKey(s).Good? && l.scans {
      InvIsHalfway(s);
      RemoveKeeps(s);
      hide Halfway, Nested, InOrder, KeysPlaced;
      TakeKeeps(RemoveKey(s).scan, k, l, true);
    }
  }

  lemma CloseKeeps(s: Scan, k: TokenKind, l: Lexeme)
    requires Settled(s, l.start) && Follows(s.mark, l) && l.what == FlowClose(k)
    ensures Kept(FetchClose(s, k, l))
  {
    hide Halfway, InOrder, Depth, Balanced, FlowOnly, RemoveKey;
    if RemoveKey(s).Good? && l.scans {
      InvIsHalfway(s);
      RemoveKeeps(s);
      var r := RemoveKey(s).scan;
      if r.level > 0 {
        PopKeeps(r);
        TakeKeeps(r.(level := r.level - 1, keys := r.keys[..|r.keys| - 1]), k, l, false);
      } else {
        TakeKeeps(r, k, l, false);
      }
    }
  }

  lemma PopKeeps(s: Scan)
    requires Halfway(s) && s.level > 0
    ensures Halfway(s.(level := s.level - 1, keys := s.keys[..|s.keys| - 1]))
  {
    hide Depth, Balanced, FlowOnly, InOrder, Levels;
    forall i | 0 <= i < |s.keys| - 1 && s.keys[i].possible
      ensures HalfPlaced(s.(level := s.level - 1, keys := s.keys[..|s.keys| - 1]), s.keys[i])
    {
      assert HalfPlaced(s, s.keys[i]);
    }
  }

  lemma OpenKeeps(s: Scan, k: TokenKind, l: Lexeme)
    requires Settled(s, l.start) && Follows(s.mark, l) && l.what == FlowOpen(k)
    ensures Kept(FetchOpen(s, k, l))
  {
    hide Halfway, Nested, InOrder, KeysPlaced, SaveKey, Levels;
    if SaveKey(s).Good? && l.scans {
      SaveKeeps(s);
      var r := SaveKey(s).scan;
      var p := r.(keys := r.keys + [NO_KEY], level := r.level + 1, openLine := if r.level == 0 then l.start.line else r.openLine);
      NewLevelKeeps(r, p);
      TakeKeeps(p, k, l, true);
    }
  }

  lemma NewLevelKeeps(s: Scan, p: Scan)
    requires Halfway(s) && p == s.(keys := s.keys + [NO_KEY], level := s.level + 1, openLine := p.openLine)
    ensures Halfway(p)
  {
    hide Depth, Balanced, FlowOnly, InOrder, Levels;
    forall i | 0 <= i < |p.keys| && p.keys[i].possible ensures HalfPlaced(p, p.keys[i]) && FlowOnly(p.tokens, p.keys[i].number) {
      assert p.keys[i] == s.keys[i] && HalfPlaced(s, s.keys[i]);
    }
  }

  lemma KeyableKeeps(s: Scan, k: TokenKind, l: Lexeme, allowed: bool)
    requires Settled(s, l.start) && Follows(s.mark, l) && (k.AliasToken? || k.AnchorToken? || k.TagToken? || k.ScalarToken?)
    requires Precedes(l.start, l.after) && (allowed ==> l.start.line < l.after.line)
    ensures Kept(FetchKeyable(s, k, l, allowed))
  {
    hide Halfway, Nested, InOrder, KeysPlaced, Levels, SaveKey, Columns;
    if SaveKey(s).Good? && l.scans {
      SaveKeeps(s);
      TakeKeeps(SaveKey(s).scan, k, l, allowed);
      KeyableColumns(s, k, l, allowed);
    }
  }

  /** Where the scanner stands behind it. */
  lemma KeyableColumns(s: Scan, k: TokenKind, l: Lexeme, allowed: bool)
    requires Settled(s, l.start) && SaveKey(s).Good? && l.scans && CanFetch(Take(SaveKey(s).scan, k, l, allowed).scan)
    requires Follows(s.mark, l) && Precedes(l.start, l.after) && (allowed ==> l.start.line < l.after.line)
    requires k.AliasToken? || k.AnchorToken? || k.TagToken? || k.ScalarToken?
    ensures Columns(Take(SaveKey(s).scan, k, l, allowed).scan)
  {
    hide Nested, InOrder, KeysPlaced, Levels;
    SaveKeeps(s);
  }

  lemma EntryKeeps(s: Scan, opener: TokenKind, k: TokenKind, l: Lexeme, allowed: bool)
    requires Settled(s, l.start) && Follows(s.mark, l) && IsPunctuation(l.what) && IsBlockStart(opener)
    requires (k.BlockEntryToken? || k.KeyToken?) && (s.level == 0 ==> allowed)
    ensures Kept(FetchEntry(s, opener, k, l, allowed))
  {
    hide Halfway, Nested, InOrder, KeysPlaced, RemoveKey, Roll;
    if !(s.level == 0 && !s.allowed) {
      RollKeeps(s, opener);
      var r := Roll(s, s.mark.column, |s.tokens|, opener, s.mark);
      if RemoveKey(r).Good? && l.scans {
        RemoveKeeps(r);
        TakeKeeps(RemoveKey(r).scan, k, l, allowed);
      }
    }
  }

  /** `:` behind a complex key, or without one. */
  lemma ComplexValueKeeps(s: Scan, l: Lexeme)
    requires Settled(s, l.start) && Follows(s.mark, l) && l.what.Colon? && !s.keys[|s.keys| - 1].possible
    ensures Kept(FetchValue(s, l))
  {
    hide Halfway, Nested, InOrder, KeysPlaced, Roll;
    if !(s.level == 0 && !s.allowed) && l.scans {
      RollKeeps(s, BlockMappingStartToken);
      TakeKeeps(Roll(s, s.mark.column, |s.tokens|, BlockMappingStartToken, s.mark), ValueToken, l, s.level == 0);
    }
  }

  lemma DropTop(s: Scan)
    requires Inv(s) && s.keys[|s.keys| - 1].possible
    ensures var top := |s.keys| - 1;
      var d := s.(keys := s.keys[top := s.keys[top].(possible := false)]);
      && Halfway(d) && CanFetch(d) && s.tokens[s.keys[top].number].start == s.keys[top].mark
      && Precedes(s.keys[top].mark, s.mark)
      && (forall i | 0 <= i < |d.keys| && d.keys[i].possible :: d.keys[i].number < s.keys[top].number)
  {
    InvIsHalfway(s);
    hide Depth, Balanced, FlowOnly, InOrder, Levels;
    var top := |s.keys| - 1;
    var d := s.(keys := s.keys[top := s.keys[top].(possible := false)]);
    forall i | 0 <= i < |d.keys| && d.keys[i].possible ensures HalfPlaced(d, d.keys[i]) {
      assert HalfPlaced(s, s.keys[i]);
    }
  }

  /** `:` behind a simple key: KEY goes in front of the key, BLOCK-MAPPING-START in front of that. */
  lemma SimpleValueKeeps(s: Scan, l: Lexeme)
    requires Settled(s, l.start) && Follows(s.mark, l) && l.what.Colon? && s.keys[|s.keys| - 1].possible
    ensures Kept(FetchValue(s, l))
  {
    hide Halfway, Nested, InOrder, KeysPlaced, InsertAt;
    var top := |s.keys| - 1;
    var key := s.keys[top];
    DropTop(s);
    var d := s.(keys := s.keys[top := key.(possible := false)]);
    InsertKeyKeeps(d, key.number);
    var a := InsertAt(d, key.number, KeyToken, key.mark);
    RollBackKeeps(a, key.mark.column, key.number);
    var b := Roll(a, key.mark.column, key.number, BlockMappingStartToken, key.mark);
    ValueCommutes(s, l);
    if l.scans {
      TakeKeeps(b, ValueToken, l, false);
    }
  }

  lemma ValueCommutes(s: Scan, l: Lexeme)
    requires CanFetch(s) && s.keys[|s.keys| - 1].possible
    ensures var top := |s.keys| - 1;
      var key := s.keys[top];
      var d := s.(keys := s.keys[top := key.(possible := false)]);
      var a := InsertAt(d, key.number, KeyToken, key.mark);
      FetchValue(s, l) == Take(Roll(a, key.mark.column, key.number, BlockMappingStartToken, key.mark), ValueToken, l, false)
  {
    hide Take, Insert;
  }

  lemma MarkerKeeps(s: Scan, k: TokenKind, l: Lexeme)
    requires Settled(s, l.start) && Follows(s.mark, l) && !IsBlockBracket(k) && Precedes(l.start, l.after)
    ensures Kept(FetchMarker(s, k, l))
  {
    hide Halfway, Nested, InOrder, KeysPlaced;
    if RemoveKey(Unroll(s, -1)).Good? && l.scans {
      InvIsHalfway(s);
      UnrollAllKeeps(s);
      TakeKeeps(RemoveKey(Unroll(s, -1)).scan, k, l, false);
    }
  }

  /** Closing all levels, and then giving up the key on the current flow level. */
  lemma UnrollAllKeeps(s: Scan)
    requires Halfway(s) && RemoveKey(Unroll(s, -1)).Good?
    ensures var r := RemoveKey(Unroll(s, -1)).scan;
      && Halfway(r) && r == s.(tokens := r.tokens, indent := r.indent, indents := r.indents, keys := r.keys)
      && s.tokens <= r.tokens && (s.level == 0 ==> r.indent == -1) && (s.level > 0 ==> r.indent == s.indent)
      && (forall i | 0 <= i < |r.keys| && r.keys[i].possible :: r.keys[i] == s.keys[i])
      && !r.keys[|r.keys| - 1].possible
  {
    hide Halfway, Unroll, Levels;
    HalfwayLevels(s);
    if s.level > 0 {
      UnrollRests(s, -1);
      RemoveKeeps(s);
    } else {
      HalfwayTokens(s);
      UnrollKeeps(s, -1);
      UnrollGround(s);
      NoKeyHalfway(RemoveKey(Unroll(s, -1)).scan);
    }
  }

  lemma HalfwayTokens(s: Scan)
    requires Halfway(s)
    ensures InOrder(s.tokens, s.mark) && Depth(s.tokens) == |s.indents| && Balanced(s.tokens)
  {
    hide HalfPlaced, Levels, InOrder, Depth, Balanced, FlowOnly;
  }

  lemma NoKeyHalfway(s: Scan)
    requires s.level == 0 && |s.keys| == 1 && !s.keys[0].possible && Levels(s.indents, s.indent)
    requires InOrder(s.tokens, s.mark) && Depth(s.tokens) == |s.indents| && Balanced(s.tokens)
    ensures Halfway(s)
  {
    hide HalfPlaced, Levels, InOrder, Depth, Balanced, FlowOnly;
  }

  lemma HalfwayLevels(s: Scan)
    requires Halfway(s)
    ensures |s.keys| == s.level + 1 && Levels(s.indents, s.indent)
  {
    hide HalfPlaced, Nested, InOrder, Levels;
  }

  lemma UnrollGround(s: Scan)
    requires Halfway(s) && s.level == 0 && RemoveKey(Unroll(s, -1)).Good?
    ensures var r := RemoveKey(Unroll(s, -1)).scan;
      r.indent == -1 && |r.keys| == 1 && !r.keys[0].possible && Levels(r.indents, r.indent) && r.level == 0
  {
    hide Depth, Balanced, FlowOnly, InOrder;
  }

  /** The end of the input counts as a new line. */
  lemma ForceLine(s: Scan, m: Mark)
    requires Inv(s) && m == (if s.mark.column != 0 then s.mark.(column := 0, line := s.mark.line + 1) else s.mark)
    ensures Halfway(s.(mark := m)) && CanFetch(s.(mark := m))
    ensures forall i | 0 <= i < |s.keys| && s.keys[i].possible :: s.keys[i].mark.line < m.line
  {
    hide Depth, Balanced, FlowOnly, Levels;
    var f := s.(mark := m);
    forall i | 0 <= i < |f.keys| && f.keys[i].possible ensures HalfPlaced(f, f.keys[i]) && s.keys[i].mark.line < m.line {
      assert Precedes(s.keys[i].mark, s.mark);
    }
    assert InOrder(f.tokens, f.mark);
  }

  lemma PushEnd(s: Scan)
    requires Halfway(s) && forall i | 0 <= i < |s.keys| && s.keys[i].possible :: s.keys[i].number < |s.tokens|
    ensures var r := Push(s, StreamEndToken, s.mark, s.mark).(allowed := false, resumed := false);
      CanFetch(r) && KeysPlaced(r) && InOrder(r.tokens, r.mark) && Nested(r)
  {
    hide Levels, Depth, Balanced;
    var t := Token(StreamEndToken, s.mark, s.mark);
    DepthPush(s.tokens, t);
    BalancedPush(s.tokens, t);
    OrderPush(s.tokens, s.mark, t, s.mark);
    var r := Push(s, StreamEndToken, s.mark, s.mark).(allowed := false, resumed := false);
    forall i | 0 <= i < |r.keys| && r.keys[i].possible
      ensures r.tokens[r.keys[i].number].start == r.keys[i].mark && Precedes(r.keys[i].mark, r.mark)
    {
      assert HalfPlaced(s, s.keys[i]);
    }
    forall i | 0 <= i < |r.keys| && r.keys[i].possible ensures FlowOnly(r.tokens, r.keys[i].number) {
      assert FlowOnly(s.tokens, s.keys[i].number);
    }
  }

  lemma DoneKeeps(s: Scan, l: Lexeme)
    requires Settled(s, l.start) && l.what.Done?
    ensures Kept(FetchDone(s))
    ensures FetchDone(s).Good? ==> var r := FetchDone(s).scan;
      && r.tokens != [] && r.tokens[|r.tokens| - 1].kind.StreamEndToken?
      && (forall i | 0 <= i < |r.keys| && r.keys[i].possible :: r.keys[i].mark.line < r.mark.line)
  {
    hide Halfway, InOrder, Nested, KeysPlaced, Unroll;
    var m := if s.mark.column != 0 then s.mark.(column := 0, line := s.mark.line + 1) else s.mark;
    var f := s.(mark := m);
    ForceLine(s, m);
    if RemoveKey(Unroll(f, -1)).Good? {
      UnrollAllKeeps(f);
      var r := RemoveKey(Unroll(f, -1)).scan;
      PushEnd(r);
    }
  }

  // ------------------------------------------------------------- main results

  lemma FetchAtKeeps(s: Scan, l: Lexeme)
    requires Settled(s, l.start) && Follows(s.mark, l)
    ensures Kept(FetchAt(s, l))
  {
    hide Kept, Nested, InOrder, KeysPlaced, Columns, FetchDone, FetchMarker, FetchOpen, FetchClose, FetchComma,
         FetchEntry, FetchValue, FetchKeyable, FetchBlockText;
    match l.what
    case Done => DoneKeeps(s, l);
    case Directive(k) => MarkerKeeps(s, k, l);
    case DocumentMarker(k) => MarkerKeeps(s, k, l);
    case FlowOpen(k) => OpenKeeps(s, k, l);
    case FlowClose(k) => CloseKeeps(s, k, l);
    case Comma => CommaKeeps(s, l);
    case Dash => EntryKeeps(s, BlockSequenceStartToken, BlockEntryToken, l, true);
    case Question => EntryKeeps(s, BlockMappingStartToken, KeyToken, l, s.level == 0);
    case Colon => if s.keys[|s.keys| - 1].possible { SimpleValueKeeps(s, l); } else { ComplexValueKeeps(s, l); }
    case Property(k) => KeyableKeeps(s, k, l, false);
    case Quoted(k) => KeyableKeeps(s, k, l, false);
    case Plain(k, ranOn) => KeyableKeeps(s, k, l, ranOn);
    case BlockText(k) => BlockTextKeeps(s, k, l);
    case Nothing => assert Kept(Failure) by { KeptFailure(); }
  }

  lemma KeptFailure()
    ensures Kept(Failure)
  {
  }

  /** Whatever the next lexeme is, a fetch that succeeds keeps the invariant. */
  lemma FetchKeeps(s: Scan, l: Lexeme)
    requires Inv(s) && Follows(s.mark, l)
    ensures Fetch(s, l).Good? ==> Inv(Fetch(s, l).scan)
  {
    hide Nested, InOrder, KeysPlaced, Columns, FetchAt, Settle;
    if Settle(s, l.start).Good? {
      SettleKeeps(s, l.start);
      FetchAtKeeps(Settle(s, l.start).scan, l);
    }
  }
}
