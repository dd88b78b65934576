/** What one fetch does, lexeme by lexeme, where it succeeds: the tokens it adds, the keys
    and levels it leaves. */
module YamlScanSteps {
  import opened YamlTokens
  import opened YamlKeys
  import opened YamlKeysInvariant

  function Top(s: Scan): nat
    requires s.keys != []
  {
    |s.keys| - 1
  }

  /** No key that must be one is out of date. */
  predicate Timely(keys: seq<SimpleKey>, mark: Mark) {
    forall i | 0 <= i < |keys| && keys[i].possible && keys[i].required :: !IsStale(keys[i], mark)
  }

  /** Keys were dropped only if they were out of date. */
  predicate Aged(a: seq<SimpleKey>, b: seq<SimpleKey>, mark: Mark) {
    && |a| == |b|
    && forall i | 0 <= i < |a| :: b[i] == a[i] || (b[i] == a[i].(possible := false) && IsStale(a[i], mark))
  }

  lemma AgedAged(a: seq<SimpleKey>, b: seq<SimpleKey>, c: seq<SimpleKey>, m: Mark, n: Mark)
    requires Aged(a, b, m) && Aged(b, c, n) && Reaches(m, n)
    ensures Aged(a, c, n)
  {
    forall i | 0 <= i < |a| ensures c[i] == a[i] || (c[i] == a[i].(possible := false) && IsStale(a[i], n)) {
    }
  }

  lemma TimelyEarlier(keys: seq<SimpleKey>, m: Mark, n: Mark)
    requires Timely(keys, n) && Reaches(m, n)
    ensures Timely(keys, m)
  {
  }

  lemma TimelyAged(a: seq<SimpleKey>, b: seq<SimpleKey>, m: Mark, n: Mark)
    requires Timely(a, n) && Aged(a, b, m)
    ensures Timely(b, n)
  {
  }

  /** Whether a key may start at the next lexeme. */
  predicate MayStart(s: Scan, start: Mark) {
    s.allowed || (s.level == 0 && s.mark.line < start.line)
  }

  /** The same levels. */
  predicate Same(s: Scan, r: Scan) {
    r.level == s.level && r.indent == s.indent && r.indents == s.indents && |r.keys| == |s.keys|
  }

  /** In front of a lexeme that does not lie left of the current level. */
  lemma Settles(s: Scan, start: Mark)
    requires Inv(s) && Timely(s.keys, start) && (s.level == 0 ==> s.indent <= start.column)
    ensures Settle(s, start).Good?
    ensures var m := Settle(s, start).scan;
      && Same(s, m) && m.tokens == s.tokens && m.mark == start && m.allowed == MayStart(s, start) && m.openLine == s.openLine
      && m.keys == Fresh(s.keys, start) && Aged(s.keys, m.keys, start)
  {
    hide KeysPlaced, InOrder, Nested, Columns, Levels;
  }

  /** The key that a keyable lexeme may become. */
  function KeyAt(s: Scan, start: Mark): SimpleKey {
    SimpleKey(true, s.level == 0 && s.indent == start.column, |s.tokens|, start)
  }

  lemma Saves(s: Scan, m: Scan)
    requires CanFetch(m) && (IsRequired(m) ==> m.allowed)
    requires m.allowed ==> !(m.keys[Top(m)].possible && m.keys[Top(m)].required)
    ensures SaveKey(m) == Good(m.(keys := if m.allowed then m.keys[Top(m) := KeyAt(m, m.mark)] else m.keys))
  {
    hide Levels;
  }

  predicate IsKeyable(w: Lexical) {
    w.Property? || w.Quoted? || w.Plain?
  }

  function Keeps(keys: seq<SimpleKey>, may: bool, key: SimpleKey): seq<SimpleKey>
    requires keys != []
  {
    if may then keys[|keys| - 1 := key] else keys
  }

  /** What must hold where a node starts: nothing left of the level, and a key that must be one may start. */
  predicate Ready(s: Scan, start: Mark) {
    && s.keys != [] && Timely(s.keys, start)
    && (s.level == 0 ==> s.indent <= start.column && (s.indent == start.column ==> MayStart(s, start)))
    && (MayStart(s, start) ==> var k := DropIfStale(s.keys[Top(s)], start); !(k.possible && k.required))
  }

  lemma StepKeyable(s: Scan, l: Lexeme) returns (r: Scan)
    requires Inv(s) && Follows(s.mark, l) && l.scans && IsKeyable(l.what) && Ready(s, l.start)
    ensures Fetch(s, l) == Good(r) && Inv(r) && Same(s, r) && r.mark == l.after
    ensures r.tokens == s.tokens + [Token(l.what.kind, l.start, l.end)]
    ensures r.allowed == (l.what.Plain? && l.what.ranOn)
    ensures r.keys == Keeps(Fresh(s.keys, l.start), MayStart(s, l.start), KeyAt(s, l.start))
  {
    hide KeysPlaced, InOrder, Nested, Columns, Levels, Settle, FetchAt, SaveKey, Follows;
    FetchKeeps(s, l);
    Settles(s, l.start);
    var m := Settle(s, l.start).scan;
    ReadySaves(s, m, l.start);
    TakesKeyable(m, l);
    r := Fetch(s, l).scan;
  }

  /** In front of the lexeme, with all levels and stale keys seen to. */
  lemma ReadySaves(s: Scan, m: Scan, start: Mark)
    requires CanFetch(m) && Ready(s, start) && Same(s, m) && m.tokens == s.tokens && m.mark == start && m.allowed == MayStart(s, start)
    requires m.keys == Fresh(s.keys, start)
    ensures SaveKey(m) == Good(m.(keys := Keeps(Fresh(s.keys, start), MayStart(s, start), KeyAt(s, start))))
  {
    hide SaveKey, Levels;
    Saves(s, m);
  }

  lemma TakesKeyable(m: Scan, l: Lexeme)
    requires CanFetch(m) && SaveKey(m).Good? && l.scans && IsKeyable(l.what)
    ensures var q, ranOn := SaveKey(m).scan, l.what.Plain? && l.what.ranOn;
      FetchAt(m, l) == Take(q, l.what.kind, l, ranOn)
  {
    hide SaveKey, Levels, Take;
  }

  lemma StepOpen(s: Scan, l: Lexeme) returns (r: Scan)
    requires Inv(s) && Follows(s.mark, l) && l.scans && l.what.FlowOpen? && Ready(s, l.start)
    ensures Fetch(s, l) == Good(r) && Inv(r) && r.mark == l.after && r.allowed
    ensures r.level == s.level + 1 && r.indent == s.indent && r.indents == s.indents
    ensures r.tokens == s.tokens + [Token(l.what.kind, l.start, l.end)]
    ensures r.keys == Keeps(Fresh(s.keys, l.start), MayStart(s, l.start), KeyAt(s, l.start)) + [NO_KEY]
  {
    hide KeysPlaced, InOrder, Nested, Columns, Levels, Settle, FetchAt, SaveKey, Follows;
    FetchKeeps(s, l);
    Settles(s, l.start);
    var m := Settle(s, l.start).scan;
    ReadySaves(s, m, l.start);
    TakesOpen(m, l);
    r := Fetch(s, l).scan;
  }

  lemma TakesOpen(m: Scan, l: Lexeme)
    requires CanFetch(m) && SaveKey(m).Good? && l.scans && l.what.FlowOpen?
    ensures var q := SaveKey(m).scan;
      FetchAt(m, l) == Take(q.(keys := q.keys + [NO_KEY], level := q.level + 1,
                               openLine := if q.level == 0 then l.start.line else q.openLine), l.what.kind, l, true)
  {
    hide SaveKey, Levels, Take;
  }

  /** A lexeme inside a flow collection that gives up the key on its level. */
  predicate GivesUp(s: Scan, start: Mark) {
    s.level > 0 && s.keys != [] && Timely(s.keys, start) && !(s.keys[Top(s)].possible && s.keys[Top(s)].required)
  }

  lemma Removes(m: Scan)
    requires m.keys != [] && !(m.keys[Top(m)].possible && m.keys[Top(m)].required)
    ensures RemoveKey(m) == Good(m.(keys := m.keys[Top(m) := m.keys[Top(m)].(possible := false)]))
  {
  }

  lemma StepClose(s: Scan, l: Lexeme) returns (r: Scan)
    requires Inv(s) && Follows(s.mark, l) && l.scans && l.what.FlowClose? && GivesUp(s, l.start)
    ensures Fetch(s, l) == Good(r) && Inv(r) && r.mark == l.after && !r.allowed
    ensures r.level == s.level - 1 && r.indent == s.indent && r.indents == s.indents
    ensures r.tokens == s.tokens + [Token(l.what.kind, l.start, l.end)]
    ensures r.keys == Fresh(s.keys, l.start)[..|s.keys| - 1]
  {
    FetchKeeps(s, l);
    Settles(s, l.start);
    var m := Settle(s, l.start).scan;
    hide KeysPlaced, InOrder, Nested, Columns, Levels, Settle, RemoveKey;
    Removes(m);
    r := Fetch(s, l).scan;
  }

  lemma StepComma(s: Scan, l: Lexeme) returns (r: Scan)
    requires Inv(s) && Follows(s.mark, l) && l.scans && l.what.Comma? && GivesUp(s, l.start)
    ensures Fetch(s, l) == Good(r) && Inv(r) && r.mark == l.after && r.allowed && Same(s, r)
    ensures r.tokens == s.tokens + [Token(FlowEntryToken, l.start, l.end)]
    ensures !r.keys[Top(r)].possible && r.keys[..Top(r)] == Fresh(s.keys, l.start)[..Top(r)]
  {
    FetchKeeps(s, l);
    Settles(s, l.start);
    var m := Settle(s, l.start).scan;
    hide KeysPlaced, InOrder, Nested, Columns, Levels, Settle, RemoveKey;
    Removes(m);
    r := Fetch(s, l).scan;
  }

  lemma StepAsk(s: Scan, l: Lexeme) returns (r: Scan)
    requires Inv(s) && Follows(s.mark, l) && l.scans && l.what.Question? && GivesUp(s, l.start)
    ensures Fetch(s, l) == Good(r) && Inv(r) && r.mark == l.after && !r.allowed && Same(s, r)
    ensures r.tokens == s.tokens + [Token(KeyToken, l.start, l.end)]
    ensures !r.keys[Top(r)].possible && r.keys[..Top(r)] == Fresh(s.keys, l.start)[..Top(r)]
  {
    FetchKeeps(s, l);
    Settles(s, l.start);
    var m := Settle(s, l.start).scan;
    hide KeysPlaced, InOrder, Nested, Columns, Levels, Settle, RemoveKey;
    Removes(m);
    r := Fetch(s, l).scan;
  }

  /** `:` in a flow collection, behind a key that was asked for. */
  lemma StepColon(s: Scan, l: Lexeme) returns (r: Scan)
    requires Inv(s) && Follows(s.mark, l) && l.scans && l.what.Colon? && s.level > 0 && Timely(s.keys, l.start)
    requires !s.keys[Top(s)].possible
    ensures Fetch(s, l) == Good(r) && Inv(r) && r.mark == l.after && !r.allowed && Same(s, r)
    ensures r.tokens == s.tokens + [Token(ValueToken, l.start, l.end)]
    ensures !r.keys[Top(r)].possible && r.keys[..Top(r)] == Fresh(s.keys, l.start)[..Top(r)]
  {
    FetchKeeps(s, l);
    Settles(s, l.start);
    hide KeysPlaced, InOrder, Nested, Columns, Levels, Settle;
    r := Fetch(s, l).scan;
  }

  /** `:` behind a simple key: KEY, and in block context the start of a mapping, in front of the key. */
  lemma StepSimple(s: Scan, l: Lexeme) returns (r: Scan)
    requires Inv(s) && Follows(s.mark, l) && l.scans && l.what.Colon? && Timely(s.keys, l.start)
    requires s.level == 0 ==> s.indent <= l.start.column
    requires s.keys[Top(s)].possible && !IsStale(s.keys[Top(s)], l.start)
    ensures Fetch(s, l) == Good(r) && Inv(r) && r.mark == l.after && !r.allowed && |r.keys| == |s.keys| && r.level == s.level
    ensures var key := s.keys[Top(s)];
      var opens := s.level == 0 && s.indent < key.mark.column;
      var front := if opens then [Token(BlockMappingStartToken, key.mark, key.mark), Token(KeyToken, key.mark, key.mark)]
                   else [Token(KeyToken, key.mark, key.mark)];
      && key.number <= |s.tokens|
      && r.tokens == s.tokens[..key.number] + front + s.tokens[key.number..] + [Token(ValueToken, l.start, l.end)]
      && r.indents == (if opens then s.indents + [s.indent] else s.indents)
      && r.indent == (if opens then key.mark.column else s.indent)
    ensures !r.keys[Top(r)].possible && r.keys[..Top(r)] == Fresh(s.keys, l.start)[..Top(r)]
  {
    hide KeysPlaced, InOrder, Nested, Columns, Levels, Settle, FetchAt, Follows;
    FetchKeeps(s, l);
    Settles(s, l.start);
    TakesSimple(Settle(s, l.start).scan, l);
    r := Fetch(s, l).scan;
  }

  lemma TakesSimple(m: Scan, l: Lexeme)
    requires CanFetch(m) && l.scans && l.what.Colon? && m.keys[Top(m)].possible
    ensures var key := m.keys[Top(m)];
      var opens := m.level == 0 && m.indent < key.mark.column;
      var front := if opens then [Token(BlockMappingStartToken, key.mark, key.mark), Token(KeyToken, key.mark, key.mark)]
                   else [Token(KeyToken, key.mark, key.mark)];
      && key.number <= |m.tokens| && FetchAt(m, l).Good?
      && var r := FetchAt(m, l).scan;
         && r.tokens == m.tokens[..key.number] + front + m.tokens[key.number..] + [Token(ValueToken, l.start, l.end)]
         && r.indents == (if opens then m.indents + [m.indent] else m.indents)
         && r.indent == (if opens then key.mark.column else m.indent)
         && r.mark == l.after && !r.allowed && r.level == m.level
         && r.keys == m.keys[Top(m) := key.(possible := false)]
  {
    hide Levels, Insert;
    var key := m.keys[Top(m)];
    var k, b := Token(KeyToken, key.mark, key.mark), Token(BlockMappingStartToken, key.mark, key.mark);
    InsertTwice(m.tokens, key.number, k, b);
  }

  lemma InsertTwice<T>(q: seq<T>, i: nat, x: T, y: T)
    requires i <= |q|
    ensures Insert(q, i, x) == q[..i] + [x] + q[i..] && |Insert(q, i, x)| > i
    ensures Insert(Insert(q, i, x), i, y) == q[..i] + [y, x] + q[i..]
  {
  }

  // ------------------------------------------------------------ what is refused

  /** The lexeme gives up a key that was possible on its level. */
  predicate GivesUpKey(w: Lexical, may: bool) {
    match w
    case Colon => false
    case Nothing => false
    case FlowOpen(_) => may
    case Property(_) => may
    case Quoted(_) => may
    case Plain(_, _) => may
    case _ => true
  }

  /** The lexeme needs a place where a key may start. */
  predicate NeedsPlace(w: Lexical, pending: bool) {
    w.Dash? || w.Question? || (w.Colon? && !pending)
  }

  /** Why a lexeme that does not make the scanner panic is refused: a key that needs a value had none
      before its line ended, or is given up now; the lexeme itself cannot be scanned; or a block entry, or a
      `:` behind no key, stands where none may start, as behind another `:` on the line of its key. */
  lemma FailsExactly(s: Scan, l: Lexeme)
    requires Inv(s) && Follows(s.mark, l)
    ensures Fetch(s, l) == Failure <==>
      || MissesValue(s.keys, l.start)
      || l.what.Nothing?
      || (Fetch(s, l) != Panic
          && var k, may := DropIfStale(s.keys[|s.keys| - 1], l.start), MayStart(s, l.start);
             || (!l.what.Done? && !l.scans)
             || (k.possible && k.required && GivesUpKey(l.what, may))
             || (s.level == 0 && !may && NeedsPlace(l.what, k.possible)))
  {
    hide KeysPlaced, InOrder, Nested, Columns, Levels, FetchAt, MissesValue, Unroll, DropIfStale, Reaches, Precedes;
    if Settle(s, l.start).Good? {
      var m := Settle(s, l.start).scan;
      FailsAt(m, l);
      assert m.level == s.level && m.allowed == MayStart(s, l.start) && m.keys == Fresh(s.keys, l.start);
    }
  }

  lemma FailsAt(m: Scan, l: Lexeme)
    requires CanFetch(m)
    ensures FetchAt(m, l) == Failure <==>
      || l.what.Nothing?
      || (FetchAt(m, l) != Panic
          && var k := m.keys[|m.keys| - 1];
             || (!l.what.Done? && !l.scans)
             || (k.possible && k.required && GivesUpKey(l.what, m.allowed))
             || (m.level == 0 && !m.allowed && NeedsPlace(l.what, k.possible)))
  {
    hide Unroll, Levels, InsertAt, Roll;
    RollKeys(m, l);
  }

  lemma RollKeys(m: Scan, l: Lexeme)
    requires CanFetch(m)
    ensures forall k :: Roll(m, m.mark.column, |m.tokens|, k, m.mark).keys == m.keys
    ensures forall k :: Roll(m, m.mark.column, |m.tokens|, k, m.mark).level == m.level
  {
    hide Levels;
  }

  /** `a: b: c`: a second `:` on the line of a simple key is refused, as `-` and `?` are. */
  lemma OneValueToALine(s: Scan, l: Lexeme)
    requires Inv(s) && Follows(s.mark, l) && s.level == 0 && !s.allowed && TopFree(s) && l.start.line == s.mark.line
    requires l.what.Colon? || l.what.Dash? || l.what.Question?
    ensures Fetch(s, l) == Failure
  {
    FailsExactly(s, l);
    hide KeysPlaced, InOrder, Nested, Columns, Levels, FetchAt, Settle;
    NeverPanics(s, l);
  }

  predicate TopFree(s: Scan) {
    s.keys != [] && !s.keys[|s.keys| - 1].possible
  }

  lemma NeverPanics(s: Scan, l: Lexeme)
    requires CanFetch(s) && (l.what.Colon? || l.what.Dash? || l.what.Question?)
    ensures Fetch(s, l) != Panic
  {
    hide Unroll, Levels, InsertAt, Roll;
  }
}
