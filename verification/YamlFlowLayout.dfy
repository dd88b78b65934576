/** Nodes in flow style, and nodes on one line, are scanned to the tokens that spell them: the
    KEY tokens that go in front of tokens already scanned end up where the grammar wants them. */
module YamlFlowLayout {
  import opened YamlEvents
  import opened YamlTokens
  import opened YamlStep
  import opened YamlGrammar
  import opened YamlKeys
  import opened YamlKeysInvariant
  import opened YamlScanSteps
  import opened YamlLayout

  /** Nothing happened to the keys of outer levels but that some went out of date. */
  predicate LowerAged(s: Scan, r: Scan, end: Mark) {
    |s.keys| == |r.keys| && s.keys != [] && Aged(s.keys[..|s.keys| - 1], r.keys[..|s.keys| - 1], end)
  }

  lemma LowerFresh(s: Scan, r: Scan, start: Mark, end: Mark)
    requires s.keys != [] && |r.keys| == |s.keys| && r.keys[..|s.keys| - 1] == Fresh(s.keys, start)[..|s.keys| - 1]
    requires Reaches(start, end)
    ensures LowerAged(s, r, end)
  {
    var k := |s.keys| - 1;
    forall i | 0 <= i < k
      ensures r.keys[..k][i] == s.keys[..k][i] || (r.keys[..k][i] == s.keys[..k][i].(possible := false) && IsStale(s.keys[..k][i], end))
    {
      assert r.keys[..k][i] == Fresh(s.keys, start)[..k][i];
    }
  }

  lemma LowerLower(s: Scan, m: Scan, r: Scan, end: Mark)
    requires LowerAged(s, m, end) && LowerAged(m, r, end)
    ensures LowerAged(s, r, end)
  {
    AgedAged(s.keys[..|s.keys| - 1], m.keys[..|s.keys| - 1], r.keys[..|s.keys| - 1], end, end);
  }

  lemma LowerSame(s: Scan, end: Mark)
    requires s.keys != []
    ensures LowerAged(s, s, end)
  {
  }

  /** Keys stay timely, as far as the one on top does. */
  lemma StaysTimely(s: Scan, r: Scan, end: Mark)
    requires LowerAged(s, r, end) && Timely(s.keys, end)
    requires var k := r.keys[|r.keys| - 1]; k.possible && k.required ==> !IsStale(k, end)
    ensures Timely(r.keys, end)
  {
    var n := |s.keys| - 1;
    forall i | 0 <= i < |r.keys| && r.keys[i].possible && r.keys[i].required ensures !IsStale(r.keys[i], end) {
      if i < n {
        assert r.keys[..n][i] == r.keys[i] && s.keys[..n][i] == s.keys[i];
      }
    }
  }

  /** The level on top has no key that must be one. */
  predicate TopLoose(s: Scan) {
    s.keys != [] && !(s.keys[|s.keys| - 1].possible && s.keys[|s.keys| - 1].required)
  }

  // ------------------------------------------------------- properties, leaves

  predicate AllKeyable(ls: seq<Lexeme>) {
    && (forall i | 0 <= i < |ls| :: IsKeyable(ls[i].what))
    && (forall i | 0 <= i < |ls| - 1 :: ls[i].what.Property?)
  }

  /** Right of the current level, if that counts. */
  predicate RightOf(s: Scan, ls: seq<Lexeme>) {
    s.level == 0 ==> forall i | 0 <= i < |ls| :: s.indent < ls[i].start.column
  }

  /** On the line where the scanner stands, or in a flow collection: no key may start anew. */
  predicate SameLine(s: Scan, ls: seq<Lexeme>) {
    s.level > 0 || forall i | 0 <= i < |ls| :: ls[i].start.line == s.mark.line
  }

  predicate RunsOn(ls: seq<Lexeme>) {
    ls != [] && ls[|ls| - 1].what.Plain? && ls[|ls| - 1].what.ranOn
  }

  /** One keyable lexeme. */
  lemma KeyableFed(s: Scan, l: Lexeme, end: Mark) returns (r: Scan)
    requires Inv(s) && Follows(s.mark, l) && l.scans && IsKeyable(l.what) && Ready(s, l.start)
    requires Timely(s.keys, end) && Reaches(l.start, end)
    requires MayStart(s, l.start) && KeyAt(s, l.start).required ==> !IsStale(KeyAt(s, l.start), end)
    ensures Fed(s, [l], r) && Inv(r) && Same(s, r) && Added(s, r, [KindOf(l)]) && r.mark == l.after
    ensures LowerAged(s, r, end) && Timely(r.keys, end) && (r.allowed <==> RunsOn([l]))
    ensures r.keys[|r.keys| - 1] == if MayStart(s, l.start) then KeyAt(s, l.start) else DropIfStale(s.keys[|s.keys| - 1], l.start)
    ensures !MayStart(s, l.start) ==> Aged(s.keys, r.keys, end)
  {
    r := StepKeyable(s, l);
    FedOne(s, l, r);
    hide Inv, Fetch, Follows;
    AddedOne(s, r, Token(l.what.kind, l.start, l.end));
    LowerFresh(s, r, l.start, end);
    FreshIsAged(s.keys, l.start, end);
    StaysTimely(s, r, end);
  }

  /** Further lexemes of a leaf. */
  lemma {:induction false} MoreFed(ls: seq<Lexeme>, s: Scan, end: Mark) returns (r: Scan)
    requires Inv(s) && Consecutive(s.mark, ls) && AllKeyable(ls) && RightOf(s, ls) && !s.allowed && s.keys != []
    requires Reaches(EndMark(s.mark, ls), end) && Timely(s.keys, end)
    ensures Fed(s, ls, r) && Inv(r) && Same(s, r) && Added(s, r, KindsOf(ls)) && r.mark == EndMark(s.mark, ls)
    ensures LowerAged(s, r, end) && Timely(r.keys, end) && (r.allowed <==> RunsOn(ls))
    ensures SameLine(s, ls) ==> Aged(s.keys, r.keys, end)
    ensures var k := r.keys[|r.keys| - 1]; k.possible ==> k == s.keys[|s.keys| - 1] || (!k.required && s.level == 0)
    decreases |ls|
  {
    hide Inv, Fed, Added, Timely, LowerAged, Aged, Follows, Reaches, IsStale;
    if ls == [] {
      r := s;
      NothingFed(s, end);
      assert KindsOf(ls) == [];
    } else {
      var l := ls[0];
      ChainBounds(s.mark, ls, end);
      MoreReady(s, ls, end);
      var m := KeyableFed(s, l, end);
      var rest := ls[1..];
      assert ls == [l] + rest && KindsOf(ls) == [KindOf(l)] + KindsOf(rest);
      if rest == [] {
        r := m;
        assert ls == [l] && KindsOf(ls) == [KindOf(l)];
      } else {
        LaterLine(s, m, ls);
        r := MoreFed(rest, m, end);
        FedFed(s, [l], m, rest, r);
        AddedAdded(s, m, r, [KindOf(l)], KindsOf(rest));
        LowerLower(s, m, r, end);
        if SameLine(s, ls) {
          AllAged(s.keys, m.keys, r.keys, end);
        }
      }
    }
  }

  lemma AllAged(a: seq<SimpleKey>, b: seq<SimpleKey>, c: seq<SimpleKey>, end: Mark)
    requires Aged(a, b, end) && Aged(b, c, end)
    ensures Aged(a, c, end)
  {
    AgedAged(a, b, c, end, end);
  }

  lemma NothingFed(s: Scan, end: Mark)
    requires s.keys != []
    ensures Fed(s, [], s) && Added(s, s, []) && LowerAged(s, s, end) && Aged(s.keys, s.keys, end)
  {
    AddedNone(s, s);
  }

  /** A key may start anew only on a new line, where the old one is out of date. */
  lemma {:induction false} MoreReady(s: Scan, ls: seq<Lexeme>, end: Mark)
    requires Inv(s) && Consecutive(s.mark, ls) && ls != [] && RightOf(s, ls) && !s.allowed && s.keys != []
    requires Timely(s.keys, end) && Reaches(ls[0].start, end)
    ensures Ready(s, ls[0].start) && !KeyAt(s, ls[0].start).required
  {
    TimelyEarlier(s.keys, ls[0].start, end);
    OldKey(s, ls[0].start);
    hide Inv;
  }

  lemma {:induction false} ChainBounds(mark: Mark, ls: seq<Lexeme>, end: Mark)
    requires Consecutive(mark, ls) && ls != [] && Reaches(EndMark(mark, ls), end)
    ensures Reaches(ls[0].start, end) && Reaches(EndMark(ls[0].after, ls[1..]), end)
    ensures Reaches(ls[|ls| - 1].start, end)
    ensures forall i | 0 <= i < |ls| :: Reaches(ls[i].start, end)
  {
    var n := |ls| - 1;
    forall i | 0 <= i < |ls| ensures Reaches(ls[i].start, end) {
      ChainReaches(mark, ls, i);
      ChainEnd(mark, ls, i);
    }
  }

  lemma {:induction false} ChainEnd(mark: Mark, ls: seq<Lexeme>, i: nat)
    requires Consecutive(mark, ls) && i < |ls|
    ensures Reaches(ls[i].after, EndMark(mark, ls))
    decreases |ls|
  {
    if i > 0 {
      assert ls[i] == ls[1..][i - 1];
      ChainEnd(ls[0].after, ls[1..], i - 1);
    } else if |ls| > 1 {
      ChainEnd(ls[0].after, ls[1..], 0);
      assert Reaches(ls[0].after, ls[1..][0].start) && Precedes(ls[1..][0].start, ls[1..][0].after);
    }
  }

  /** A key from an earlier line is out of date. */
  lemma OldKey(s: Scan, start: Mark)
    requires Inv(s) && s.keys != [] && Reaches(s.mark, start)
    ensures s.mark.line < start.line ==> !DropIfStale(s.keys[|s.keys| - 1], start).possible
  {
    hide YamlKeys.InOrder, Nested, Columns, Levels;
  }

  lemma FreshIsAged(keys: seq<SimpleKey>, start: Mark, end: Mark)
    requires Reaches(start, end)
    ensures Aged(keys, Fresh(keys, start), end)
  {
  }

  lemma {:induction false} LaterLine(s: Scan, m: Scan, ls: seq<Lexeme>)
    requires ls != [] && m.mark == ls[0].after && m.level == s.level && Consecutive(s.mark, ls)
    ensures SameLine(s, ls) && |ls| > 1 ==> SameLine(m, ls[1..])
  {
    if |ls| > 1 && SameLine(s, ls) && s.level == 0 {
      ChainReaches(s.mark, ls, 1);
      assert Reaches(ls[0].after, ls[1..][0].start);
      assert ls[1].start.line == s.mark.line && ls[0].start.line == s.mark.line;
      assert Precedes(ls[0].start, ls[0].after);
    }
  }

  // ------------------------------------------------------------------- nodes

  /** The lexemes of a node on its own level. */
  function Outer(n: Layout): seq<Lexeme> {
    match n
    case Gone => []
    case Leaf(props, content) => props + content
    case Flow(props, opener, _, _, _) => props + [opener]
    case Block(props, _, _) => props
  }

  /** Where a node may stand: in block context right of the level, or on it, if it is a simple key. */
  predicate Placed(s: Scan, outer: seq<Lexeme>, all: seq<Lexeme>, end: Mark) {
    s.level == 0 ==>
      && (forall i | 0 < i < |outer| :: s.indent < outer[i].start.column)
      && (outer != [] ==> s.indent <= outer[0].start.column)
      && (outer != [] && outer[0].start.column == s.indent ==> MayStart(s, outer[0].start) && OneLine(all, end))
  }

  /** What a node leaves on the level it stands on: itself as a possible key, if it is on one line. */
  predicate Marked(s: Scan, keys: seq<SimpleKey>, all: seq<Lexeme>, end: Mark) {
    && |keys| == |s.keys| && s.keys != [] && all != []
    && Aged(s.keys[..|s.keys| - 1], keys[..|s.keys| - 1], end)
    && var k, key := keys[|keys| - 1], KeyAt(s, all[0].start);
       && (MayStart(s, all[0].start) && OneLine(all, end) ==> k == key)
       && (k.possible && k.required ==> k == key && OneLine(all, end))
       && (!MayStart(s, all[0].start) && s.level > 0 ==> !k.possible)
  }

  lemma {:induction false} MarkedAged(s: Scan, a: seq<SimpleKey>, b: seq<SimpleKey>, all: seq<Lexeme>, end: Mark)
    requires Marked(s, a, all, end) && Aged(a, b, end)
    ensures Marked(s, b, all, end)
  {
    var n := |s.keys| - 1;
    assert Aged(a[..n], b[..n], end);
    AllAged(s.keys[..n], a[..n], b[..n], end);
  }

  ghost predicate NodeReady(n: Layout, s: Scan, end: Mark) {
    && Inv(s) && TopFree(s) && Consecutive(s.mark, Lexemes(n)) && Reaches(EndMark(s.mark, Lexemes(n)), end) && Timely(s.keys, end)
    && Placed(s, Outer(n), Lexemes(n), end)
  }

  ghost predicate NodeScanned(n: Layout, s: Scan, end: Mark, r: Scan) {
    && Fed(s, Lexemes(n), r) && Inv(r) && Same(s, r) && Added(s, r, Spell(Means(n))) && r.mark == EndMark(s.mark, Lexemes(n))
    && Marked(s, r.keys, Lexemes(n), end) && Timely(r.keys, end)
    && (RunsOn(Lexemes(n)) ==> r.allowed)
  }

  /** On one line, or in a flow collection, the later lexemes of a node start no key of their own. */
  lemma {:induction false} StaysOnLine(s: Scan, m: Scan, ls: seq<Lexeme>, all: seq<Lexeme>, end: Mark)
    requires ls != [] && Consecutive(s.mark, ls) && Reaches(EndMark(s.mark, ls), end) && m.mark == ls[0].after && m.level == s.level
    requires all != [] && all[0] == ls[0] && OneLine(all, end)
    ensures SameLine(m, ls[1..])
  {
    forall i | 0 < i < |ls| ensures ls[i].start.line == m.mark.line {
      ChainBounds(s.mark, ls, end);
      ChainReaches(s.mark, ls, i);
      ChainEnd(s.mark, ls, 0);
      assert ls[1..][i - 1] == ls[i];
      ChainReaches(ls[0].after, ls[1..], i - 1);
    }
  }

  lemma {:induction false} FirstReady(s: Scan, outer: seq<Lexeme>, all: seq<Lexeme>, end: Mark)
    requires TopFree(s) && Timely(s.keys, end) && Placed(s, outer, all, end) && outer != [] && all != [] && all[0] == outer[0]
    requires Reaches(outer[0].start, end)
    ensures Ready(s, outer[0].start)
    ensures KeyAt(s, outer[0].start).required ==> OneLine(all, end) && !IsStale(KeyAt(s, outer[0].start), end)
    ensures RightOf(s, outer[1..])
  {
    TimelyEarlier(s.keys, outer[0].start, end);
  }

  /** The first lexemes of a node, keyable all. */
  lemma {:induction false} KeyablesFed(ls: seq<Lexeme>, s: Scan, all: seq<Lexeme>, end: Mark) returns (r: Scan)
    requires Inv(s) && TopFree(s) && Timely(s.keys, end) && ls != [] && AllKeyable(ls) && all != [] && all[0] == ls[0]
    requires Consecutive(s.mark, ls) && Reaches(EndMark(s.mark, ls), end) && Placed(s, ls, all, end)
    ensures Fed(s, ls, r) && Inv(r) && Same(s, r) && Added(s, r, KindsOf(ls)) && r.mark == EndMark(s.mark, ls)
    ensures Marked(s, r.keys, all, end) && Timely(r.keys, end) && (r.allowed <==> RunsOn(ls))
  {
    hide Inv, Fed, Added, Timely, Aged, Follows, Reaches, Placed, Ready, IsStale;
    ChainBounds(s.mark, ls, end);
    FirstReady(s, ls, all, end);
    var m := KeyableFed(s, ls[0], end);
    var rest := ls[1..];
    assert ls == [ls[0]] + rest && KindsOf(ls) == [KindOf(ls[0])] + KindsOf(rest);
    if rest == [] {
      r := m;
      assert ls == [ls[0]] && KindsOf(ls) == [KindOf(ls[0])];
      FirstMarked(s, m, m, ls, all, end);
    } else {
      r := MoreFed(rest, m, end);
      FedFed(s, [ls[0]], m, rest, r);
      AddedAdded(s, m, r, [KindOf(ls[0])], KindsOf(rest));
      LowerLower(s, m, r, end);
      if OneLine(all, end) {
        StaysOnLine(s, m, ls, all, end);
      }
      FirstMarked(s, m, r, ls, all, end);
    }
  }

  lemma {:induction false} FirstMarked(s: Scan, m: Scan, r: Scan, ls: seq<Lexeme>, all: seq<Lexeme>, end: Mark)
    requires TopFree(s) && LowerAged(s, r, end) && |m.keys| == |s.keys| && ls != [] && all != [] && all[0] == ls[0]
    requires m.keys[|m.keys| - 1] == if MayStart(s, ls[0].start) then KeyAt(s, ls[0].start) else DropIfStale(s.keys[|s.keys| - 1], ls[0].start)
    requires m == r || (|r.keys| == |m.keys| && m.level == s.level
      && var k := r.keys[|r.keys| - 1]; k.possible ==> k == m.keys[|m.keys| - 1] || (!k.required && m.level == 0))
    requires m == r || (OneLine(all, end) ==> Aged(m.keys, r.keys, end))
    requires KeyAt(s, ls[0].start).required && MayStart(s, ls[0].start) ==> OneLine(all, end)
    ensures Marked(s, r.keys, all, end)
  {
  }

  /** `[` or `{`, with a key that may start there. */
  lemma OpenerFed(s: Scan, l: Lexeme, end: Mark) returns (r: Scan)
    requires Inv(s) && Follows(s.mark, l) && l.scans && l.what.FlowOpen? && Ready(s, l.start)
    requires Timely(s.keys, end) && Reaches(l.start, end)
    requires MayStart(s, l.start) && KeyAt(s, l.start).required ==> !IsStale(KeyAt(s, l.start), end)
    ensures Fed(s, [l], r) && Inv(r) && Added(s, r, [KindOf(l)]) && r.mark == l.after && r.allowed
    ensures r.level == s.level + 1 && r.indent == s.indent && r.indents == s.indents
    ensures |r.keys| == |s.keys| + 1 && r.keys[|s.keys|] == NO_KEY && Timely(r.keys, end)
    ensures Aged(s.keys[..|s.keys| - 1], r.keys[..|s.keys| - 1], end)
    ensures r.keys[|s.keys| - 1] == if MayStart(s, l.start) then KeyAt(s, l.start) else DropIfStale(s.keys[|s.keys| - 1], l.start)
    ensures !MayStart(s, l.start) ==> Aged(s.keys, r.keys[..|s.keys|], end)
  {
    hide Inv, Fetch, Follows, Ready, Reaches, Added, Aged, Fed;
    HasKeys(s);
    r := StepOpen(s, l);
    FedOne(s, l, r);
    AddedOne(s, r, Token(l.what.kind, l.start, l.end));
    var m := r.(keys := r.keys[..|s.keys|]);
    LowerFresh(s, m, l.start, end);
    FreshIsAged(s.keys, l.start, end);
    StaysTimely(s, m, end);
    TimelyNewLevel(m.keys, end);
    assert r.keys == m.keys + [NO_KEY] && r.keys[..|s.keys| - 1] == m.keys[..|s.keys| - 1];
  }

  lemma HasKeys(s: Scan)
    requires Inv(s)
    ensures |s.keys| == s.level + 1
  {
    hide KeysPlaced, YamlKeys.InOrder, Nested, Columns, Levels;
  }

  lemma TimelyNewLevel(keys: seq<SimpleKey>, end: Mark)
    requires Timely(keys, end)
    ensures Timely(keys + [NO_KEY], end)
  {
  }

  /** The start of a flow collection, behind its properties. */
  lemma {:induction false} StartFed(props: seq<Lexeme>, opener: Lexeme, s: Scan, all: seq<Lexeme>, end: Mark) returns (r: Scan)
    requires Inv(s) && TopFree(s) && Timely(s.keys, end) && WellProps(props) && opener.what.FlowOpen?
    requires var ls := props + [opener];
      Consecutive(s.mark, ls) && Reaches(EndMark(s.mark, ls), end) && Placed(s, ls, all, end) && all != [] && all[0] == ls[0]
    ensures Fed(s, props + [opener], r) && Inv(r) && Added(s, r, KindsOf(props) + [KindOf(opener)]) && r.mark == opener.after && r.allowed
    ensures r.level == s.level + 1 && r.indent == s.indent && r.indents == s.indents
    ensures |r.keys| == |s.keys| + 1 && r.keys[|s.keys|] == NO_KEY && Timely(r.keys, end)
    ensures Marked(s, r.keys[..|s.keys|], all, end)
  {
    hide Inv, Fed, Added, Timely, Aged, Follows, Reaches, Placed, Ready, IsStale, Marked, RunsOn;
    var ls := props + [opener];
    ChainBounds(s.mark, ls, end);
    ChainSplit(s.mark, props, [opener]);
    if props == [] {
      assert ls == [opener];
      FirstReady(s, ls, all, end);
      r := OpenerFed(s, opener, end);
      assert KindsOf(props) + [KindOf(opener)] == [KindOf(opener)];
      OpenerMarked(s, s, r, ls, all, end);
    } else {
      PropsKeyable(props);
      PlacedPart(s, props, ls, all, end);
      assert ls[..|props|] == props && ls[0] == props[0] && ls[|props|] == opener;
      EndWithin(s.mark, props, [opener], end);
      var m := KeyablesFed(props, s, all, end);
      PropsRest(props);
      ChainFirst(m.mark, [opener]);
      OpenerReady(s, m, props, opener, all, end);
      r := OpenerFed(m, opener, end);
      FedFed(s, props, m, [opener], r);
      AddedAdded(s, m, r, KindsOf(props), [KindOf(opener)]);
      OpenerMarked(s, m, r, ls, all, end);
    }
  }

  lemma {:induction false} EndWithin(mark: Mark, a: seq<Lexeme>, b: seq<Lexeme>, end: Mark)
    requires Consecutive(mark, a + b) && Reaches(EndMark(mark, a + b), end)
    ensures Consecutive(mark, a) && Consecutive(EndMark(mark, a), b) && Reaches(EndMark(mark, a), end)
    ensures EndMark(EndMark(mark, a), b) == EndMark(mark, a + b)
  {
    ChainSplit(mark, a, b);
    if b != [] {
      ChainEnd(EndMark(mark, a), b, 0);
      ChainReaches(EndMark(mark, a), b, 0);
    } else {
      assert a + b == a;
    }
  }

  lemma {:induction false} ChainFirst(mark: Mark, ls: seq<Lexeme>)
    requires Consecutive(mark, ls) && ls != []
    ensures Follows(mark, ls[0]) && ls[0].scans && Reaches(mark, ls[0].start) && Consecutive(ls[0].after, ls[1..])
  {
  }

  lemma {:induction false} PropsKeyable(props: seq<Lexeme>)
    requires WellProps(props)
    ensures AllKeyable(props)
  {
  }

  lemma {:induction false} PropsRest(props: seq<Lexeme>)
    requires WellProps(props)
    ensures !RunsOn(props)
  {
  }

  lemma {:induction false} PlacedPart(s: Scan, part: seq<Lexeme>, ls: seq<Lexeme>, all: seq<Lexeme>, end: Mark)
    requires Placed(s, ls, all, end) && |part| <= |ls| && part == ls[..|part|]
    ensures Placed(s, part, all, end)
  {
    assert forall i | 0 <= i < |part| :: part[i] == ls[i];
  }

  lemma {:induction false} OpenerReady(s: Scan, m: Scan, props: seq<Lexeme>, opener: Lexeme, all: seq<Lexeme>, end: Mark)
    requires Placed(s, props + [opener], all, end) && props != [] && Inv(m) && Same(s, m) && m.keys != []
    requires Reaches(m.mark, opener.start) && Timely(m.keys, end) && Reaches(opener.start, end) && !m.allowed
    ensures Ready(m, opener.start) && !KeyAt(m, opener.start).required
  {
    TimelyEarlier(m.keys, opener.start, end);
    OldKey(m, opener.start);
    hide Inv;
    assert (props + [opener])[|props|] == opener;
  }

  lemma {:induction false} OpenerMarked(s: Scan, m: Scan, r: Scan, ls: seq<Lexeme>, all: seq<Lexeme>, end: Mark)
    requires ls != [] && all != [] && all[0] == ls[0] && Same(s, m) && m.keys != [] && |r.keys| == |m.keys| + 1 && Reaches(ls[|ls| - 1].start, end)
    requires Aged(m.keys[..|m.keys| - 1], r.keys[..|m.keys| - 1], end)
    requires var l := ls[|ls| - 1];
      && r.keys[|m.keys| - 1] == (if MayStart(m, l.start) then KeyAt(m, l.start) else DropIfStale(m.keys[|m.keys| - 1], l.start))
      && (!MayStart(m, l.start) ==> Aged(m.keys, r.keys[..|m.keys|], end))
    requires if |ls| == 1 then m == s && TopFree(s) && (KeyAt(s, ls[0].start).required ==> OneLine(all, end))
             else Marked(s, m.keys, all, end) && !m.allowed && !KeyAt(m, ls[|ls| - 1].start).required
    requires Consecutive(s.mark, ls) && Reaches(EndMark(s.mark, ls), end) && (|ls| > 1 ==> m.mark == ls[|ls| - 2].after)
    ensures Marked(s, r.keys[..|m.keys|], all, end)
  {
    var n := |m.keys| - 1;
    var l := ls[|ls| - 1];
    var keys := r.keys[..|m.keys|];
    assert keys[..n] == r.keys[..n];
    if |ls| > 1 {
      AllAged(s.keys[..n], m.keys[..n], keys[..n], end);
      if MayStart(m, l.start) {
        if OneLine(all, end) {
          OneLineOpener(s, m, ls, all, end);
        }
      } else {
        MarkedAged(s, m.keys, keys, all, end);
      }
    }
  }

  lemma {:induction false} OneLineOpener(s: Scan, m: Scan, ls: seq<Lexeme>, all: seq<Lexeme>, end: Mark)
    requires |ls| > 1 && Consecutive(s.mark, ls) && Reaches(EndMark(s.mark, ls), end) && m.mark == ls[|ls| - 2].after
    requires all != [] && all[0] == ls[0] && OneLine(all, end)
    ensures m.mark.line == ls[|ls| - 1].start.line
  {
    var i := |ls| - 2;
    ChainBounds(s.mark, ls, end);
    ChainReaches(s.mark, ls, i);
    ChainReaches(s.mark, ls, i + 1);
    ChainSplit(s.mark, ls[..i + 1], ls[i + 1..]);
    assert ls == ls[..i + 1] + ls[i + 1..];
    assert EndMark(s.mark, ls[..i + 1]) == ls[i].after;
  }

  // ------------------------------------------------------- inside a collection

  /** Between the parts of a flow collection. */
  ghost predicate Inside(s: Scan, ls: seq<Lexeme>, end: Mark) {
    && Inv(s) && s.level > 0 && TopLoose(s) && Consecutive(s.mark, ls) && Reaches(EndMark(s.mark, ls), end) && Timely(s.keys, end)
  }

  ghost predicate Scanned(s: Scan, ls: seq<Lexeme>, ks: seq<TokenKind>, end: Mark, r: Scan) {
    && Fed(s, ls, r) && Inv(r) && Same(s, r) && Added(s, r, ks) && r.mark == EndMark(s.mark, ls)
    && LowerAged(s, r, end) && TopLoose(r) && Timely(r.keys, end)
  }

  lemma ScannedNothing(s: Scan, end: Mark)
    requires Inside(s, [], end)
    ensures Scanned(s, [], [], end, s)
  {
    NothingFed(s, end);
    hide Inv, Timely;
  }

  lemma {:induction false} ScannedOn(s: Scan, a: seq<Lexeme>, x: seq<TokenKind>, m: Scan, b: seq<Lexeme>, y: seq<TokenKind>, end: Mark, r: Scan)
    requires Scanned(s, a, x, end, m) && Scanned(m, b, y, end, r)
    ensures Scanned(s, a + b, x + y, end, r)
  {
    hide Inv, Fed, Added, LowerAged, Timely;
    FedFed(s, a, m, b, r);
    AddedAdded(s, m, r, x, y);
    LowerLower(s, m, r, end);
    if b == [] {
      assert a + b == a;
    }
  }

  /** The rest of what is to come. */
  lemma {:induction false} InsideOn(s: Scan, a: seq<Lexeme>, b: seq<Lexeme>, end: Mark)
    requires Inside(s, a + b, end)
    ensures Inside(s, a, end)
    ensures forall m, ks {:trigger Scanned(s, a, ks, end, m)} | Scanned(s, a, ks, end, m) :: Inside(m, b, end)
  {
    EndWithin(s.mark, a, b, end);
    hide Inv, Fed, Added, LowerAged, Timely;
  }

  /** A single lexeme, when its fetch is known. */
  lemma ScannedOne(s: Scan, l: Lexeme, k: TokenKind, end: Mark, r: Scan)
    requires Inside(s, [l], end) && !l.what.Done? && Fetch(s, l) == Good(r) && Inv(r) && Same(s, r) && r.mark == l.after
    requires Follows(s.mark, l) && r.tokens == s.tokens + [Token(k, l.start, l.end)] && TopFree(r)
    requires r.keys[..|r.keys| - 1] == Fresh(s.keys, l.start)[..|s.keys| - 1]
    ensures Scanned(s, [l], [k], end, r)
  {
    FedOne(s, l, r);
    hide Inv, Fetch, Follows, Added, Fed;
    assert EndMark(s.mark, [l]) == l.after;
    ChainBounds(s.mark, [l], end);
    AddedOne(s, r, Token(k, l.start, l.end));
    LowerFresh(s, r, l.start, end);
    StaysTimely(s, r, end);
  }

  lemma CommaFed(s: Scan, l: Lexeme, end: Mark) returns (r: Scan)
    requires Inside(s, [l], end) && l.what.Comma?
    ensures Scanned(s, [l], [FlowEntryToken], end, r) && TopFree(r) && r.allowed
  {
    ChainFirst(s.mark, [l]);
    ChainBounds(s.mark, [l], end);
    TimelyEarlier(s.keys, l.start, end);
    hide Inv, Fetch, Scanned;
    r := StepComma(s, l);
    ScannedOne(s, l, FlowEntryToken, end, r);
  }

  lemma AskFed(s: Scan, l: Lexeme, end: Mark) returns (r: Scan)
    requires Inside(s, [l], end) && l.what.Question?
    ensures Scanned(s, [l], [KeyToken], end, r) && TopFree(r) && !r.allowed
  {
    ChainFirst(s.mark, [l]);
    ChainBounds(s.mark, [l], end);
    TimelyEarlier(s.keys, l.start, end);
    hide Inv, Fetch, Scanned;
    r := StepAsk(s, l);
    ScannedOne(s, l, KeyToken, end, r);
  }

  lemma ColonFed(s: Scan, l: Lexeme, end: Mark) returns (r: Scan)
    requires Inside(s, [l], end) && l.what.Colon? && TopFree(s)
    ensures Scanned(s, [l], [ValueToken], end, r) && TopFree(r) && !r.allowed
  {
    ChainFirst(s.mark, [l]);
    ChainBounds(s.mark, [l], end);
    TimelyEarlier(s.keys, l.start, end);
    hide Inv, Fetch, Scanned;
    r := StepColon(s, l);
    ScannedOne(s, l, ValueToken, end, r);
  }

  /** In a flow collection a node leaves no key that must be one. */
  lemma {:induction false} NodeInside(n: Layout, s: Scan, end: Mark, r: Scan)
    requires s.level > 0 && NodeScanned(n, s, end, r)
    ensures Scanned(s, Lexemes(n), Spell(Means(n)), end, r)
    ensures !s.allowed ==> TopFree(r)
  {
    hide Fed, Inv, Added, Timely, Aged;
  }

  /** A node of a flow collection, or its empty place. */
  lemma {:induction false} ChildFed(n: Layout, s: Scan, end: Mark) returns (r: Scan)
    requires (n.Gone? || FlowWell(n)) && Inside(s, Lexemes(n), end) && TopFree(s)
    ensures Scanned(s, Lexemes(n), Spell(Means(n)), end, r) && (!s.allowed ==> TopFree(r))
    decreases n, 2
  {
    if n.Gone? {
      r := s;
      assert Lexemes(n) == [] && Spell(Means(n)) == [];
      ScannedNothing(s, end);
    } else {
      hide NodeScanned, Scanned, Inv, Timely, Consecutive;
      r := InlineFed(n, s, end);
      NodeInside(n, s, end, r);
    }
  }

  /** `:` and the value behind it, if they are there. */
  lemma {:induction false} ValueFed(it: Item, s: Scan, end: Mark) returns (r: Scan)
    requires AtMost(it.colon, Colon) && (it.value.Gone? || (FlowWell(it.value) && it.colon != []))
    requires Inside(s, it.colon + Lexemes(it.value), end) && TopFree(s)
    ensures Scanned(s, it.colon + Lexemes(it.value), if it.colon != [] then [ValueToken] + Spell(Means(it.value)) else [], end, r)
    decreases it, 0
  {
    hide Scanned, Inside, Spell;
    if it.colon == [] {
      r := s;
      assert it.colon + Lexemes(it.value) == [];
      ScannedNothing(s, end);
    } else {
      InsideOn(s, it.colon, Lexemes(it.value), end);
      assert it.colon == [it.colon[0]];
      var m := ColonFed(s, it.colon[0], end);
      r := ChildFed(it.value, m, end);
      ScannedOn(s, it.colon, [ValueToken], m, Lexemes(it.value), Spell(Means(it.value)), end, r);
    }
  }

  /** `?`, a node, and perhaps a value. */
  lemma {:induction false} AskedFed(it: Item, s: Scan, end: Mark) returns (r: Scan)
    requires AtMost(it.asks, Question) && it.asks != [] && AtMost(it.colon, Colon)
    requires (it.key.Gone? || FlowWell(it.key)) && (it.value.Gone? || (FlowWell(it.value) && it.colon != []))
    requires Inside(s, it.asks + (Lexemes(it.key) + (it.colon + Lexemes(it.value))), end)
    ensures Scanned(s, it.asks + (Lexemes(it.key) + (it.colon + Lexemes(it.value))),
                    [KeyToken] + (Spell(Means(it.key)) + (if it.colon != [] then [ValueToken] + Spell(Means(it.value)) else [])), end, r)
    decreases it, 1
  {
    hide Scanned, Inside, Spell, FlowWell;
    var tail := it.colon + Lexemes(it.value);
    var v := if it.colon != [] then [ValueToken] + Spell(Means(it.value)) else [];
    InsideOn(s, it.asks, Lexemes(it.key) + tail, end);
    assert it.asks == [it.asks[0]];
    var a := AskFed(s, it.asks[0], end);
    InsideOn(a, Lexemes(it.key), tail, end);
    var k := ChildFed(it.key, a, end);
    r := ValueFed(it, k, end);
    ScannedOn(a, Lexemes(it.key), Spell(Means(it.key)), k, tail, v, end, r);
    ScannedOn(s, it.asks, [KeyToken], a, Lexemes(it.key) + tail, Spell(Means(it.key)) + v, end, r);
  }

  /** A simple key on one line, and `:`. */
  lemma {:induction false} KeyAndColonFed(n: Layout, s: Scan, l: Lexeme, end: Mark) returns (r: Scan)
    requires FlowWell(n) && l.what.Colon? && Inside(s, Lexemes(n) + [l], end) && TopFree(s) && s.allowed && OneLine(Lexemes(n), l.start)
    ensures Scanned(s, Lexemes(n) + [l], [KeyToken] + (Spell(Means(n)) + [ValueToken]), end, r) && TopFree(r)
    decreases n, 2
  {
    hide Scanned, FlowWell, NodeScanned, Inv, Timely, Consecutive, Reaches, Spell, Lexemes, Means, Aged, IsStale;
    var ls := Lexemes(n);
    EndWithin(s.mark, ls, [l], end);
    ChainFirst(EndMark(s.mark, ls), [l]);
    ChainBounds(EndMark(s.mark, ls), [l], end);
    TimelyEarlier(s.keys, l.start, end);
    var m := InlineFed(n, s, l.start);
    SimpleReady(n, s, l, m);
    r := StepSimple(m, l);
    SimpleScanned(n, s, m, l, end, r);
  }

  lemma {:induction false} SimpleReady(n: Layout, s: Scan, l: Lexeme, m: Scan)
    requires NodeScanned(n, s, l.start, m) && s.allowed && OneLine(Lexemes(n), l.start)
    ensures Timely(m.keys, l.start) && Inv(m) && m.level == s.level && m.mark == EndMark(s.mark, Lexemes(n))
    ensures m.keys != [] && m.keys[|m.keys| - 1] == KeyAt(s, Lexemes(n)[0].start) && !IsStale(m.keys[|m.keys| - 1], l.start)
    ensures Same(s, m) && Fed(s, Lexemes(n), m) && Added(s, m, Spell(Means(n)))
    ensures Aged(s.keys[..|s.keys| - 1], m.keys[..|s.keys| - 1], l.start) && |m.keys| == |s.keys|
  {
    hide Inv, Fed, Added, Aged, Timely, Lexemes;
  }

  lemma {:induction false} SimpleScanned(n: Layout, s: Scan, m: Scan, l: Lexeme, end: Mark, r: Scan)
    requires s.level > 0 && Fed(s, Lexemes(n), m) && Same(s, m) && Added(s, m, Spell(Means(n))) && Timely(s.keys, end)
    requires s.keys != [] && Lexemes(n) != [] && Aged(s.keys[..|s.keys| - 1], m.keys[..|s.keys| - 1], l.start)
    requires Inv(m) && Follows(m.mark, l) && !l.what.Done? && Fetch(m, l) == Good(r) && Inv(r) && r.mark == l.after && |r.keys| == |m.keys|
    requires m.keys[|m.keys| - 1] == KeyAt(s, Lexemes(n)[0].start)
    requires r.level == m.level && r.indents == m.indents && r.indent == m.indent && TopFree(r)
    requires var key := m.keys[|m.keys| - 1];
      && key.number <= |m.tokens|
      && r.tokens == m.tokens[..key.number] + [Token(KeyToken, key.mark, key.mark)] + m.tokens[key.number..] + [Token(ValueToken, l.start, l.end)]
    requires r.keys[..|r.keys| - 1] == Fresh(m.keys, l.start)[..|m.keys| - 1] && Reaches(l.start, end)
    ensures Scanned(s, Lexemes(n) + [l], [KeyToken] + (Spell(Means(n)) + [ValueToken]), end, r)
  {
    hide Inv, Fetch, Follows, Added, Fed, Timely, Spell, Means, Lexemes, Aged, Reaches, IsStale;
    FedOne(m, l, r);
    FedFed(s, Lexemes(n), m, [l], r);
    var key := m.keys[|m.keys| - 1];
    KeyAdded(s, m, r, Spell(Means(n)), Token(KeyToken, key.mark, key.mark), Token(ValueToken, l.start, l.end));
    LowerFresh(m, r, l.start, end);
    AgedUntil(s.keys[..|s.keys| - 1], m.keys[..|s.keys| - 1], l.start, end);
    LowerLower(s, m, r, end);
    StaysTimely(s, r, end);
  }

  lemma AgedUntil(a: seq<SimpleKey>, b: seq<SimpleKey>, m: Mark, n: Mark)
    requires Aged(a, b, m) && Reaches(m, n)
    ensures Aged(a, b, n)
  {
  }

  /** KEY goes in front of what was added, VALUE behind it. */
  lemma KeyAdded(s: Scan, m: Scan, r: Scan, ks: seq<TokenKind>, key: Token, value: Token)
    requires Added(s, m, ks) && r.tokens == m.tokens[..|s.tokens|] + [key] + m.tokens[|s.tokens|..] + [value]
    ensures Added(s, r, [key.kind] + (ks + [value.kind]))
  {
    var n := |s.tokens|;
    assert r.tokens[n..] == [key] + m.tokens[n..] + [value];
    KindsAdd([key] + m.tokens[n..], [value]);
    KindsAdd([key], m.tokens[n..]);
    assert [key.kind] + (ks + [value.kind]) == [key.kind] + ks + [value.kind];
  }

  /** A pair with a simple key. */
  lemma {:induction false} SimpleFed(it: Item, s: Scan, end: Mark) returns (r: Scan)
    requires AtMost(it.colon, Colon) && it.colon != [] && FlowWell(it.key) && (it.value.Gone? || FlowWell(it.value))
    requires Inside(s, Lexemes(it.key) + (it.colon + Lexemes(it.value)), end) && TopFree(s) && s.allowed
    requires OneLine(Lexemes(it.key), it.colon[0].start)
    ensures Scanned(s, Lexemes(it.key) + (it.colon + Lexemes(it.value)),
                    [KeyToken] + (Spell(Means(it.key)) + ([ValueToken] + Spell(Means(it.value)))), end, r)
    decreases it, 1
  {
    hide Scanned, Inside, Spell, FlowWell;
    var head, tail := Lexemes(it.key) + it.colon, Lexemes(it.value);
    assert Lexemes(it.key) + (it.colon + tail) == head + tail;
    InsideOn(s, head, tail, end);
    assert it.colon == [it.colon[0]];
    var k := Spell(Means(it.key));
    var m := KeyAndColonFed(it.key, s, it.colon[0], end);
    r := ChildFed(it.value, m, end);
    ScannedOn(s, head, [KeyToken] + (k + [ValueToken]), m, tail, Spell(Means(it.value)), end, r);
    assert [KeyToken] + (k + [ValueToken]) + Spell(Means(it.value)) == [KeyToken] + (k + ([ValueToken] + Spell(Means(it.value))));
  }

  /** One entry of a flow collection, with the comma in front of it. */
  lemma {:induction false} ItemFed(style: Style, it: Item, s: Scan, first: bool, end: Mark) returns (r: Scan)
    requires (style.FlowSeq? || style.FlowMap?) && ItemWell(it, first) && Inside(s, ItemLexemes(it), end)
    requires first ==> s.allowed && TopFree(s)
    ensures Scanned(s, ItemLexemes(it), SpellEntry(style, ItemMeans(style, it), first), end, r)
    decreases it, 2
  {
    hide Scanned, Inside, Spell, FlowWell, Lexemes, Means, TopFree;
    var tail := it.asks + (Lexemes(it.key) + (it.colon + Lexemes(it.value)));
    InsideOn(s, it.lead, tail, end);
    var m := LeadFed(it.lead, s, first, end);
    var key, v := Spell(Means(it.key)), if it.colon != [] then [ValueToken] + Spell(Means(it.value)) else [];
    var inner: seq<TokenKind>;
    if it.asks != [] {
      inner := [KeyToken] + (key + v);
      r := AskedFed(it, m, end);
    } else {
      assert tail == Lexemes(it.key) + (it.colon + Lexemes(it.value));
      if it.colon != [] {
        inner := [KeyToken] + (key + v);
        r := SimpleFed(it, m, end);
      } else {
        inner := key;
        NoValue(it);
        assert tail == Lexemes(it.key);
        r := ChildFed(it.key, m, end);
      }
    }
    ScannedOn(s, it.lead, LeadKinds(first), m, tail, inner, end, r);
    ItemSpelled(style, it, first);
  }

  function LeadKinds(first: bool): seq<TokenKind> {
    if first then [] else [FlowEntryToken]
  }

  lemma {:induction false} LeadFed(lead: seq<Lexeme>, s: Scan, first: bool, end: Mark) returns (r: Scan)
    requires AtMost(lead, Comma) && (lead == [] <==> first) && Inside(s, lead, end) && (first ==> s.allowed && TopFree(s))
    ensures Scanned(s, lead, LeadKinds(first), end, r) && TopFree(r) && r.allowed
  {
    hide Scanned, Inside;
    if first {
      r := s;
      ScannedNothing(s, end);
    } else {
      assert lead == [lead[0]];
      r := CommaFed(s, lead[0], end);
    }
  }

  lemma {:induction false} NoValue(it: Item)
    requires it.value.Gone?
    ensures Lexemes(it.value) == []
  {
  }

  lemma {:induction false} ItemSpelled(style: Style, it: Item, first: bool)
    requires style.FlowSeq? || style.FlowMap?
    ensures var key, v := Spell(Means(it.key)), if it.colon != [] then [ValueToken] + Spell(Means(it.value)) else [];
      SpellEntry(style, ItemMeans(style, it), first)
        == LeadKinds(first) + if it.asks != [] || it.colon != [] then [KeyToken] + (key + v) else key
  {
    hide Spell, Means;
    var e := ItemMeans(style, it);
    assert SpellPair(e) == [KeyToken] + Spell(e.key) + SpellValue(e);
    assert SpellPair(e) == [KeyToken] + (Spell(e.key) + SpellValue(e));
  }

  lemma {:induction false} ItemsFed(style: Style, items: seq<Item>, s: Scan, first: bool, end: Mark) returns (r: Scan)
    requires (style.FlowSeq? || style.FlowMap?) && ItemsWell(items, first) && Inside(s, AllLexemes(items), end)
    requires first ==> s.allowed && TopFree(s)
    ensures Scanned(s, AllLexemes(items), SpellEntries(style, AllMean(style, items), first), end, r)
    ensures items == [] ==> r == s
    decreases items, 3
  {
    hide Scanned, Inside, SpellEntry, ItemLexemes, ItemWell, ItemMeans, TopFree;
    if items == [] {
      r := s;
      assert AllLexemes(items) == [] && SpellEntries(style, AllMean(style, items), first) == [];
      ScannedNothing(s, end);
    } else {
      var more := AllMean(style, items[1..]);
      InsideOn(s, ItemLexemes(items[0]), AllLexemes(items[1..]), end);
      var m := ItemFed(style, items[0], s, first, end);
      r := ItemsFed(style, items[1..], m, false, end);
      ScannedOn(s, ItemLexemes(items[0]), SpellEntry(style, ItemMeans(style, items[0]), first), m,
                AllLexemes(items[1..]), SpellEntries(style, more, false), end, r);
      assert AllMean(style, items)[1..] == more;
    }
  }

  lemma {:induction false} InlineFed(n: Layout, s: Scan, end: Mark) returns (r: Scan)
    requires FlowWell(n) && NodeReady(n, s, end)
    ensures NodeScanned(n, s, end, r)
    decreases n, 1
  {
    if n.Leaf? {
      r := LeafFed(n, s, end);
    } else {
      r := FlowFed(n, s, end);
    }
  }

  lemma {:induction false} LeafFed(n: Layout, s: Scan, end: Mark) returns (r: Scan)
    requires n.Leaf? && FlowWell(n) && NodeReady(n, s, end)
    ensures NodeScanned(n, s, end, r)
  {
    hide Inv, Fed, Added, Timely, Reaches, Placed, Marked, Consecutive, Spell;
    LeafIs(n);
    r := KeyablesFed(Lexemes(n), s, Lexemes(n), end);
  }

  lemma {:induction false} LeafIs(n: Layout)
    requires n.Leaf? && FlowWell(n)
    ensures Lexemes(n) == Outer(n) && Lexemes(n) != [] && AllKeyable(Lexemes(n)) && Spell(Means(n)) == KindsOf(Lexemes(n))
  {
    PropsSpelled(n.props);
    if n.content != [] {
      assert KindsOf(n.props + n.content) == KindsOf(n.props) + [KindOf(n.content[0])];
    } else {
      assert n.props + n.content == n.props;
    }
  }

  /** The closing bracket: back on the level below. */
  lemma CloseFed(s: Scan, l: Lexeme, end: Mark) returns (r: Scan)
    requires Inside(s, [l], end) && l.what.FlowClose?
    ensures Fed(s, [l], r) && Inv(r) && Added(s, r, [KindOf(l)]) && r.mark == l.after && !r.allowed
    ensures r.level == s.level - 1 && r.indent == s.indent && r.indents == s.indents
    ensures |r.keys| == |s.keys| - 1 && Aged(s.keys[..|s.keys| - 1], r.keys, end) && Timely(r.keys, end)
  {
    ChainFirst(s.mark, [l]);
    ChainBounds(s.mark, [l], end);
    TimelyEarlier(s.keys, l.start, end);
    hide Inv, Fetch, Added, Fed, Follows;
    HasKeys(s);
    r := StepClose(s, l);
    FedOne(s, l, r);
    AddedOne(s, r, Token(l.what.kind, l.start, l.end));
    FreshPart(s.keys, l.start, end);
  }

  lemma FreshPart(keys: seq<SimpleKey>, start: Mark, end: Mark)
    requires keys != [] && Reaches(start, end) && Timely(keys, end)
    ensures Aged(keys[..|keys| - 1], Fresh(keys, start)[..|keys| - 1], end)
    ensures Timely(Fresh(keys, start)[..|keys| - 1], end)
  {
  }

  lemma {:induction false} CommaOrNotFed(comma: seq<Lexeme>, s: Scan, end: Mark) returns (r: Scan)
    requires AtMost(comma, Comma) && Inside(s, comma, end)
    ensures Scanned(s, comma, if comma != [] then [FlowEntryToken] else [], end, r)
  {
    hide Scanned, Inside;
    if comma == [] {
      r := s;
      ScannedNothing(s, end);
    } else {
      assert comma == [comma[0]];
      r := CommaFed(s, comma[0], end);
    }
  }

  /** The entries, a comma perhaps, and the closing bracket. */
  lemma {:induction false} BodyFed(n: Layout, o: Scan, end: Mark) returns (r: Scan)
    requires n.Flow? && FlowWell(n) && o.allowed && TopFree(o)
    requires Inside(o, AllLexemes(n.items) + (n.comma + [n.closer]), end)
    ensures var style := FlowStyle(n.opener);
      Added(o, r, SpellEntries(style, AllMean(style, n.items), true) + Tail(style, n.comma != []))
    ensures Fed(o, AllLexemes(n.items) + (n.comma + [n.closer]), r) && Inv(r) && r.mark == n.closer.after
    ensures r.level == o.level - 1 && r.indent == o.indent && r.indents == o.indents
    ensures |r.keys| == |o.keys| - 1 && Aged(o.keys[..|o.keys| - 1], r.keys, end) && Timely(r.keys, end)
    decreases n.items, 4
  {
    hide Inside, ItemsWell, SpellEntries, Tail, Inv, Fed, Added, Timely, Aged, AllLexemes, AllMean;
    var style := FlowStyle(n.opener);
    var ks := SpellEntries(style, AllMean(style, n.items), true);
    var c: seq<TokenKind> := if n.comma != [] then [FlowEntryToken] else [];
    InsideOn(o, AllLexemes(n.items), n.comma + [n.closer], end);
    var q := ItemsFed(style, n.items, o, true, end);
    InsideOn(q, n.comma, [n.closer], end);
    var p := CommaOrNotFed(n.comma, q, end);
    ScannedOn(o, AllLexemes(n.items), ks, q, n.comma, c, end, p);
    r := CloseFed(p, n.closer, end);
    FedFed(o, AllLexemes(n.items) + n.comma, p, [n.closer], r);
    AddedAdded(o, p, r, ks + c, [KindOf(n.closer)]);
    assert AllLexemes(n.items) + (n.comma + [n.closer]) == (AllLexemes(n.items) + n.comma) + [n.closer];
    TailIs(n);
    assert ks + Tail(style, n.comma != []) == (ks + c) + [KindOf(n.closer)];
    assert |p.keys| == |o.keys|;
    AllAged(o.keys[..|o.keys| - 1], p.keys[..|o.keys| - 1], r.keys, end);
  }

  lemma {:induction false} TailIs(n: Layout)
    requires n.Flow? && FlowWell(n)
    ensures Tail(FlowStyle(n.opener), n.comma != []) == (if n.comma != [] then [FlowEntryToken] else []) + [KindOf(n.closer)]
    ensures Opening(FlowStyle(n.opener)) == [KindOf(n.opener)]
    ensures n.opener.what.FlowOpen? && n.closer.what.FlowClose? && (FlowStyle(n.opener).FlowSeq? || FlowStyle(n.opener).FlowMap?)
    ensures WellProps(n.props)
  {
  }

  lemma {:induction false} FlowFed(n: Layout, s: Scan, end: Mark) returns (r: Scan)
    requires n.Flow? && FlowWell(n) && NodeReady(n, s, end)
    ensures NodeScanned(n, s, end, r)
    decreases n, 0
  {
    hide FlowWell, Inv, Fed, Added, Timely, Aged, Marked, Placed, Reaches, Consecutive, SpellEntries, Tail, SpellProps, AllLexemes, AllMean, IsFlowPair, WellProps;
    var head, body := n.props + [n.opener], AllLexemes(n.items) + (n.comma + [n.closer]);
    var all := Lexemes(n);
    assert all == head + body && all[0] == head[0];
    EndWithin(s.mark, head, body, end);
    TailIs(n);
    var o := StartFed(n.props, n.opener, s, all, end);
    EndIs(s.mark, n.props, n.opener);
    r := BodyFed(n, o, end);
    FedFed(s, head, o, body, r);
    PropsSpelled(n.props);
    AddedAdded(s, o, r, KindsOf(n.props) + [KindOf(n.opener)], Rest(FlowStyle(n.opener), AllMean(FlowStyle(n.opener), n.items), true, n.comma != []));
    FlowSpelled(n);
    assert o.keys[..|o.keys| - 1] == o.keys[..|s.keys|];
    MarkedAged(s, o.keys[..|s.keys|], r.keys, all, end);
    FlowEnd(n, s.mark);
  }

  lemma {:induction false} EndIs(mark: Mark, props: seq<Lexeme>, opener: Lexeme)
    ensures EndMark(mark, props + [opener]) == opener.after
  {
  }

  lemma {:induction false} FlowEnd(n: Layout, mark: Mark)
    requires n.Flow? && n.closer.what.FlowClose?
    ensures EndMark(mark, Lexemes(n)) == n.closer.after && !RunsOn(Lexemes(n))
  {
    var front := n.props + ([n.opener] + (AllLexemes(n.items) + n.comma));
    assert Lexemes(n) == front + [n.closer];
  }

  lemma {:induction false} FlowSpelled(n: Layout)
    requires n.Flow? && FlowWell(n) && SpellProps(PropsOf(n.props)) == KindsOf(n.props) && Opening(FlowStyle(n.opener)) == [KindOf(n.opener)]
    ensures var style := FlowStyle(n.opener);
      Spell(Means(n)) == KindsOf(n.props) + [KindOf(n.opener)] + Rest(style, AllMean(style, n.items), true, n.comma != [])
  {
    hide FlowWell, SpellProps, Opening, Rest, KindsOf, PropsOf, AllMean;
    CollectionSpelled(Means(n));
  }
}
