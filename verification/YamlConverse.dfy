/** What the parser takes is a sentence: the run is read backwards into the concrete syntax
    it went along.  The only runs left out are those in which a token that does not end
    the pair is consumed in the place of a missing single-pair key. */
module YamlConverse {
  import opened YamlEvents
  import opened YamlTokens
  import opened YamlStep
  import opened YamlGrammar
  import opened YamlSentences

  /** A token is consumed in the place of a missing key, and the pair is not thereby at its end:
      VALUE does no harm where the value is missing too, a comma where the sequence ends. */
  predicate Harms(tokens: seq<Token>, c: Config) {
    && c.state.FlowSequenceEntryMappingKey? && c.pos < |tokens|
    && (tokens[c.pos].kind.ValueToken? || EndsFlowPair(tokens[c.pos].kind))
    && !(c.pos + 1 < |tokens| && if tokens[c.pos].kind.ValueToken? then EndsFlowPair(tokens[c.pos + 1].kind)
                                 else tokens[c.pos].kind.FlowEntryToken? && tokens[c.pos + 1].kind.FlowSequenceEndToken?)
  }

  /** A run in which that does not happen. */
  ghost predicate Tidy(tokens: seq<Token>, c: Config, es: seq<Event>, d: Config)
    decreases |es|
  {
    if es == [] then c == d
    else
      var o := Step(tokens, c);
      !c.state.EndState? && !Harms(tokens, c) && o.Emits? && o.event == es[0] && Tidy(tokens, o.next, es[1..], d)
  }

  /** It comes to the end of the stream, from a configuration or after a step. */
  ghost predicate Completes(tokens: seq<Token>, c: Config, es: seq<Event>) {
    exists d :: Tidy(tokens, c, es, d) && d.state.EndState?
  }

  ghost predicate GoesOn(tokens: seq<Token>, o: Outcome, es: seq<Event>) {
    o.Emits? && es != [] && Completes(tokens, o.next, es[1..])
  }

  /** A run that has not ended takes a step. */
  lemma StepsOn(tokens: seq<Token>, c: Config, es: seq<Event>)
    requires Completes(tokens, c, es) && !c.state.EndState?
    ensures GoesOn(tokens, Step(tokens, c), es) && !Harms(tokens, c)
  {
    hide Step, Harms;
    var d :| Tidy(tokens, c, es, d) && d.state.EndState?;
    assert Tidy(tokens, Step(tokens, c).next, es[1..], d);
  }

  /** The node that was read at a place. */
  ghost predicate Reads(tokens: seq<Token>, pos: nat, n: Syntax, tags: seq<TagDirective>, block: bool, indentless: bool, optional: bool) {
    Lies(tokens, pos, Spell(n)) && Good(n, tags, block, indentless, optional) && Sound(n)
  }

  lemma LiesJoin(tokens: seq<Token>, pos: nat, a: seq<TokenKind>, b: seq<TokenKind>)
    requires Lies(tokens, pos, a) && Lies(tokens, pos + |a|, b)
    ensures Lies(tokens, pos, a + b)
  {
    forall i | 0 <= i < |a + b| ensures tokens[pos + i].kind == (a + b)[i] {
      if i >= |a| {
        assert tokens[pos + |a| + (i - |a|)].kind == b[i - |a|];
      }
    }
  }

  lemma LiesOne(tokens: seq<Token>, pos: nat, k: TokenKind)
    requires pos < |tokens| && tokens[pos].kind == k
    ensures Lies(tokens, pos, [k])
  {
  }

  lemma LiesNone(tokens: seq<Token>, pos: nat)
    requires pos <= |tokens|
    ensures Lies(tokens, pos, [])
  {
  }

  lemma PropsBack(tokens: seq<Token>, pos: nat) returns (p: Props)
    requires pos <= |tokens|
    ensures var r := ReadProperties(tokens, pos);
      p.anchor == r.anchor && p.tag == r.tag && Lies(tokens, pos, SpellProps(p)) && r.next == pos + |SpellProps(p)|
  {
    var r := ReadProperties(tokens, pos);
    p := Props(r.anchor, r.tag, pos < |tokens| && tokens[pos].kind.AnchorToken?);
  }

  // ------------------------------------------------------------------ nodes

  lemma {:induction false} NodeBack(tokens: seq<Token>, c: Config, block: bool, indentless: bool, es: seq<Event>)
    returns (n: Syntax, rest: seq<Event>)
    requires c.states != [] && GoesOn(tokens, NodeStep(tokens, c, block, indentless), es)
    ensures !n.Absent? && Reads(tokens, c.pos, n, c.tags, block, indentless, false)
    ensures |rest| < |es| && Completes(tokens, Pop(c, c.pos + |Spell(n)|), rest)
    decreases |es|, 1
  {
    hide Lies, Completes, ReadProperties, NodeContentStep, SpellProps, TagText;
    rest := es[1..];
    if tokens[c.pos].kind.AliasToken? {
      n := Alias(tokens[c.pos].kind.name);
      LiesOne(tokens, c.pos, tokens[c.pos].kind);
    } else {
      var p := PropsBack(tokens, c.pos);
      var d := c.(pos := c.pos + |SpellProps(p)|);
      var k := tokens[d.pos].kind;
      ContentCases(tokens, d, block, indentless, p.anchor, TagText(p.tag, c.tags));
      if Opens(k, block, indentless) {
        n, rest := CollectionBack(tokens, c, p, block, indentless, es);
      } else if k.ScalarToken? {
        n := Scalar(p, k.value, k.plain);
        LiesOne(tokens, d.pos, k);
        LiesJoin(tokens, c.pos, SpellProps(p), [k]);
      } else {
        n := Bare(p);
      }
    }
  }

  lemma {:induction false} CollectionBack(tokens: seq<Token>, c: Config, p: Props, block: bool, indentless: bool, es: seq<Event>)
    returns (n: Syntax, rest: seq<Event>)
    requires c.states != [] && Lies(tokens, c.pos, SpellProps(p)) && GoodTag(p, c.tags) && es != []
    requires var pos := c.pos + |SpellProps(p)|;
      && pos < |tokens| && Opens(tokens[pos].kind, block, indentless)
      && var s := StyleOf(tokens[pos].kind);
         && Allowed(s, block, indentless) && (s.Indentless? ==> tokens[pos].kind.BlockEntryToken?)
         && Completes(tokens, c.(pos := pos, state := FirstState(s)), es[1..])
    ensures !n.Absent? && Reads(tokens, c.pos, n, c.tags, block, indentless, false)
    ensures |rest| < |es| && Completes(tokens, Pop(c, c.pos + |Spell(n)|), rest)
    decreases |es|, 0
  {
    hide Lies, Step, Completes, EntryStep, SpellProps, Rest, InOrder, Good, Spell, Sound, SoundEntries, GoodEntries, Opens, Allowed, GoodTag;
    var pos := c.pos + |SpellProps(p)|;
    var s := StyleOf(tokens[pos].kind);
    var inside := c.(pos := pos, state := FirstState(s));
    FirstIs(tokens, s, inside);
    StepsOn(tokens, inside, es[1..]);
    var at := inside.(pos := pos + |Opening(s)|);
    var entries, trailing;
    entries, trailing, rest := EntriesBack(tokens, s, at, true, es[1..]);
    n := Collection(p, s, entries, trailing);
    OpeningLies(tokens, pos, block, indentless);
    LiesJoin(tokens, pos, Opening(s), Rest(s, entries, true, trailing));
    LiesJoin(tokens, c.pos, SpellProps(p), Opening(s) + Rest(s, entries, true, trailing));
    CollectionSpelled(n);
    CollectionIsGood(n, c.tags, block, indentless);
    assert c.pos + |Spell(n)| == at.pos + |Rest(s, entries, true, trailing)|;
    assert Pop(c, c.pos + |Spell(n)|) == Pop(at, at.pos + |Rest(s, entries, true, trailing)|);
  }

  function StyleOf(k: TokenKind): Style {
    match k
    case BlockSequenceStartToken => BlockSeq
    case BlockMappingStartToken => BlockMap
    case FlowSequenceStartToken => FlowSeq
    case FlowMappingStartToken => FlowMap
    case _ => Indentless
  }

  lemma OpeningLies(tokens: seq<Token>, pos: nat, block: bool, indentless: bool)
    requires pos < |tokens| && Opens(tokens[pos].kind, block, indentless)
    ensures Lies(tokens, pos, Opening(StyleOf(tokens[pos].kind)))
  {
  }

  /** The step of a node's content, by the token that decides. */
  lemma ContentCases(tokens: seq<Token>, d: Config, block: bool, indentless: bool, anchor: Option<string>, tag: string)
    requires d.pos < |tokens| && NodeContentStep(tokens, d, block, indentless, anchor, tag).Emits?
    ensures var k := tokens[d.pos].kind;
      var o := NodeContentStep(tokens, d, block, indentless, anchor, tag);
      if Opens(k, block, indentless) then
        o.next == d.(state := FirstState(StyleOf(k))) && Allowed(StyleOf(k), block, indentless)
        && (StyleOf(k).Indentless? ==> k.BlockEntryToken?)
      else if k.ScalarToken? then o.next == Pop(d, d.pos + 1)
      else o.next == Pop(d, d.pos) && (tag != "" || (anchor.Some? && anchor.value != ""))
  {
  }

  lemma FirstIs(tokens: seq<Token>, s: Style, c: Config)
    requires c.state == FirstState(s)
    ensures Step(tokens, c) == EntryStep(tokens, s, c.(pos := c.pos + |Opening(s)|), true) && !c.state.EndState?
  {
    hide BlockSequenceStep, BlockMappingKeyStep, IndentlessSequenceStep, FlowSequenceStep, FlowMappingKeyStep;
  }

  /** What the entries of a collection must be. */
  ghost predicate GoodEntries(s: Style, es: seq<Entry>, tags: seq<TagDirective>) {
    forall i | 0 <= i < |es| :: GoodEntry(s, es[i], tags) && (s.BlockMap? ==> es[i].keyed)
  }

  lemma CollectionIsGood(n: Syntax, tags: seq<TagDirective>, block: bool, indentless: bool)
    requires n.Collection? && GoodTag(n.props, tags) && Allowed(n.style, block, indentless)
    requires GoodEntries(n.style, n.entries, tags) && SoundEntries(n.style, n.entries, n.trailing)
    requires n.trailing ==> (n.style.FlowSeq? || n.style.FlowMap?) && n.entries != []
    requires n.style.Indentless? ==> n.entries != []
    ensures Good(n, tags, block, indentless, false) && Sound(n)
  {
    hide GoodEntry, SoundEntries;
  }

  // ---------------------------------------------------------------- entries

  /** The entries from here on, up to the end of the collection. */
  lemma {:induction false} EntriesBack(tokens: seq<Token>, s: Style, c: Config, first: bool, es: seq<Event>)
    returns (entries: seq<Entry>, trailing: bool, rest: seq<Event>)
    requires c.states != [] && GoesOn(tokens, EntryStep(tokens, s, c, first), es)
    requires s.Indentless? && first ==> c.pos < |tokens| && tokens[c.pos].kind.BlockEntryToken?
    ensures Lies(tokens, c.pos, Rest(s, entries, first, trailing))
    ensures GoodEntries(s, entries, c.tags) && SoundEntries(s, entries, trailing)
    ensures trailing ==> (s.FlowSeq? || s.FlowMap?) && (first ==> entries != [])
    ensures s.Indentless? && first ==> entries != []
    ensures |rest| < |es| && Completes(tokens, Pop(c, c.pos + |Rest(s, entries, first, trailing)|), rest)
    decreases |es|, 6
  {
    hide Lies, Step, Completes, EntryStep, SpellEntry, SpellEntries, Tail, Rest, GoodEntry, SoundEntry, SoundEntries, Harms;
    if Closes(tokens, s, c, first) {
      trailing := CloseBack(tokens, s, c, first);
      entries, rest := [], es[1..];
      NoEntries(s, first, trailing);
      NoneSound(s, trailing);
    } else if AtHollow(tokens, s, c, first) {
      entries, rest := HollowBack(tokens, s, c, first, es);
      trailing := true;
    } else {
      var e, mid := EntryBack(tokens, s, c, first, es);
      var d := Config(c.pos + |SpellEntry(s, e, first)|, Home(s), c.states, c.tags);
      StepsOn(tokens, d, mid);
      HomeStep(tokens, s, d);
      var more;
      more, trailing, rest := EntriesBack(tokens, s, d, false, mid);
      entries := [e] + more;
      LiesJoin(tokens, c.pos, SpellEntry(s, e, first), Rest(s, more, false, trailing));
      OneMore(s, e, more, first, trailing, c.tags);
    }
  }

  lemma NoneSound(s: Style, trailing: bool)
    ensures SoundEntries(s, [], trailing)
  {
  }

  /** A sound entry in front of sound entries. */
  lemma OneMore(s: Style, e: Entry, more: seq<Entry>, first: bool, trailing: bool, tags: seq<TagDirective>)
    requires GoodEntries(s, more, tags) && SoundEntries(s, more, trailing)
    requires GoodEntry(s, e, tags) && (s.BlockMap? ==> e.keyed) && SoundEntry(s, e, false)
    ensures GoodEntries(s, [e] + more, tags) && SoundEntries(s, [e] + more, trailing)
    ensures Rest(s, [e] + more, first, trailing) == SpellEntry(s, e, first) + Rest(s, more, false, trailing)
  {
    hide GoodEntry, SpellEntry, Sound;
    assert ([e] + more)[1..] == more;
  }

  /** The collection ends here, behind a comma perhaps. */
  predicate Closes(tokens: seq<Token>, s: Style, c: Config, first: bool) {
    match s
    case BlockSeq => Kind(tokens, c.pos) == Some(BlockEndToken)
    case BlockMap => Kind(tokens, c.pos) == Some(BlockEndToken)
    case Indentless => Kind(tokens, c.pos) != Some(BlockEntryToken)
    case FlowSeq =>
      var p := AfterComma(tokens, c.pos, first, FlowSequenceEndToken);
      p.Some? && Kind(tokens, p.value) == Some(FlowSequenceEndToken)
    case FlowMap =>
      var p := AfterComma(tokens, c.pos, first, FlowMappingEndToken);
      p.Some? && Kind(tokens, p.value) == Some(FlowMappingEndToken)
  }

  lemma CloseBack(tokens: seq<Token>, s: Style, c: Config, first: bool) returns (trailing: bool)
    requires Closes(tokens, s, c, first) && EntryStep(tokens, s, c, first).Emits?
    ensures trailing ==> (s.FlowSeq? || s.FlowMap?) && !first
    ensures Lies(tokens, c.pos, Tail(s, trailing))
    ensures EntryStep(tokens, s, c, first).next == Pop(c, c.pos + |Tail(s, trailing)|)
  {
    hide NodeStep;
    trailing := (s.FlowSeq? || s.FlowMap?) && tokens[c.pos].kind.FlowEntryToken?;
  }

  /** KEY, and a comma behind it that is taken for its node. */
  predicate AtHollow(tokens: seq<Token>, s: Style, c: Config, first: bool) {
    s.FlowSeq? &&
    var p := AfterComma(tokens, c.pos, first, FlowSequenceEndToken);
    p.Some? && Kind(tokens, p.value) == Some(KeyToken) && Kind(tokens, p.value + 1) == Some(FlowEntryToken)
  }

  lemma HollowBack(tokens: seq<Token>, s: Style, c: Config, first: bool, es: seq<Event>)
    returns (entries: seq<Entry>, rest: seq<Event>)
    requires AtHollow(tokens, s, c, first) && c.states != [] && GoesOn(tokens, EntryStep(tokens, s, c, first), es)
    ensures s.FlowSeq? && entries != []
    ensures Lies(tokens, c.pos, Rest(s, entries, first, true))
    ensures GoodEntries(s, entries, c.tags) && SoundEntries(s, entries, true)
    ensures |rest| < |es| && Completes(tokens, Pop(c, c.pos + |Rest(s, entries, first, true)|), rest)
  {
    hide Lies, Completes, Step, EntryStep, Harms;
    entries := [NOTHING];
    var p := HollowStarts(tokens, s, c, first);
    var c1 := Config(p + 1, FlowSequenceEntryMappingKey, c.states, c.tags);
    StepsOn(tokens, c1, es[1..]);
    HollowSwallowed(tokens, c1);
    rest := NothingBack(tokens, c1, es[1..]);
    var d := Config(p + 2, FlowSequenceEntry, c.states, c.tags);
    StepsOn(tokens, d, rest);
    SequenceClosed(tokens, d);
    rest := rest[1..];
    HollowSpelled(tokens, c, p, first);
    HollowIsGood(c.tags);
  }

  lemma HollowStarts(tokens: seq<Token>, s: Style, c: Config, first: bool) returns (p: nat)
    requires AtHollow(tokens, s, c, first)
    ensures AfterComma(tokens, c.pos, first, FlowSequenceEndToken) == Some(p) && p + 1 < |tokens|
    ensures tokens[p].kind.KeyToken? && tokens[p + 1].kind.FlowEntryToken?
    ensures EntryStep(tokens, s, c, first) == Emits(MappingStart(None, "", true), Config(p + 1, FlowSequenceEntryMappingKey, c.states, c.tags))
    ensures p == if first then c.pos else c.pos + 1
    ensures first || (c.pos < |tokens| && tokens[c.pos].kind.FlowEntryToken?)
  {
    hide NodeStep;
    p := AfterComma(tokens, c.pos, first, FlowSequenceEndToken).value;
  }

  lemma HollowSwallowed(tokens: seq<Token>, c: Config)
    requires c.state.FlowSequenceEntryMappingKey? && !Harms(tokens, c) && c.pos < |tokens| && tokens[c.pos].kind.FlowEntryToken?
    ensures c.pos + 1 < |tokens| && tokens[c.pos + 1].kind.FlowSequenceEndToken?
  {
  }

  lemma SequenceClosed(tokens: seq<Token>, d: Config)
    requires d.state.FlowSequenceEntry? && d.pos < |tokens| && tokens[d.pos].kind.FlowSequenceEndToken?
    ensures Step(tokens, d) == Emits(SequenceEnd, Pop(d, d.pos + 1))
  {
    hide NodeStep;
  }

  lemma HollowSpelled(tokens: seq<Token>, c: Config, p: nat, first: bool)
    requires p + 2 < |tokens| && tokens[p].kind.KeyToken? && tokens[p + 1].kind.FlowEntryToken? && tokens[p + 2].kind.FlowSequenceEndToken?
    requires p == (if first then c.pos else c.pos + 1) && (first || tokens[c.pos].kind.FlowEntryToken?)
    ensures var r := Rest(FlowSeq, [NOTHING], first, true);
      Lies(tokens, c.pos, r) && c.pos + |r| == p + 3
  {
    var comma: seq<TokenKind> := if first then [] else [FlowEntryToken];
    NothingSpelled(first);
    assert Rest(FlowSeq, [NOTHING], first, true) == comma + [KeyToken, FlowEntryToken, FlowSequenceEndToken];
  }

  lemma NothingSpelled(first: bool)
    ensures SpellEntries(FlowSeq, [NOTHING], first) == (if first then [] else [FlowEntryToken]) + [KeyToken]
  {
    assert SpellEntries(FlowSeq, [NOTHING][1..], false) == [];
    assert SpellPair(NOTHING) == [KeyToken];
  }

  lemma HollowIsGood(tags: seq<TagDirective>)
    ensures GoodEntries(FlowSeq, [NOTHING], tags) && SoundEntries(FlowSeq, [NOTHING], true)
  {
    assert [NOTHING][1..] == [];
    assert SoundEntry(FlowSeq, NOTHING, true);
  }

  /** A pair of which neither node is given, whatever was consumed in the place of its key. */
  lemma NothingBack(tokens: seq<Token>, c: Config, es: seq<Event>) returns (rest: seq<Event>)
    requires c.state.FlowSequenceEntryMappingKey? && c.pos + 1 < |tokens| && GoesOn(tokens, Step(tokens, c), es)
    requires tokens[c.pos].kind.ValueToken? || EndsFlowPair(tokens[c.pos].kind)
    requires EndsFlowPair(tokens[c.pos + 1].kind)
    ensures |rest| < |es| && Completes(tokens, c.(pos := c.pos + 1, state := FlowSequenceEntry), rest)
  {
    hide Completes, Step;
    PairSwallows(tokens, c);
    var d := c.(pos := c.pos + 1, state := FlowSequenceEntryMappingValue);
    StepsOn(tokens, d, es[1..]);
    NoValueStep(tokens, d);
    var d2 := d.(state := FlowSequenceEntryMappingEnd);
    rest := EndBack(tokens, d2, es[2..]);
  }

  lemma NoValueStep(tokens: seq<Token>, d: Config)
    requires d.state.FlowSequenceEntryMappingValue? && d.pos < |tokens| && !tokens[d.pos].kind.ValueToken?
    ensures Step(tokens, d) == Emits(EmptyScalar, d.(state := FlowSequenceEntryMappingEnd))
  {
    hide NodeStep;
  }

  /** The end of a single pair. */
  lemma EndBack(tokens: seq<Token>, c: Config, es: seq<Event>) returns (rest: seq<Event>)
    requires c.state.FlowSequenceEntryMappingEnd? && Completes(tokens, c, es)
    ensures |rest| < |es| && Completes(tokens, c.(state := FlowSequenceEntry), rest)
  {
    StepsOn(tokens, c, es);
    rest := es[1..];
    hide Completes, NodeStep;
  }

  // ------------------------------------------------------------- one entry

  /** A child read at `pos`, or an empty scalar in its place. */
  function ChildStep(tokens: seq<Token>, c: Config, pos: nat, next: State, missing: bool, block: bool, indentless: bool): Outcome {
    if missing then Missing(c, pos, next) else NodeStep(tokens, YamlStep.Push(c, pos, next), block, indentless)
  }

  lemma {:induction false} ChildBack(tokens: seq<Token>, c: Config, pos: nat, next: State, missing: bool, block: bool, indentless: bool,
                                     es: seq<Event>) returns (n: Syntax, rest: seq<Event>)
    requires GoesOn(tokens, ChildStep(tokens, c, pos, next, missing, block, indentless), es) && pos <= |tokens|
    ensures Reads(tokens, pos, n, c.tags, block, indentless, missing) && Good(n, c.tags, block, indentless, true)
    ensures missing <==> n.Absent?
    ensures |rest| < |es| && Completes(tokens, Config(pos + |Spell(n)|, next, c.states, c.tags), rest)
    decreases |es|, 2
  {
    hide Completes, NodeStep;
    if missing {
      n, rest := Absent, es[1..];
    } else {
      n, rest := NodeBack(tokens, YamlStep.Push(c, pos, next), block, indentless, es);
      assert Init(c.states + [next]) == c.states;
    }
  }

  /** The value of a pair, given or not. */
  lemma {:induction false} ValueBack(tokens: seq<Token>, s: Style, d: Config, es: seq<Event>)
    returns (valued: bool, value: Syntax, rest: seq<Event>)
    requires (s.BlockMap? || s.FlowMap? || s.FlowSeq?) && d.state == ValueState(s) && Completes(tokens, d, es)
    ensures (!valued ==> value.Absent?) && Good(value, d.tags, s.BlockMap?, s.BlockMap?, true) && Sound(value)
    ensures var v := SpellValue(Entry(true, Absent, valued, value));
      && Lies(tokens, d.pos, v)
      && |rest| < |es| && Completes(tokens, Config(d.pos + |v|, AfterValue(s), d.states, d.tags), rest)
    decreases |es|, 3
  {
    hide Completes, Step, Lies, Good, Spell, NodeStep;
    StepsOn(tokens, d, es);
    var missing;
    valued, missing := ValueCases(tokens, s, d);
    if valued {
      value, rest := ChildBack(tokens, d, d.pos + 1, AfterValue(s), missing, s.BlockMap?, s.BlockMap?, es);
      LiesOne(tokens, d.pos, ValueToken);
      LiesJoin(tokens, d.pos, [ValueToken], Spell(value));
    } else {
      value, rest := Absent, es[1..];
      LiesNone(tokens, d.pos);
      AbsentIsGood(d.tags, s.BlockMap?);
    }
  }

  lemma AbsentIsGood(tags: seq<TagDirective>, block: bool)
    ensures Good(Absent, tags, block, block, true) && Spell(Absent) == []
  {
  }

  lemma ValueCases(tokens: seq<Token>, s: Style, d: Config) returns (valued: bool, missing: bool)
    requires (s.BlockMap? || s.FlowMap? || s.FlowSeq?) && d.state == ValueState(s) && Step(tokens, d).Emits?
    ensures d.pos < |tokens| && (valued <==> tokens[d.pos].kind.ValueToken?)
    ensures Step(tokens, d) == if valued then ChildStep(tokens, d, d.pos + 1, AfterValue(s), missing, s.BlockMap?, s.BlockMap?)
                               else Missing(d, d.pos, AfterValue(s))
  {
    hide NodeStep;
    valued, missing := tokens[d.pos].kind.ValueToken?, false;
    if valued {
      var k := tokens[d.pos + 1].kind;
      missing := if s.BlockMap? then EndsBlockMappingPart(k) else if s.FlowMap? then EndsFlowMappingPart(k) else EndsFlowPair(k);
    }
  }

  lemma {:induction false} EntryBack(tokens: seq<Token>, s: Style, c: Config, first: bool, es: seq<Event>)
    returns (e: Entry, rest: seq<Event>)
    requires c.states != [] && GoesOn(tokens, EntryStep(tokens, s, c, first), es)
    requires !Closes(tokens, s, c, first) && !AtHollow(tokens, s, c, first)
    ensures Lies(tokens, c.pos, SpellEntry(s, e, first))
    ensures GoodEntry(s, e, c.tags) && (s.BlockMap? ==> e.keyed) && SoundEntry(s, e, false)
    ensures |rest| < |es| && Completes(tokens, Config(c.pos + |SpellEntry(s, e, first)|, Home(s), c.states, c.tags), rest)
    decreases |es|, 5
  {
    hide Completes, Step, Lies, Good, Spell, NodeStep, EntryStep, SpellPair, SpellValue, Closes, AtHollow, Sound;
    if s.BlockSeq? || s.Indentless? {
      var n;
      var missing := ItemCases(tokens, s, c, first);
      n, rest := ChildBack(tokens, c, c.pos + 1, Home(s), missing, true, false, es);
      e := Entry(false, n, false, Absent);
      LiesOne(tokens, c.pos, BlockEntryToken);
      LiesJoin(tokens, c.pos, [BlockEntryToken], Spell(n));
      AbsentIsGood(c.tags, true);
      AbsentIsSound();
    } else if s.BlockMap? {
      var missing := BlockKeyCases(tokens, c, first);
      e, rest := PairBack(tokens, s, c, c.pos, missing, es);
    } else {
      var comma: seq<TokenKind> := if first then [] else [FlowEntryToken];
      var pos := FlowPlace(tokens, s, c, first);
      if tokens[pos].kind.KeyToken? {
        if s.FlowMap? {
          var missing := FlowKeyCases(tokens, c, pos, first);
          e, rest := PairBack(tokens, s, c, pos, missing, es);
        } else {
          e, rest := SinglePairBack(tokens, c, pos, first, es);
        }
        LiesJoin(tokens, c.pos, comma, SpellPair(e));
      } else {
        e, rest := LoneBack(tokens, s, c, pos, first, es);
        LiesJoin(tokens, c.pos, comma, Spell(e.key));
      }
    }
  }

  lemma AbsentIsSound()
    ensures Sound(Absent)
  {
  }

  lemma ItemCases(tokens: seq<Token>, s: Style, c: Config, first: bool) returns (missing: bool)
    requires (s.BlockSeq? || s.Indentless?) && !Closes(tokens, s, c, first) && EntryStep(tokens, s, c, first).Emits?
    ensures c.pos < |tokens| && tokens[c.pos].kind.BlockEntryToken?
    ensures EntryStep(tokens, s, c, first) == ChildStep(tokens, c, c.pos + 1, Home(s), missing, true, false)
  {
    hide NodeStep;
    var k := tokens[c.pos + 1].kind;
    missing := if s.BlockSeq? then k.BlockEntryToken? || k.BlockEndToken? else EndsIndentlessEntry(k);
  }

  lemma BlockKeyCases(tokens: seq<Token>, c: Config, first: bool) returns (missing: bool)
    requires !Closes(tokens, BlockMap, c, first) && EntryStep(tokens, BlockMap, c, first).Emits?
    ensures c.pos < |tokens| && tokens[c.pos].kind.KeyToken?
    ensures EntryStep(tokens, BlockMap, c, first) == ChildStep(tokens, c, c.pos + 1, BlockMappingValue, missing, true, true)
  {
    hide NodeStep;
    missing := EndsBlockMappingPart(tokens[c.pos + 1].kind);
  }

  /** KEY node? (VALUE node?)? in a mapping, after the key has been recognised. */
  lemma {:induction false} PairBack(tokens: seq<Token>, s: Style, c: Config, pos: nat, missing: bool, es: seq<Event>)
    returns (e: Entry, rest: seq<Event>)
    requires (s.BlockMap? || s.FlowMap?) && pos < |tokens| && tokens[pos].kind.KeyToken?
    requires GoesOn(tokens, ChildStep(tokens, c, pos + 1, ValueState(s), missing, s.BlockMap?, s.BlockMap?), es)
    ensures e.keyed && Lies(tokens, pos, SpellPair(e)) && GoodEntry(s, e, c.tags) && SoundEntry(s, e, false)
    ensures |rest| < |es| && Completes(tokens, Config(pos + |SpellPair(e)|, Home(s), c.states, c.tags), rest)
    decreases |es|, 4
  {
    hide Completes, Step, Lies, Good, Spell, ChildStep, Sound;
    var key, valued, value;
    key, rest := ChildBack(tokens, c, pos + 1, ValueState(s), missing, s.BlockMap?, s.BlockMap?, es);
    var d := Config(pos + 1 + |Spell(key)|, ValueState(s), c.states, c.tags);
    valued, value, rest := ValueBack(tokens, s, d, rest);
    e := Entry(true, key, valued, value);
    PairLies(tokens, pos, e);
  }

  lemma PairLies(tokens: seq<Token>, pos: nat, e: Entry)
    requires pos < |tokens| && tokens[pos].kind.KeyToken? && Lies(tokens, pos + 1, Spell(e.key))
    requires Lies(tokens, pos + 1 + |Spell(e.key)|, SpellValue(Entry(true, Absent, e.valued, e.value)))
    ensures Lies(tokens, pos, SpellPair(e)) && |SpellPair(e)| == 1 + |Spell(e.key)| + |SpellValue(Entry(true, Absent, e.valued, e.value))|
  {
    hide Lies, Spell;
    assert SpellValue(e) == SpellValue(Entry(true, Absent, e.valued, e.value));
    LiesJoin(tokens, pos + 1, Spell(e.key), SpellValue(e));
    LiesOne(tokens, pos, KeyToken);
    LiesJoin(tokens, pos, [KeyToken], Spell(e.key) + SpellValue(e));
    assert SpellPair(e) == [KeyToken] + (Spell(e.key) + SpellValue(e));
  }

  /** Where the entry itself starts, behind its comma. */
  lemma FlowPlace(tokens: seq<Token>, s: Style, c: Config, first: bool) returns (pos: nat)
    requires (s.FlowSeq? || s.FlowMap?) && !Closes(tokens, s, c, first) && EntryStep(tokens, s, c, first).Emits?
    ensures var comma: seq<TokenKind> := if first then [] else [FlowEntryToken];
      Lies(tokens, c.pos, comma) && pos == c.pos + |comma| && pos < |tokens|
    ensures AfterComma(tokens, c.pos, first, if s.FlowSeq? then FlowSequenceEndToken else FlowMappingEndToken) == Some(pos)
    ensures tokens[pos].kind != if s.FlowSeq? then FlowSequenceEndToken else FlowMappingEndToken
  {
    hide NodeStep;
    pos := AfterComma(tokens, c.pos, first, if s.FlowSeq? then FlowSequenceEndToken else FlowMappingEndToken).value;
  }

  lemma FlowKeyCases(tokens: seq<Token>, c: Config, pos: nat, first: bool) returns (missing: bool)
    requires AfterComma(tokens, c.pos, first, FlowMappingEndToken) == Some(pos) && pos < |tokens| && tokens[pos].kind.KeyToken?
    requires EntryStep(tokens, FlowMap, c, first).Emits?
    ensures EntryStep(tokens, FlowMap, c, first) == ChildStep(tokens, c, pos + 1, FlowMappingValue, missing, false, false)
  {
    hide NodeStep, AfterComma;
    var k := tokens[pos + 1].kind;
    missing := k.ValueToken? || EndsFlowMappingPart(k);
  }

  /** An entry without KEY. */
  lemma {:induction false} LoneBack(tokens: seq<Token>, s: Style, c: Config, pos: nat, first: bool, es: seq<Event>)
    returns (e: Entry, rest: seq<Event>)
    requires s.FlowSeq? || s.FlowMap?
    requires AfterComma(tokens, c.pos, first, if s.FlowSeq? then FlowSequenceEndToken else FlowMappingEndToken) == Some(pos)
    requires pos < |tokens| && !tokens[pos].kind.KeyToken?
    requires tokens[pos].kind != if s.FlowSeq? then FlowSequenceEndToken else FlowMappingEndToken
    requires GoesOn(tokens, EntryStep(tokens, s, c, first), es)
    ensures !e.keyed && Lies(tokens, pos, Spell(e.key)) && GoodEntry(s, e, c.tags) && SoundEntry(s, e, false)
    ensures |rest| < |es| && Completes(tokens, Config(pos + |Spell(e.key)|, Home(s), c.states, c.tags), rest)
    decreases |es|, 4
  {
    hide Completes, Step, Lies, Good, Spell, NodeStep, AfterComma, Sound;
    var n;
    var next := if s.FlowSeq? then FlowSequenceEntry else FlowMappingEmptyValue;
    assert EntryStep(tokens, s, c, first) == ChildStep(tokens, c, pos, next, false, false, false);
    n, rest := ChildBack(tokens, c, pos, next, false, false, false, es);
    e := Entry(false, n, false, Absent);
    AbsentIsGood(c.tags, false);
    AbsentIsSound();
    if s.FlowMap? {
      var d := Config(pos + |Spell(n)|, FlowMappingEmptyValue, c.states, c.tags);
      StepsOn(tokens, d, rest);
      EmptyValueStep(tokens, d);
      rest := rest[1..];
    }
  }

  lemma EmptyValueStep(tokens: seq<Token>, d: Config)
    requires d.state.FlowMappingEmptyValue? && Step(tokens, d).Emits?
    ensures Step(tokens, d) == Emits(EmptyScalar, d.(state := FlowMappingKey))
  {
    hide NodeStep;
  }

  /** A single pair of a flow sequence. */
  lemma {:induction false} SinglePairBack(tokens: seq<Token>, c: Config, pos: nat, first: bool, es: seq<Event>)
    returns (e: Entry, rest: seq<Event>)
    requires AfterComma(tokens, c.pos, first, FlowSequenceEndToken) == Some(pos) && pos < |tokens| && tokens[pos].kind.KeyToken?
    requires !AtHollow(tokens, FlowSeq, c, first) && GoesOn(tokens, EntryStep(tokens, FlowSeq, c, first), es)
    ensures e.keyed && Lies(tokens, pos, SpellPair(e)) && GoodEntry(FlowSeq, e, c.tags) && SoundEntry(FlowSeq, e, false)
    ensures |rest| < |es| && Completes(tokens, Config(pos + |SpellPair(e)|, FlowSequenceEntry, c.states, c.tags), rest)
    decreases |es|, 4
  {
    hide Completes, Step, Lies, Good, Spell, NodeStep, AfterComma, SpellPair, FlowSequenceStep, Sound, Harms;
    PairStarts(tokens, c, pos, first);
    var c1 := Config(pos + 1, FlowSequenceEntryMappingKey, c.states, c.tags);
    StepsOn(tokens, c1, es[1..]);
    var swallowed := PairKeyCases(tokens, c, pos, first);
    if swallowed {
      rest := NothingBack(tokens, c1, es[1..]);
      e := Entry(true, Absent, true, Absent);
      AbsentIsGood(c.tags, false);
      AbsentIsSound();
      LiesOne(tokens, pos + 1, ValueToken);
      LiesNone(tokens, pos + 1);
      LoneValueSpelled();
      PairLies(tokens, pos, e);
    } else {
      var key, valued, value;
      key, rest := ChildBack(tokens, c1, pos + 1, FlowSequenceEntryMappingValue, false, false, false, es[1..]);
      var d := Config(pos + 1 + |Spell(key)|, FlowSequenceEntryMappingValue, c.states, c.tags);
      valued, value, rest := ValueBack(tokens, FlowSeq, d, rest);
      e := Entry(true, key, valued, value);
      PairLies(tokens, pos, e);
      rest := EndBack(tokens, Config(pos + |SpellPair(e)|, FlowSequenceEntryMappingEnd, c.states, c.tags), rest);
    }
  }

  lemma LoneValueSpelled()
    ensures SpellValue(Entry(true, Absent, true, Absent)) == [ValueToken]
  {
  }

  lemma PairKeyCases(tokens: seq<Token>, c: Config, pos: nat, first: bool) returns (swallowed: bool)
    requires AfterComma(tokens, c.pos, first, FlowSequenceEndToken) == Some(pos) && pos < |tokens| && tokens[pos].kind.KeyToken?
    requires !AtHollow(tokens, FlowSeq, c, first)
    requires var c1 := Config(pos + 1, FlowSequenceEntryMappingKey, c.states, c.tags);
      Step(tokens, c1).Emits? && !Harms(tokens, c1)
    ensures pos + 1 < |tokens|
    ensures if swallowed then pos + 2 < |tokens| && tokens[pos + 1].kind.ValueToken? && EndsFlowPair(tokens[pos + 2].kind)
            else var c1 := Config(pos + 1, FlowSequenceEntryMappingKey, c.states, c.tags);
                 Step(tokens, c1) == ChildStep(tokens, c1, pos + 1, FlowSequenceEntryMappingValue, false, false, false)
  {
    hide NodeStep, AfterComma;
    swallowed := tokens[pos + 1].kind.ValueToken?;
  }

  // -------------------------------------------------------------- documents

  lemma {:induction false} VersionIn(ks: seq<TokenKind>, i: nat)
    requires i < |ks| && ks[i].VersionDirectiveToken?
    ensures VersionOf(ks).Some?
  {
    if i < |ks| - 1 {
      assert ks[..|ks| - 1][i] == ks[i];
      VersionIn(ks[..|ks| - 1], i);
    }
  }

  lemma {:induction false} HandleIn(ks: seq<TokenKind>, i: nat)
    requires i < |ks| && ks[i].TagDirectiveToken?
    ensures HasHandle(TagsOf(ks), ks[i].handle)
  {
    var front := ks[..|ks| - 1];
    if i < |front| {
      assert front[i] == ks[i];
      HandleIn(front, i);
      var j :| 0 <= j < |TagsOf(front)| && TagsOf(front)[j].handle == ks[i].handle;
      assert TagsOf(ks)[j] == TagsOf(front)[j];
    } else {
      assert TagsOf(ks)[|TagsOf(front)|].handle == ks[i].handle;
    }
  }

  lemma {:induction false} DirectiveAdds(ks: seq<TokenKind>, k: TokenKind)
    requires GoodDirectives(ks) && (k == VersionDirectiveToken(1, 1) || k.TagDirectiveToken?)
    requires if k.TagDirectiveToken? then !HasHandle(TagsOf(ks), k.handle) else VersionOf(ks).None?
    ensures GoodDirectives(ks + [k])
    ensures VersionOf(ks + [k]) == if k.VersionDirectiveToken? then Some((1, 1)) else VersionOf(ks)
    ensures TagsOf(ks + [k]) == TagsOf(ks) + if k.TagDirectiveToken? then [TagDirective(k.handle, k.prefix)] else []
  {
    assert (ks + [k])[..|ks|] == ks;
    forall i | 0 <= i < |ks|
      ensures !(ks[i].VersionDirectiveToken? && k.VersionDirectiveToken?)
      ensures ks[i].TagDirectiveToken? && k.TagDirectiveToken? ==> ks[i].handle != k.handle
    {
      if ks[i].VersionDirectiveToken? {
        VersionIn(ks, i);
      } else if ks[i].TagDirectiveToken? {
        HandleIn(ks, i);
      }
    }
  }

  /** The directives that were read. */
  lemma {:induction false} DirectivesBack(tokens: seq<Token>, pos: nat, ks: seq<TokenKind>) returns (all: seq<TokenKind>)
    requires GoodDirectives(ks) && Lies(tokens, pos, ks)
    requires ReadDirectives(tokens, pos + |ks|, [], VersionOf(ks), TagsOf(ks)).Directives?
    ensures GoodDirectives(all) && Lies(tokens, pos, all)
    ensures ReadDirectives(tokens, pos + |ks|, [], VersionOf(ks), TagsOf(ks)) == Directives(pos + |all|, VersionOf(all), TagsOf(all))
    decreases |tokens| - pos - |ks|
  {
    hide Lies, GoodDirectives, VersionOf, TagsOf, HasHandle;
    var k := tokens[pos + |ks|].kind;
    if k.VersionDirectiveToken? || k.TagDirectiveToken? {
      assert [] + TagsOf(ks) == TagsOf(ks) && TagsOf(ks) + [] == TagsOf(ks);
      DirectiveAdds(ks, k);
      LiesOne(tokens, pos + |ks|, k);
      LiesJoin(tokens, pos, ks, [k]);
      all := DirectivesBack(tokens, pos, ks + [k]);
    } else {
      all := ks;
    }
  }

  /** The root of a document, or the empty place where it is left out. */
  lemma RootBack(tokens: seq<Token>, c: Config, explicit: bool, es: seq<Event>) returns (root: Syntax, rest: seq<Event>)
    requires c.state == (if explicit then DocumentContent else BlockNode) && c.states == [DocumentEndState]
    requires Completes(tokens, c, es) && c.pos <= |tokens|
    ensures Reads(tokens, c.pos, root, c.tags, true, false, explicit)
    ensures |rest| < |es| && Completes(tokens, Config(c.pos + |Spell(root)|, DocumentEndState, [], c.tags), rest)
  {
    hide Completes, NodeStep, Step, Lies;
    StepsOn(tokens, c, es);
    var missing := RootAbsent(tokens, c, explicit);
    if missing {
      root, rest := Absent, es[1..];
      LiesNone(tokens, c.pos);
    } else {
      root, rest := NodeBack(tokens, c, true, false, es);
      hide Good;
      GoodMeansOptional(root, c.tags);
    }
  }

  predicate RootMissing(tokens: seq<Token>, c: Config, explicit: bool) {
    explicit && c.pos < |tokens| && (StartsExplicitly(tokens[c.pos].kind) || tokens[c.pos].kind.DocumentEndToken?)
  }

  lemma RootAbsent(tokens: seq<Token>, c: Config, explicit: bool) returns (missing: bool)
    requires c.state == (if explicit then DocumentContent else BlockNode) && c.states == [DocumentEndState] && Step(tokens, c).Emits?
    ensures missing == RootMissing(tokens, c, explicit)
    ensures if missing then Step(tokens, c) == Emits(EmptyScalar, Config(c.pos, DocumentEndState, [], c.tags))
            else Step(tokens, c) == NodeStep(tokens, c, true, false)
  {
    hide NodeStep;
    missing := RootMissing(tokens, c, explicit);
  }

  lemma GoodMeansOptional(n: Syntax, tags: seq<TagDirective>)
    requires Good(n, tags, true, false, false)
    ensures Good(n, tags, true, false, true)
  {
  }

  lemma {:induction false} EndsBack(tokens: seq<Token>, pos: nat) returns (n: nat)
    requires pos <= |tokens|
    ensures SkipDocumentEnds(tokens, pos) == pos + n && Lies(tokens, pos, Ends(n))
    decreases |tokens| - pos
  {
    if pos < |tokens| && tokens[pos].kind.DocumentEndToken? {
      var m := EndsBack(tokens, pos + 1);
      n := m + 1;
      LiesOne(tokens, pos, DocumentEndToken);
      LiesJoin(tokens, pos, [DocumentEndToken], Ends(m));
      assert Ends(n) == [DocumentEndToken] + Ends(m);
    } else {
      n := 0;
    }
  }

  /** One document, from boundary to boundary. */
  lemma DocumentBack(tokens: seq<Token>, c: Config, pos: nat, first: bool, es: seq<Event>)
    returns (d: DocumentSyntax, next: Config, rest: seq<Event>)
    requires Boundary(tokens, c, pos) && (first <==> c.state.ImplicitDocumentStart?)
    requires Completes(tokens, c, es) && !tokens[pos].kind.StreamEndToken?
    ensures GoodDocument(d, first) && Sound(d.root) && Lies(tokens, pos, SpellDocument(d))
    ensures next.states == [] && next.tags == [] && next.state.DocumentStartState? && next.pos <= |tokens|
    ensures SkipDocumentEnds(tokens, next.pos) == pos + |SpellDocument(d)|
    ensures |rest| < |es| && Completes(tokens, next, rest)
  {
    hide Completes, Step, Lies, Spell, Good, Sound, GoodDirectives, TagsOf, VersionOf, WithDefaults, SkipDocumentEnds;
    StepsOn(tokens, c, es);
    var explicit, ks := StartBack(tokens, c, pos, first);
    var head := if explicit then ks + [DocumentStartToken] else [];
    var c1 := Config(pos + |head|, if explicit then DocumentContent else BlockNode, [DocumentEndState],
                     WithDefaults(if explicit then TagsOf(ks) else []));
    LiesWithin(tokens, pos, head);
    var root;
    root, rest := RootBack(tokens, c1, explicit, es[1..]);
    var c2 := Config(c1.pos + |Spell(root)|, DocumentEndState, [], c1.tags);
    StepsOn(tokens, c2, rest);
    LiesWithin(tokens, c1.pos, Spell(root));
    var n := EndsBack(tokens, c2.pos);
    next := EndStep(tokens, c2);
    rest := rest[1..];
    d := DocumentSyntax(explicit, ks, root, n);
    LiesJoin(tokens, c1.pos, Spell(root), Ends(n));
    LiesJoin(tokens, pos, head, Spell(root) + Ends(n));
  }

  lemma LiesWithin(tokens: seq<Token>, pos: nat, ks: seq<TokenKind>)
    requires Lies(tokens, pos, ks)
    ensures pos + |ks| <= |tokens|
  {
  }

  lemma EndStep(tokens: seq<Token>, c: Config) returns (next: Config)
    requires c.state.DocumentEndState? && c.states == [] && Step(tokens, c).Emits?
    ensures next == Step(tokens, c).next && next.states == [] && next.tags == [] && next.state.DocumentStartState?
    ensures next.pos <= |tokens| && SkipDocumentEnds(tokens, next.pos) == SkipDocumentEnds(tokens, c.pos)
  {
    next := Step(tokens, c).next;
  }

  lemma StartBack(tokens: seq<Token>, c: Config, pos: nat, first: bool) returns (explicit: bool, ks: seq<TokenKind>)
    requires Boundary(tokens, c, pos) && (first <==> c.state.ImplicitDocumentStart?)
    requires Step(tokens, c).Emits? && !tokens[pos].kind.StreamEndToken?
    ensures var head := if explicit then ks + [DocumentStartToken] else [];
      && (if explicit then GoodDirectives(ks) else first)
      && Lies(tokens, pos, head)
      && Step(tokens, c).next == Config(pos + |head|, if explicit then DocumentContent else BlockNode, [DocumentEndState],
                                        WithDefaults(if explicit then TagsOf(ks) else []))
  {
    hide WithDefaults, ReadDirectives, Lies;
    assert [] + [DocumentEndState] == [DocumentEndState];
    explicit, ks := !(first && !StartsExplicitly(tokens[pos].kind)), [];
    LiesNone(tokens, pos);
    if explicit {
      ks := DirectivesBack(tokens, pos, []);
      var r := ReadDirectives(tokens, pos, [], None, []);
      assert [] + r.declared == r.declared;
      LiesOne(tokens, pos + |ks|, DocumentStartToken);
      LiesJoin(tokens, pos, ks, [DocumentStartToken]);
    }
  }

  lemma {:induction false} DocumentsBack(tokens: seq<Token>, c: Config, pos: nat, first: bool, es: seq<Event>)
    returns (ds: seq<DocumentSyntax>)
    requires Boundary(tokens, c, pos) && (first <==> c.state.ImplicitDocumentStart?) && Completes(tokens, c, es)
    ensures GoodDocuments(ds, first) && SoundDocuments(ds) && Lies(tokens, pos, SpellDocuments(ds))
    decreases |es|
  {
    hide Completes, Step, Lies, SpellDocument, GoodDocument, Sound, SkipDocumentEnds;
    if tokens[pos].kind.StreamEndToken? {
      ds := [];
      LiesOne(tokens, pos, StreamEndToken);
    } else {
      var d, next, rest := DocumentBack(tokens, c, pos, first, es);
      StepsOn(tokens, next, rest);
      var after := pos + |SpellDocument(d)|;
      BoundaryAgain(tokens, next, after);
      var more := DocumentsBack(tokens, next, after, false, rest);
      ds := [d] + more;
      assert ds[1..] == more;
      LiesJoin(tokens, pos, SpellDocument(d), SpellDocuments(more));
    }
  }

  lemma BoundaryAgain(tokens: seq<Token>, c: Config, pos: nat)
    requires c.states == [] && c.tags == [] && c.state.DocumentStartState? && SkipDocumentEnds(tokens, c.pos) == pos
    requires Step(tokens, c).Emits?
    ensures Boundary(tokens, c, pos)
  {
    hide ReadDirectives, SkipDocumentEnds;
  }

  /** A run to the end of the stream in which no token is wrongly consumed for a missing key:
      the tokens are a sound sentence. */
  lemma TidyIsSentence(tokens: seq<Token>, es: seq<Event>) returns (ds: seq<DocumentSyntax>)
    requires Completes(tokens, Start, es)
    ensures GoodDocuments(ds, true) && SoundDocuments(ds) && Lies(tokens, 0, [StreamStartToken] + SpellDocuments(ds))
  {
    hide Completes, Lies, SpellDocuments;
    StepsOn(tokens, Start, es);
    var c := Step(tokens, Start).next;
    StepsOn(tokens, c, es[1..]);
    ds := DocumentsBack(tokens, c, 1, true, es[1..]);
    LiesOne(tokens, 0, StreamStartToken);
    LiesJoin(tokens, 0, [StreamStartToken], SpellDocuments(ds));
  }
}
