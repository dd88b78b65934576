/** The sentences of the token grammar that the parser cannot take.  The grammar lets
    the key of a single pair, and KEY in a block mapping, be left out; where a
    sentence makes use of that other than `Sound` allows, the parser gets into a
    configuration from which it either fails at once or has lost a closing bracket. */
module YamlKeyless {
  import opened YamlEvents
  import opened YamlTokens
  import opened YamlStep
  import opened YamlGrammar

  /** A closing bracket is about to be consumed in the place of a missing key. */
  predicate Swallows(tokens: seq<Token>, c: Config) {
    c.state.FlowSequenceEntryMappingKey? && c.pos < |tokens| && tokens[c.pos].kind.FlowSequenceEndToken?
  }

  ghost predicate Dead(tokens: seq<Token>, c: Config) {
    !c.state.EndState? && (Step(tokens, c).Error? || Swallows(tokens, c))
  }

  ghost predicate Doomed(tokens: seq<Token>, c: Config) {
    exists es, d :: Runs(tokens, c, es, d) && Dead(tokens, d)
  }

  /** A step with this outcome leads to such a configuration. */
  ghost predicate Fails(tokens: seq<Token>, o: Outcome) {
    o.Emits? ==> Doomed(tokens, o.next)
  }

  lemma DeadIsDoomed(tokens: seq<Token>, c: Config)
    requires Dead(tokens, c)
    ensures Doomed(tokens, c)
  {
    hide Dead;
    assert Runs(tokens, c, [], c);
  }

  lemma RunsIntoDoom(tokens: seq<Token>, c: Config, es: seq<Event>, d: Config)
    requires Runs(tokens, c, es, d) && Doomed(tokens, d)
    ensures Doomed(tokens, c)
  {
    hide Runs, Dead;
    var rest, e :| Runs(tokens, d, rest, e) && Dead(tokens, e);
    RunsThenRuns(tokens, c, es, d, rest, e);
  }

  lemma StepDooms(tokens: seq<Token>, c: Config)
    requires !c.state.EndState? && Fails(tokens, Step(tokens, c))
    ensures Doomed(tokens, c)
  {
    hide Step;
    if Step(tokens, c).Error? {
      DeadIsDoomed(tokens, c);
    } else {
      var o := Step(tokens, c);
      assert Runs(tokens, c, [o.event], o.next);
      RunsIntoDoom(tokens, c, [o.event], o.next);
    }
  }

  lemma GoesIntoFailure(tokens: seq<Token>, o: Outcome, es: seq<Event>, d: Config)
    requires Goes(tokens, o, es, d) && !d.state.EndState? && Fails(tokens, Step(tokens, d))
    ensures Fails(tokens, o)
  {
    hide Step, Runs, Doomed;
    StepDooms(tokens, d);
    RunsIntoDoom(tokens, o.next, es[1..], d);
  }

  // ------------------------------------------------------- where it goes wrong

  /** VALUE or a comma was taken for the key, and what follows it belongs to no end of a pair. */
  lemma PairIsLost(tokens: seq<Token>, c: Config)
    requires c.state.FlowSequenceEntryMappingKey? && c.pos + 1 < |tokens|
    requires tokens[c.pos].kind.ValueToken? || tokens[c.pos].kind.FlowEntryToken?
    requires var k := tokens[c.pos + 1].kind; !k.ValueToken? && !EndsFlowPair(k)
    ensures Doomed(tokens, c)
  {
    hide Doomed, Step, Runs;
    PairSwallows(tokens, c);
    var d := c.(pos := c.pos + 1, state := FlowSequenceEntryMappingValue);
    NoValueGoes(tokens, d);
    var e := d.(state := FlowSequenceEntry);
    CommaMissing(tokens, e);
    GoesIntoFailure(tokens, Step(tokens, d), [EmptyScalar] + [MappingEnd], e);
    StepDooms(tokens, d);
    StepDooms(tokens, c);
  }

  lemma CommaMissing(tokens: seq<Token>, c: Config)
    requires c.state.FlowSequenceEntry? && c.pos < |tokens| && !EndsFlowPair(tokens[c.pos].kind)
    ensures Step(tokens, c).Error?
  {
  }

  /** KEY VALUE with a value. */
  lemma KeylessDooms(tokens: seq<Token>, e: Entry, d: Config, pos: nat, first: bool)
    requires GoodEntry(FlowSeq, e, d.tags) && Keyless(FlowSeq, e) && e.valued && !e.value.Absent?
    requires AfterComma(tokens, d.pos, first, FlowSequenceEndToken) == Some(pos) && Lies(tokens, pos, SpellPair(e))
    requires pos + |SpellPair(e)| < |tokens|
    ensures Fails(tokens, FlowSequenceStep(tokens, d, first))
  {
    hide FlowSequenceStep, AfterComma, Doomed, Lies, Spell, Good;
    KeylessLies(tokens, e, d.tags, pos);
    PairStarts(tokens, d, pos, first);
    PairIsLost(tokens, Config(pos + 1, FlowSequenceEntryMappingKey, d.states, d.tags));
  }

  lemma KeylessLies(tokens: seq<Token>, e: Entry, tags: seq<TagDirective>, pos: nat)
    requires GoodEntry(FlowSeq, e, tags) && Keyless(FlowSeq, e) && e.valued && !e.value.Absent?
    requires Lies(tokens, pos, SpellPair(e)) && pos + |SpellPair(e)| < |tokens|
    ensures pos + 2 < |tokens| && tokens[pos].kind == KeyToken && tokens[pos + 1].kind == ValueToken
    ensures StartsNode(tokens[pos + 2].kind)
  {
    AbsentSpelled();
    hide Lies, Good, Spell;
    assert SpellPair(e) == [KeyToken] + ([ValueToken] + Spell(e.value));
    LiesSplit(tokens, pos, [KeyToken], [ValueToken] + Spell(e.value));
    LiesSplit(tokens, pos + 1, [ValueToken], Spell(e.value));
    LiesFirst(tokens, pos, [KeyToken]);
    LiesFirst(tokens, pos + 1, [ValueToken]);
    PlaceToken(tokens, e.value, pos + 2, tags, false, false);
  }

  lemma AbsentSpelled()
    ensures Spell(Absent) == []
  {
  }

  /** KEY alone, other than last with a comma behind it. */
  lemma HollowDooms(tokens: seq<Token>, es: seq<Entry>, trailing: bool, d: Config, pos: nat, first: bool)
    requires es != [] && (forall i | 0 <= i < |es| :: GoodEntry(FlowSeq, es[i], d.tags))
    requires Hollow(FlowSeq, es[0]) && !(trailing && |es| == 1)
    requires AfterComma(tokens, d.pos, first, FlowSequenceEndToken) == Some(pos) && Lies(tokens, pos, SpellPair(es[0]))
    requires Lies(tokens, pos + 1, Rest(FlowSeq, es[1..], false, trailing))
    requires pos + 1 + |Rest(FlowSeq, es[1..], false, trailing)| < |tokens|
    ensures Fails(tokens, FlowSequenceStep(tokens, d, first))
  {
    hide FlowSequenceStep, AfterComma, Doomed, Lies, Spell, GoodEntry, Rest, Dead, Step;
    PairSpelled(tokens, pos, es[0]);
    PairStarts(tokens, d, pos, first);
    var c := Config(pos + 1, FlowSequenceEntryMappingKey, d.states, d.tags);
    if |es| == 1 {
      assert Rest(FlowSeq, es[1..], false, false) == [FlowSequenceEndToken] by { NoEntries(FlowSeq, false, false); }
      LiesFirst(tokens, pos + 1, [FlowSequenceEndToken]);
      assert Dead(tokens, c) by { DeadAtBracket(tokens, c); }
      DeadIsDoomed(tokens, c);
    } else {
      EntryBehindComma(tokens, es[1..], trailing, d.tags, pos + 1);
      PairIsLost(tokens, c);
    }
  }

  lemma DeadAtBracket(tokens: seq<Token>, c: Config)
    requires Swallows(tokens, c)
    ensures Dead(tokens, c)
  {
    hide Step;
  }

  /** A later entry of a flow sequence: a comma, then KEY or the start of a node. */
  lemma EntryBehindComma(tokens: seq<Token>, es: seq<Entry>, trailing: bool, tags: seq<TagDirective>, pos: nat)
    requires es != [] && GoodEntry(FlowSeq, es[0], tags)
    requires Lies(tokens, pos, Rest(FlowSeq, es, false, trailing))
    requires pos + |Rest(FlowSeq, es, false, trailing)| < |tokens|
    ensures pos + 1 < |tokens| && tokens[pos].kind == FlowEntryToken
    ensures var k := tokens[pos + 1].kind; !k.ValueToken? && !EndsFlowPair(k)
  {
    hide Lies, Rest, GoodEntry, SpellPair, Spell;
    var e := es[0];
    RestSplit(FlowSeq, es, false, trailing);
    LiesSplit(tokens, pos, SpellEntry(FlowSeq, e, false), Rest(FlowSeq, es[1..], false, trailing));
    var inner := if e.keyed then SpellPair(e) else Spell(e.key);
    LiesSplit(tokens, pos, [FlowEntryToken], inner);
    LiesFirst(tokens, pos, [FlowEntryToken]);
    InnerStarts(e, tags);
    LiesFirst(tokens, pos + 1, inner);
  }

  lemma InnerStarts(e: Entry, tags: seq<TagDirective>)
    requires GoodEntry(FlowSeq, e, tags)
    ensures var inner := if e.keyed then SpellPair(e) else Spell(e.key);
            inner != [] && (inner[0].KeyToken? || StartsNode(inner[0]))
  {
    hide Good, Spell;
    if !e.keyed {
      GoodMeansPresent(e.key, tags);
      FirstToken(e.key, tags, false, false);
    }
  }

  /** VALUE at the place of an entry of a block mapping. */
  lemma UnkeyedFails(tokens: seq<Token>, e: Entry, d: Config)
    requires !e.keyed && e.valued && Lies(tokens, d.pos, SpellValue(e))
    ensures Fails(tokens, BlockMappingKeyStep(tokens, d))
  {
    hide Spell, Doomed;
    LiesFirst(tokens, d.pos, SpellValue(e));
  }

  // ------------------------------------------------------------- propagation

  /** A node that is not sound, due in configuration `c`. */
  lemma {:induction false} NodeDooms(tokens: seq<Token>, n: Syntax, c: Config, block: bool, indentless: bool)
    requires Good(n, c.tags, block, indentless, true) && !Sound(n) && (indentless ==> block)
    requires Lies(tokens, c.pos, Spell(n)) && c.pos + |Spell(n)| < |tokens|
    requires Stops(tokens[c.pos + |Spell(n)|].kind, indentless) && c.states != []
    ensures Fails(tokens, NodeStep(tokens, c, block, indentless))
    decreases n, 3
  {
    hide NodeStep, EntryStep, Step, Spell, SpellEntries, Lies, Tail, SpellProps, StartOf, EndOf, TagText, SoundEntries,
         InOrder, Doomed;
    CollectionOpens(tokens, n, c, block, indentless);
    EntriesDoom(tokens, n.style, n.entries, n.trailing, YamlGrammar.Inside(n, c), true);
    StepDooms(tokens, NodeStep(tokens, c, block, indentless).next);
  }

  lemma {:induction false} EntriesDoom(tokens: seq<Token>, s: Style, es: seq<Entry>, trailing: bool, d: Config, first: bool)
    requires (forall i | 0 <= i < |es| :: GoodEntry(s, es[i], d.tags)) && InOrder(s, es) && !SoundEntries(s, es, trailing)
    requires trailing ==> (s.FlowSeq? || s.FlowMap?) && (first ==> es != [])
    requires Lies(tokens, d.pos, Rest(s, es, first, trailing)) && d.states != []
    requires var end := d.pos + |Rest(s, es, first, trailing)|;
             end < |tokens| && (s.Indentless? ==> Stops(tokens[end].kind, true))
    ensures Fails(tokens, EntryStep(tokens, s, d, first))
    decreases es, 7
  {
    hide EntryStep, Step, Goes, Lies, TellEntry, SpellEntry, GoodEntry, SpellEntries, Rest, InOrder, Fails, SoundEntry;
    EntriesSplit(tokens, s, es, first, trailing, d.pos);
    if SoundEntry(s, es[0], trailing && |es| == 1) {
      LaterUnsound(s, es, trailing);
      EntryGoes(tokens, s, es[0], d, first);
      var d' := Config(d.pos + |SpellEntry(s, es[0], first)|, Home(s), d.states, d.tags);
      LaterInOrder(s, es);
      EntriesDoom(tokens, s, es[1..], trailing, d', false);
      HomeStep(tokens, s, d');
      GoesIntoFailure(tokens, EntryStep(tokens, s, d, first), TellEntry(s, es[0], d.tags), d');
    } else {
      UnsoundEntry(s, es[0], d.tags, trailing && |es| == 1);
      FirstInOrder(s, es);
      if Hollow(s, es[0]) {
        FirstHollowDooms(tokens, s, es, trailing, d, first);
      } else {
        EntryDooms(tokens, s, es[0], d, first);
      }
    }
  }

  lemma LaterUnsound(s: Style, es: seq<Entry>, trailing: bool)
    requires es != [] && !SoundEntries(s, es, trailing) && SoundEntry(s, es[0], trailing && |es| == 1)
    ensures SoundEntry(s, es[0], false) && !SoundEntries(s, es[1..], trailing)
  {
    hide Sound;
  }

  lemma UnsoundEntry(s: Style, e: Entry, tags: seq<TagDirective>, closing: bool)
    requires GoodEntry(s, e, tags) && !SoundEntry(s, e, closing)
    ensures if Hollow(s, e) then !closing else !SoundEntry(s, e, true)
  {
    hide Good;
  }

  lemma FirstInOrder(s: Style, es: seq<Entry>)
    requires es != [] && InOrder(s, es)
    ensures s.BlockMap? ==> es[0].keyed || es[0].valued
  {
  }

  lemma FirstHollowDooms(tokens: seq<Token>, s: Style, es: seq<Entry>, trailing: bool, d: Config, first: bool)
    requires es != [] && (forall i | 0 <= i < |es| :: GoodEntry(s, es[i], d.tags))
    requires Hollow(s, es[0]) && !(trailing && |es| == 1)
    requires Lies(tokens, d.pos, SpellEntry(s, es[0], first)) && d.pos + |SpellEntry(s, es[0], first)| < |tokens|
    requires Lies(tokens, d.pos + |SpellEntry(s, es[0], first)|, Rest(s, es[1..], false, trailing))
    requires d.pos + |SpellEntry(s, es[0], first)| + |Rest(s, es[1..], false, trailing)| < |tokens|
    ensures Fails(tokens, EntryStep(tokens, s, d, first))
  {
    hide FlowSequenceStep, AfterComma, Lies, Spell, Good, Rest, Fails;
    AbsentSpelled();
    assert SpellPair(es[0]) == [KeyToken];
    CommaSkipped(tokens, d.pos, first, FlowSequenceEndToken, SpellPair(es[0]));
    HollowDooms(tokens, es, trailing, d, if first then d.pos else d.pos + 1, first);
  }

  /** An entry that is not sound wherever it stands. */
  lemma {:induction false} EntryDooms(tokens: seq<Token>, s: Style, e: Entry, d: Config, first: bool)
    requires GoodEntry(s, e, d.tags) && !SoundEntry(s, e, true) && (s.BlockMap? ==> e.keyed || e.valued)
    requires Lies(tokens, d.pos, SpellEntry(s, e, first)) && d.states != []
    requires var end := d.pos + |SpellEntry(s, e, first)|; end < |tokens| && EntryStops(s, e, tokens[end].kind)
    ensures Fails(tokens, EntryStep(tokens, s, d, first))
    decreases e, 6
  {
    hide NodeStep, Lies, Spell, Good, AfterComma, SpellPair, SpellValue, BlockSequenceStep, IndentlessSequenceStep,
      BlockMappingKeyStep, FlowSequenceStep, FlowMappingKeyStep, Sound, Fails;
    match s
    case BlockSeq => ItemDooms(tokens, s, e, d);
    case Indentless => ItemDooms(tokens, s, e, d);
    case BlockMap =>
      if e.keyed { BlockPairDooms(tokens, e, d); } else { UnkeyedFails(tokens, e, d); }
    case FlowSeq => FlowSeqEntryDooms(tokens, e, d, first);
    case FlowMap => FlowMapEntryDooms(tokens, e, d, first);
  }

  lemma {:induction false} ItemDooms(tokens: seq<Token>, s: Style, e: Entry, d: Config)
    requires (s.BlockSeq? || s.Indentless?) && GoodEntry(s, e, d.tags) && !SoundEntry(s, e, true)
    requires Lies(tokens, d.pos, [BlockEntryToken] + Spell(e.key))
    requires var end := d.pos + 1 + |Spell(e.key)|; end < |tokens| && EntryStops(s, e, tokens[end].kind)
    ensures Fails(tokens, EntryStep(tokens, s, d, false))
    decreases e, 5
  {
    hide NodeStep, EntryStep, Lies, Spell, Good, Fails;
    LiesSplit(tokens, d.pos, [BlockEntryToken], Spell(e.key));
    ItemStep(tokens, s, e, d);
    NodeDooms(tokens, e.key, Push(d, d.pos + 1, Home(s)), true, false);
  }

  lemma {:induction false} BlockPairDooms(tokens: seq<Token>, e: Entry, d: Config)
    requires GoodEntry(BlockMap, e, d.tags) && e.keyed && !SoundEntry(BlockMap, e, true)
    requires Lies(tokens, d.pos, SpellPair(e)) && d.states != []
    requires var end := d.pos + |SpellPair(e)|; end < |tokens| && EntryStops(BlockMap, e, tokens[end].kind)
    ensures Fails(tokens, BlockMappingKeyStep(tokens, d))
    decreases e, 5
  {
    hide NodeStep, BlockMappingKeyStep, Lies, Spell, Good, SpellValue, GoodEntry, Sound, SpellPair, Fails;
    PairSpelled(tokens, d.pos, e);
    BlockKeyStepIs(tokens, e, d);
    PairDooms(tokens, BlockMap, e, d, d.pos + 1, BlockMappingKeyStep(tokens, d));
  }

  /** KEY node? (VALUE node?)?, after the key has been recognised. */
  lemma {:induction false} PairDooms(tokens: seq<Token>, s: Style, e: Entry, d: Config, pos: nat, o: Outcome)
    requires (s.BlockMap? || s.FlowMap?) && GoodEntry(s, e, d.tags) && e.keyed && !(Sound(e.key) && Sound(e.value))
    requires Lies(tokens, pos, Spell(e.key) + SpellValue(e))
    requires var end := pos + |Spell(e.key) + SpellValue(e)|; end < |tokens| && EntryStops(s, e, tokens[end].kind)
    requires o == if e.key.Absent? then Missing(d, pos, ValueState(s))
                  else NodeStep(tokens, Push(d, pos, ValueState(s)), s.BlockMap?, s.BlockMap?)
    ensures Fails(tokens, o)
    decreases e, 4
  {
    hide NodeStep, Step, Goes, Tell, Lies, Spell, Good, SpellValue, Fails, SoundEntries;
    LiesSplit(tokens, pos, Spell(e.key), SpellValue(e));
    var mid := pos + |Spell(e.key)|;
    BehindKey(tokens, s, e, mid);
    if Sound(e.key) {
      ChildGoes(tokens, e.key, d, pos, ValueState(s), s.BlockMap?, s.BlockMap?);
      var d' := Config(mid, ValueState(s), d.states, d.tags);
      ValueDooms(tokens, s, e, d');
      GoesIntoFailure(tokens, o, Tell(e.key, d.tags), d');
    } else {
      NodeDooms(tokens, e.key, Push(d, pos, ValueState(s)), s.BlockMap?, s.BlockMap?);
    }
  }

  lemma {:induction false} ValueDooms(tokens: seq<Token>, s: Style, e: Entry, d: Config)
    requires s.BlockMap? || s.FlowMap? || s.FlowSeq?
    requires GoodEntry(s, e, d.tags) && !Sound(e.value) && d.state == ValueState(s)
    requires Lies(tokens, d.pos, SpellValue(e))
    requires var end := d.pos + |SpellValue(e)|; end < |tokens| && EntryStops(s, e, tokens[end].kind)
    ensures Fails(tokens, Step(tokens, d))
    decreases e, 2
  {
    hide NodeStep, Step, Lies, Spell, Good, Fails, SoundEntries;
    ValueStepIs(tokens, s, e, d);
    LiesSplit(tokens, d.pos, [ValueToken], Spell(e.value));
    NodeDooms(tokens, e.value, Push(d, d.pos + 1, AfterValue(s)), s.BlockMap?, s.BlockMap?);
  }

  lemma {:induction false} FlowSeqEntryDooms(tokens: seq<Token>, e: Entry, d: Config, first: bool)
    requires GoodEntry(FlowSeq, e, d.tags) && !SoundEntry(FlowSeq, e, true)
    requires Lies(tokens, d.pos, SpellEntry(FlowSeq, e, first)) && d.states != []
    requires var end := d.pos + |SpellEntry(FlowSeq, e, first)|; end < |tokens| && EntryStops(FlowSeq, e, tokens[end].kind)
    ensures Fails(tokens, FlowSequenceStep(tokens, d, first))
    decreases e, 6, 0
  {
    hide NodeStep, Lies, Spell, Good, AfterComma, SpellPair, FlowSequenceStep, Fails, SoundEntries;
    var pos := if first then d.pos else d.pos + 1;
    CommaSkipped(tokens, d.pos, first, FlowSequenceEndToken, if e.keyed then SpellPair(e) else Spell(e.key));
    if !e.keyed {
      FlowItemStepIs(tokens, e, d, pos, first);
      GoodMeansPresent(e.key, d.tags);
      NodeDooms(tokens, e.key, Push(d, pos, FlowSequenceEntry), false, false);
    } else if e.key.Absent? && e.valued && !e.value.Absent? {
      KeylessDooms(tokens, e, d, pos, first);
    } else {
      SinglePairDooms(tokens, e, d, pos, first);
    }
  }

  lemma FlowItemStepIs(tokens: seq<Token>, e: Entry, d: Config, pos: nat, first: bool)
    requires GoodEntry(FlowSeq, e, d.tags) && !e.keyed
    requires AfterComma(tokens, d.pos, first, FlowSequenceEndToken) == Some(pos) && Lies(tokens, pos, Spell(e.key))
    requires pos + |Spell(e.key)| < |tokens|
    ensures FlowSequenceStep(tokens, d, first) == NodeStep(tokens, Push(d, pos, FlowSequenceEntry), false, false)
  {
    hide NodeStep, Lies, Spell, Good, AfterComma;
    GoodMeansPresent(e.key, d.tags);
    PlaceToken(tokens, e.key, pos, d.tags, false, false);
  }

  lemma {:induction false} SinglePairDooms(tokens: seq<Token>, e: Entry, d: Config, pos: nat, first: bool)
    requires GoodEntry(FlowSeq, e, d.tags) && e.keyed && !e.key.Absent? && !(Sound(e.key) && Sound(e.value))
    requires AfterComma(tokens, d.pos, first, FlowSequenceEndToken) == Some(pos) && Lies(tokens, pos, SpellPair(e))
    requires var end := pos + |SpellPair(e)|; end < |tokens| && EntryStops(FlowSeq, e, tokens[end].kind)
    ensures Fails(tokens, FlowSequenceStep(tokens, d, first))
    decreases e, 5
  {
    hide NodeStep, Goes, Tell, Lies, Spell, Good, SpellValue, AfterComma, SpellPair, Step, FlowSequenceStep, Doomed,
         SoundEntries;
    PairSpelled(tokens, pos, e);
    LiesSplit(tokens, pos + 1, Spell(e.key), SpellValue(e));
    var mid := pos + 1 + |Spell(e.key)|;
    BehindKey(tokens, FlowSeq, e, mid);
    var d1 := Config(pos + 1, FlowSequenceEntryMappingKey, d.states, d.tags);
    PlaceToken(tokens, e.key, pos + 1, d.tags, false, false);
    PairKeyStepIs(tokens, d1);
    PairStarts(tokens, d, pos, first);
    if Sound(e.key) {
      PresentIsGood(e.key, d.tags);
      PresentGoes(tokens, FlowSeq, e, d1, pos + 1, FlowSequenceEntryMappingValue);
      var d2 := Config(mid, FlowSequenceEntryMappingValue, d.states, d.tags);
      ValueDooms(tokens, FlowSeq, e, d2);
      GoesIntoFailure(tokens, Step(tokens, d1), Tell(e.key, d.tags), d2);
    } else {
      NodeDooms(tokens, e.key, Push(d1, pos + 1, FlowSequenceEntryMappingValue), false, false);
    }
    StepDooms(tokens, d1);
  }

  lemma {:induction false} FlowMapEntryDooms(tokens: seq<Token>, e: Entry, d: Config, first: bool)
    requires GoodEntry(FlowMap, e, d.tags) && !SoundEntry(FlowMap, e, true)
    requires Lies(tokens, d.pos, SpellEntry(FlowMap, e, first)) && d.states != []
    requires var end := d.pos + |SpellEntry(FlowMap, e, first)|; end < |tokens| && EntryStops(FlowMap, e, tokens[end].kind)
    ensures Fails(tokens, FlowMappingKeyStep(tokens, d, first))
    decreases e, 6, 0
  {
    hide NodeStep, Lies, Spell, Good, AfterComma, SpellPair, FlowMappingKeyStep, Fails, SoundEntries, SpellValue;
    var pos := if first then d.pos else d.pos + 1;
    CommaSkipped(tokens, d.pos, first, FlowMappingEndToken, if e.keyed then SpellPair(e) else Spell(e.key));
    if e.keyed {
      PairSpelled(tokens, pos, e);
      FlowPairStepIs(tokens, e, d, pos, first);
      PairDooms(tokens, FlowMap, e, d, pos + 1, FlowMappingKeyStep(tokens, d, first));
    } else {
      FlowKeyStepIs(tokens, e, d, pos, first);
      GoodMeansPresent(e.key, d.tags);
      NodeDooms(tokens, e.key, Push(d, pos, FlowMappingEmptyValue), false, false);
    }
  }

  lemma FlowKeyStepIs(tokens: seq<Token>, e: Entry, d: Config, pos: nat, first: bool)
    requires GoodEntry(FlowMap, e, d.tags) && !e.keyed
    requires AfterComma(tokens, d.pos, first, FlowMappingEndToken) == Some(pos) && Lies(tokens, pos, Spell(e.key))
    requires pos + |Spell(e.key)| < |tokens|
    ensures FlowMappingKeyStep(tokens, d, first) == NodeStep(tokens, Push(d, pos, FlowMappingEmptyValue), false, false)
  {
    hide NodeStep, Lies, Spell, Good, AfterComma;
    GoodMeansPresent(e.key, d.tags);
    PlaceToken(tokens, e.key, pos, d.tags, false, false);
  }
}
