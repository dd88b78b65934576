/** Every step of the YAML parser consumes a token or lowers a height that counts
    the return states and ranks the current one. */
module YamlTermination {
  import opened YamlEvents
  import opened YamlTokens
  import opened YamlStep
  import opened YamlInvariant

  function Height(c: Config): nat {
    10 * |c.states| + Rank(c.state)
  }

  predicate Descends(tokens: seq<Token>, c: Config, o: Outcome) {
    o.Emits? ==>
      && c.pos <= o.next.pos <= |tokens|
      && (o.next.pos == c.pos ==> Height(o.next) < Height(c))
  }

  lemma NodeDescends(tokens: seq<Token>, c: Config, block: bool, indentless: bool)
    requires c.pos <= |tokens| && c.states != []
    ensures var o := NodeStep(tokens, c, block, indentless);
            o.Emits? ==> (c.pos <= o.next.pos <= |tokens| && (o.next.pos == c.pos ==> Height(o.next) <= 10 * |c.states|))
  {
  }

  /** A child read after a consumed token, or in a high-ranking state, is progress. */
  lemma ChildDescends(tokens: seq<Token>, c: Config, pos: nat, s: State, block: bool, indentless: bool)
    requires c.pos <= pos <= |tokens| && (c.pos < pos || Rank(c.state) > 10)
    ensures Descends(tokens, c, NodeStep(tokens, Push(c, pos, s), block, indentless))
  {
    NodeDescends(tokens, Push(c, pos, s), block, indentless);
  }

  lemma BlockSequenceDescends(tokens: seq<Token>, c: Config, at: Config)
    requires c.pos <= at.pos < |tokens| && c.states != [] && at == c.(pos := at.pos)
    ensures Descends(tokens, c, BlockSequenceStep(tokens, at))
  {
    ChildDescends(tokens, c, at.pos + 1, BlockSequenceEntry, true, false);
    hide NodeStep;
  }

  lemma IndentlessSequenceDescends(tokens: seq<Token>, c: Config)
    requires c.pos < |tokens| && c.states != [] && Rank(Last(c.states)) <= 2
    ensures Descends(tokens, c, IndentlessSequenceStep(tokens, c))
  {
    ChildDescends(tokens, c, c.pos + 1, IndentlessSequenceEntry, true, false);
    hide NodeStep;
  }

  lemma BlockMappingDescends(tokens: seq<Token>, c: Config, at: Config)
    requires c.pos <= at.pos < |tokens| && c.states != [] && at == c.(pos := at.pos)
    ensures Descends(tokens, c, BlockMappingKeyStep(tokens, at))
    ensures c.state.BlockMappingValue? ==> Descends(tokens, c, BlockMappingValueStep(tokens, at))
  {
    ChildDescends(tokens, c, at.pos + 1, BlockMappingValue, true, true);
    ChildDescends(tokens, c, at.pos + 1, BlockMappingKey, true, true);
    hide NodeStep;
  }

  lemma FlowSequenceDescends(tokens: seq<Token>, c: Config, at: Config, first: bool)
    requires c.pos <= at.pos < |tokens| && c.states != [] && at == c.(pos := at.pos) && (first ==> c.pos < at.pos)
    ensures Descends(tokens, c, FlowSequenceStep(tokens, at, first))
  {
    var pos := AfterComma(tokens, at.pos, first, FlowSequenceEndToken);
    if pos.Some? && c.pos < pos.value {
      ChildDescends(tokens, c, pos.value, FlowSequenceEntry, false, false);
    }
    hide NodeStep;
  }

  lemma PairDescends(tokens: seq<Token>, c: Config)
    requires c.pos < |tokens| && c.states != []
    ensures c.state.FlowSequenceEntryMappingKey? ==> Descends(tokens, c, PairKeyStep(tokens, c))
    ensures c.state.FlowSequenceEntryMappingValue? ==> Descends(tokens, c, PairValueStep(tokens, c))
  {
    ChildDescends(tokens, c, c.pos + 1, FlowSequenceEntryMappingEnd, false, false);
    if c.state.FlowSequenceEntryMappingKey? {
      ChildDescends(tokens, c, c.pos, FlowSequenceEntryMappingValue, false, false);
    }
    hide NodeStep;
  }

  lemma FlowMappingKeyDescends(tokens: seq<Token>, c: Config, at: Config, first: bool)
    requires c.pos <= at.pos < |tokens| && c.states != [] && at == c.(pos := at.pos) && (first ==> c.pos < at.pos)
    ensures Descends(tokens, c, FlowMappingKeyStep(tokens, at, first))
  {
    var pos := AfterComma(tokens, at.pos, first, FlowMappingEndToken);
    if pos.Some? {
      if c.pos < pos.value {
        ChildDescends(tokens, c, pos.value, FlowMappingEmptyValue, false, false);
      }
      if pos.value < |tokens| {
        ChildDescends(tokens, c, pos.value + 1, FlowMappingValue, false, false);
      }
    }
    hide NodeStep, AfterComma;
  }

  lemma FlowMappingValueDescends(tokens: seq<Token>, c: Config)
    requires c.pos < |tokens| && c.states != [] && c.state.FlowMappingValue?
    ensures Descends(tokens, c, FlowMappingValueStep(tokens, c))
  {
    ChildDescends(tokens, c, c.pos + 1, FlowMappingKey, false, false);
    hide NodeStep;
  }

  lemma CollectionDescends(tokens: seq<Token>, c: Config)
    requires c.pos <= |tokens| && IsCollection(c.state)
    requires IsFirst(c.state) ==> c.pos < |tokens|
    requires c.states != [] && (c.state.IndentlessSequenceEntry? ==> Rank(Last(c.states)) <= 2)
    ensures Descends(tokens, c, Step(tokens, c))
  {
    if c.pos < |tokens| && (IsFirst(c.state) ==> c.pos + 1 < |tokens|) {
      hide BlockSequenceStep, IndentlessSequenceStep, BlockMappingKeyStep, BlockMappingValueStep, FlowSequenceStep,
        PairKeyStep, PairValueStep, FlowMappingKeyStep, FlowMappingValueStep, NodeStep;
      match c.state
      case BlockSequenceFirstEntry => BlockSequenceDescends(tokens, c, Advance(c));
      case BlockSequenceEntry => BlockSequenceDescends(tokens, c, c);
      case IndentlessSequenceEntry => IndentlessSequenceDescends(tokens, c);
      case BlockMappingFirstKey => BlockMappingDescends(tokens, c, Advance(c));
      case BlockMappingKey => BlockMappingDescends(tokens, c, c);
      case BlockMappingValue => BlockMappingDescends(tokens, c, c);
      case FlowSequenceFirstEntry => FlowSequenceDescends(tokens, c, Advance(c), true);
      case FlowSequenceEntry => FlowSequenceDescends(tokens, c, c, false);
      case FlowMappingFirstKey => FlowMappingKeyDescends(tokens, c, Advance(c), true);
      case FlowMappingKey => FlowMappingKeyDescends(tokens, c, c, false);
      case FlowMappingValue => FlowMappingValueDescends(tokens, c);
      case FlowMappingEmptyValue =>
      case _ => PairDescends(tokens, c);
    }
  }

  lemma {:induction false} DirectivesAdvance(tokens: seq<Token>, pos: nat)
    ensures SkipDocumentEnds(tokens, pos) <= if pos <= |tokens| then |tokens| else pos
    decreases |tokens| - pos
  {
    if pos < |tokens| && tokens[pos].kind.DocumentEndToken? {
      DirectivesAdvance(tokens, pos + 1);
    }
  }

  /** The measure (tokens left, height) drops lexicographically at every step. */
  lemma StepDescends(tokens: seq<Token>, c: Config, marks: seq<Mark>, bs: Brackets, z: Zipper)
    requires c.pos <= |tokens| && Fits(tokens, c.pos, c.state, c.states, marks, bs, z) && !c.state.EndState?
    ensures Descends(tokens, c, Step(tokens, c))
  {
    hide At, Fits, NodeStep, BracketMarks, Descends, Step;
    if IsCollection(c.state) {
      Working(tokens, c.pos, c.state, c.states, marks, bs, z);
      if c.state.IndentlessSequenceEntry? {
        Encloses(tokens, c.state, c.states, z.frames, bs);
        Resumes(tokens, Last(c.states), Init(c.states), Init(z.frames), Init(bs));
      }
      CollectionDescends(tokens, c);
    } else {
      Phases(tokens, c.pos, c.state, c.states, marks, bs, z);
      if ExpectsNode(c.state) {
        Resumes(tokens, Last(c.states), Init(c.states), z.frames, bs);
        DueDescends(tokens, c);
      } else {
        OutsideDescends(tokens, c);
      }
    }
  }

  lemma DueDescends(tokens: seq<Token>, c: Config)
    requires c.pos <= |tokens| && ExpectsNode(c.state) && c.states != [] && Rank(Last(c.states)) <= 2
    ensures Descends(tokens, c, Step(tokens, c))
  {
    hide NodeStep;
    NodeDescends(tokens, c, true, c.state.BlockNodeOrIndentlessSequence?);
    NodeDescends(tokens, c, false, false);
  }

  lemma OutsideDescends(tokens: seq<Token>, c: Config)
    requires c.pos <= |tokens| && !IsCollection(c.state) && !ExpectsNode(c.state) && !c.state.EndState? && c.states == []
    ensures Descends(tokens, c, Step(tokens, c))
  {
    hide ReadDirectives;
    DirectivesAdvance(tokens, c.pos);
  }
}
