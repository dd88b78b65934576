/** Square brackets.  Every flow sequence that the parser works on stands for an
    opening bracket it has read and not closed.  A bracket consumed in the place of a
    missing key breaks this balance, and nothing ever restores it. */
module YamlBrackets {
  import opened YamlEvents
  import opened YamlTokens
  import opened YamlStep
  import opened YamlGrammar
  import opened YamlKeyless

  function Bracket(k: TokenKind): int {
    match k
    case FlowSequenceStartToken => 1
    case FlowSequenceEndToken => -1
    case _ => 0
  }

  /** Opening less closing brackets in front of a position. */
  function Balance(tokens: seq<Token>, pos: nat): int
    requires pos <= |tokens|
  {
    if pos == 0 then 0 else Balance(tokens, pos - 1) + Bracket(tokens[pos - 1].kind)
  }

  /** Does the state belong to a flow sequence whose opening bracket has been read? */
  function Holds(s: State): nat {
    if s.FlowSequenceEntry? || s.FlowSequenceEntryMappingKey? || s.FlowSequenceEntryMappingValue? || s.FlowSequenceEntryMappingEnd?
    then 1 else 0
  }

  function Held(ss: seq<State>): nat {
    if ss == [] then 0 else Held(Init(ss)) + Holds(Last(ss))
  }

  function Open(c: Config): nat {
    Holds(c.state) + Held(c.states)
  }

  /** Flow sequences being worked on whose closing bracket is gone. */
  function Debt(tokens: seq<Token>, c: Config): int
    requires c.pos <= |tokens|
  {
    Open(c) - Balance(tokens, c.pos)
  }

  predicate Between(s: State) {
    s.StreamStartState? || s.ImplicitDocumentStart? || s.DocumentStartState? || s.DocumentEndState? || s.EndState?
  }

  /** A state that takes over when a node is complete, other than the end of the document. */
  predicate Resumable(s: State) {
    !Between(s) && !IsFirst(s) && !ExpectsNode(s)
  }

  predicate Grounded(ss: seq<State>) {
    ss != [] && ss[0].DocumentEndState? && forall i | 0 < i < |ss| :: Resumable(ss[i])
  }

  predicate Clean(tokens: seq<Token>, pos: nat) {
    pos <= |tokens| && forall i | 0 <= i < pos :: !tokens[i].kind.StreamEndToken?
  }

  /** The shape of every configuration that is reached from the start. */
  predicate Upright(tokens: seq<Token>, c: Config) {
    && (if Between(c.state) then c.states == [] else Grounded(c.states))
    && (IsFirst(c.state) ==> c.pos < |tokens| && OpenedBy(c.state, tokens[c.pos].kind))
    && if c.state.EndState? then 0 < c.pos <= |tokens| && tokens[c.pos - 1].kind.StreamEndToken? && Clean(tokens, c.pos - 1)
       else Clean(tokens, c.pos)
  }

  /** A step leaves the shape, and the debt grows by the bracket it swallows. */
  ghost predicate Keeps(tokens: seq<Token>, c: Config, o: Outcome)
    requires c.pos <= |tokens|
  {
    o.Emits? ==> Upright(tokens, o.next) && Debt(tokens, o.next) == Debt(tokens, c) + (if Swallows(tokens, c) then 1 else 0)
  }

  // ------------------------------------------------------------ small steps

  lemma Consume(tokens: seq<Token>, pos: nat)
    requires pos < |tokens|
    ensures Balance(tokens, pos + 1) == Balance(tokens, pos) + Bracket(tokens[pos].kind)
  {
  }

  /** Tokens that are neither square brackets nor the end of the stream. */
  predicate Quiet(tokens: seq<Token>, a: nat, b: nat) {
    a <= b <= |tokens| && forall i | a <= i < b :: Bracket(tokens[i].kind) == 0 && !tokens[i].kind.StreamEndToken?
  }

  lemma {:induction false} QuietBalance(tokens: seq<Token>, a: nat, b: nat)
    requires Quiet(tokens, a, b)
    ensures Balance(tokens, b) == Balance(tokens, a)
    ensures Clean(tokens, a) ==> Clean(tokens, b)
    decreases b
  {
    if a < b {
      QuietBalance(tokens, a, b - 1);
    }
  }

  lemma PushHeld(ss: seq<State>, s: State)
    ensures Held(ss + [s]) == Held(ss) + Holds(s)
    ensures Grounded(ss) && Resumable(s) ==> Grounded(ss + [s])
  {
    assert Init(ss + [s]) == ss;
  }

  lemma PopKeeps(tokens: seq<Token>, c: Config, pos: nat)
    requires Grounded(c.states) && Clean(tokens, pos)
    ensures Upright(tokens, Pop(c, pos)) && Open(Pop(c, pos)) == Held(c.states) && Pop(c, pos).pos == pos
  {
  }

  lemma ContentKeeps(tokens: seq<Token>, c: Config, block: bool, indentless: bool, anchor: Option<string>, tag: string)
    requires Grounded(c.states) && Clean(tokens, c.pos) && c.pos < |tokens|
    ensures var o := NodeContentStep(tokens, c, block, indentless, anchor, tag);
            o.Emits? ==> Upright(tokens, o.next) && Open(o.next) == Held(c.states) && Quiet(tokens, c.pos, o.next.pos)
  {
    PopKeeps(tokens, c, c.pos);
    if tokens[c.pos].kind.ScalarToken? {
      PopKeeps(tokens, c, c.pos + 1);
    }
    hide Grounded, Pop, Held;
  }

  /** A node opens a collection or is complete; either way it reads no closing bracket. */
  lemma NodeKeeps(tokens: seq<Token>, c: Config, block: bool, indentless: bool)
    requires Grounded(c.states) && Clean(tokens, c.pos)
    ensures var o := NodeStep(tokens, c, block, indentless);
            o.Emits? ==>
              && Upright(tokens, o.next) && Open(o.next) == Held(c.states)
              && Balance(tokens, o.next.pos) == Balance(tokens, c.pos)
  {
    hide NodeContentStep, Grounded, Pop, Held, Balance, Upright, ReadProperties;
    var o := NodeStep(tokens, c, block, indentless);
    if o.Emits? {
      if tokens[c.pos].kind.AliasToken? {
        PopKeeps(tokens, c, c.pos + 1);
        QuietBalance(tokens, c.pos, c.pos + 1);
      } else {
        PropertiesContent(tokens, c.pos);
        var p := ReadProperties(tokens, c.pos);
        QuietBalance(tokens, c.pos, p.next);
        ContentKeeps(tokens, c.(pos := p.next), block, indentless, p.anchor, TagText(p.tag, c.tags));
        QuietBalance(tokens, p.next, o.next.pos);
      }
    }
  }

  /** A child whose return state is `s`. */
  lemma ChildKeeps(tokens: seq<Token>, c: Config, pos: nat, s: State, block: bool, indentless: bool)
    requires Grounded(c.states) && Clean(tokens, pos) && Resumable(s)
    ensures var o := NodeStep(tokens, Push(c, pos, s), block, indentless);
            o.Emits? ==>
              && Upright(tokens, o.next) && Open(o.next) == Held(c.states) + Holds(s)
              && Balance(tokens, o.next.pos) == Balance(tokens, pos)
  {
    hide NodeStep, Grounded, Held, Balance, Upright;
    PushHeld(c.states, s);
    NodeKeeps(tokens, Push(c, pos, s), block, indentless);
  }

  // ------------------------------------------------------- steps by collection

  /** A step taken at `pos` inside a collection that holds `own` brackets itself. */
  ghost predicate Settles(tokens: seq<Token>, c: Config, own: nat, o: Outcome)
    requires c.pos <= |tokens|
  {
    o.Emits? ==> Upright(tokens, o.next) && Debt(tokens, o.next) == Held(c.states) + own - Balance(tokens, c.pos)
  }

  /** Reading on behind quiet tokens settles the same. */
  lemma SettlesLater(tokens: seq<Token>, c: Config, pos: nat, own: nat, o: Outcome)
    requires Quiet(tokens, c.pos, pos) && Settles(tokens, c.(pos := pos), own, o)
    ensures Settles(tokens, c, own, o)
  {
    hide Upright, Debt, Held, Balance;
    QuietBalance(tokens, c.pos, pos);
  }

  lemma ChildSettles(tokens: seq<Token>, c: Config, s: State, block: bool, indentless: bool)
    requires Grounded(c.states) && Clean(tokens, c.pos) && Resumable(s)
    ensures Settles(tokens, c, Holds(s), NodeStep(tokens, Push(c, c.pos, s), block, indentless))
  {
    hide NodeStep, Grounded, Held, Balance, Upright, Clean;
    assert c.pos <= |tokens| by { CleanEnds(tokens, c.pos); }
    ChildKeeps(tokens, c, c.pos, s, block, indentless);
    UprightEnds(tokens, NodeStep(tokens, Push(c, c.pos, s), block, indentless));
  }

  lemma CleanEnds(tokens: seq<Token>, pos: nat)
    requires Clean(tokens, pos)
    ensures pos <= |tokens|
  {
  }

  lemma UprightEnds(tokens: seq<Token>, o: Outcome)
    requires o.Emits? ==> Upright(tokens, o.next)
    ensures o.Emits? ==> o.next.pos <= |tokens|
  {
  }

  lemma MissingSettles(tokens: seq<Token>, c: Config, s: State)
    requires Grounded(c.states) && Clean(tokens, c.pos) && Resumable(s)
    ensures Settles(tokens, c, Holds(s), Missing(c, c.pos, s))
  {
    hide Grounded, Held, Balance;
  }

  /** The end of a collection without a square bracket of its own. */
  lemma PopSettles(tokens: seq<Token>, c: Config, e: Event)
    requires Grounded(c.states) && Clean(tokens, c.pos)
    ensures Settles(tokens, c, 0, Emits(e, Pop(c, c.pos)))
  {
    hide Grounded, Held, Balance, Pop, Upright;
    PopKeeps(tokens, c, c.pos);
  }

  /** A child, or the empty scalar in its place, behind a quiet token. */
  lemma PlaceSettles(tokens: seq<Token>, c: Config, pos: nat, s: State, block: bool, indentless: bool)
    requires Grounded(c.states) && Clean(tokens, c.pos) && Quiet(tokens, c.pos, pos) && Resumable(s)
    ensures Settles(tokens, c, Holds(s), NodeStep(tokens, Push(c, pos, s), block, indentless))
    ensures Settles(tokens, c, Holds(s), Missing(c, pos, s))
    ensures Clean(tokens, pos)
  {
    hide NodeStep, Grounded, Settles;
    QuietBalance(tokens, c.pos, pos);
    var d := c.(pos := pos);
    ChildSettles(tokens, d, s, block, indentless);
    SettlesLater(tokens, c, pos, Holds(s), NodeStep(tokens, Push(c, pos, s), block, indentless));
    MissingSettles(tokens, d, s);
    SettlesLater(tokens, c, pos, Holds(s), Missing(c, pos, s));
  }

  lemma ClosingSettles(tokens: seq<Token>, c: Config, pos: nat, e: Event)
    requires Grounded(c.states) && Clean(tokens, c.pos) && Quiet(tokens, c.pos, pos)
    ensures Settles(tokens, c, 0, Emits(e, Pop(c, pos)))
  {
    hide Grounded, Settles;
    QuietBalance(tokens, c.pos, pos);
    PopSettles(tokens, c.(pos := pos), e);
    SettlesLater(tokens, c, pos, 0, Emits(e, Pop(c, pos)));
  }

  lemma BlockSequenceSettles(tokens: seq<Token>, c: Config)
    requires Grounded(c.states) && Clean(tokens, c.pos)
    ensures Settles(tokens, c, 0, BlockSequenceStep(tokens, c))
  {
    hide NodeStep, Grounded, Upright, Debt, Held, Balance;
    if c.pos < |tokens| && (tokens[c.pos].kind.BlockEntryToken? || tokens[c.pos].kind.BlockEndToken?) {
      PlaceSettles(tokens, c, c.pos + 1, BlockSequenceEntry, true, false);
      ClosingSettles(tokens, c, c.pos + 1, SequenceEnd);
    }
  }

  lemma IndentlessSettles(tokens: seq<Token>, c: Config)
    requires Grounded(c.states) && Clean(tokens, c.pos)
    ensures Settles(tokens, c, 0, IndentlessSequenceStep(tokens, c))
  {
    hide NodeStep, Grounded, Upright, Debt, Held, Balance;
    ClosingSettles(tokens, c, c.pos, SequenceEnd);
    if c.pos < |tokens| && tokens[c.pos].kind.BlockEntryToken? {
      PlaceSettles(tokens, c, c.pos + 1, IndentlessSequenceEntry, true, false);
    }
  }

  lemma BlockMappingKeySettles(tokens: seq<Token>, c: Config)
    requires Grounded(c.states) && Clean(tokens, c.pos)
    ensures Settles(tokens, c, 0, BlockMappingKeyStep(tokens, c))
  {
    hide NodeStep, Grounded, Upright, Debt, Held, Balance;
    if c.pos < |tokens| && (tokens[c.pos].kind.KeyToken? || tokens[c.pos].kind.BlockEndToken?) {
      PlaceSettles(tokens, c, c.pos + 1, BlockMappingValue, true, true);
      ClosingSettles(tokens, c, c.pos + 1, MappingEnd);
    }
  }

  lemma BlockMappingValueSettles(tokens: seq<Token>, c: Config)
    requires Grounded(c.states) && Clean(tokens, c.pos)
    ensures Settles(tokens, c, 0, BlockMappingValueStep(tokens, c))
  {
    hide NodeStep, Grounded, Upright, Debt, Held, Balance;
    PlaceSettles(tokens, c, c.pos, BlockMappingKey, true, true);
    if c.pos < |tokens| && tokens[c.pos].kind.ValueToken? {
      PlaceSettles(tokens, c, c.pos + 1, BlockMappingKey, true, true);
    }
  }

  lemma CommaIsQuiet(tokens: seq<Token>, pos: nat, first: bool, end: TokenKind)
    requires pos <= |tokens|
    ensures var r := AfterComma(tokens, pos, first, end); r.Some? ==> r.value < |tokens| && Quiet(tokens, pos, r.value)
  {
  }

  /** The closing bracket of a flow sequence. */
  lemma BracketSettles(tokens: seq<Token>, c: Config)
    requires Grounded(c.states) && Clean(tokens, c.pos) && c.pos < |tokens| && tokens[c.pos].kind.FlowSequenceEndToken?
    ensures Settles(tokens, c, 1, Emits(SequenceEnd, Pop(c, c.pos + 1)))
  {
    hide Grounded, Held, Pop, Upright, Balance;
    PopKeeps(tokens, c, c.pos + 1);
    Consume(tokens, c.pos);
  }

  lemma FlowSequenceSettles(tokens: seq<Token>, c: Config, first: bool)
    requires Grounded(c.states) && Clean(tokens, c.pos)
    ensures Settles(tokens, c, 1, FlowSequenceStep(tokens, c, first))
  {
    hide NodeStep, Grounded, Settles, AfterComma;
    var r := AfterComma(tokens, c.pos, first, FlowSequenceEndToken);
    CommaIsQuiet(tokens, c.pos, first, FlowSequenceEndToken);
    if r.Some? {
      PlaceSettles(tokens, c, r.value, FlowSequenceEntry, false, false);
      if tokens[r.value].kind.FlowSequenceEndToken? {
        BracketSettles(tokens, c.(pos := r.value));
        SettlesLater(tokens, c, r.value, 1, Emits(SequenceEnd, Pop(c, r.value + 1)));
      } else if tokens[r.value].kind.KeyToken? {
        StateSettles(tokens, c, r.value + 1, MappingStart(None, "", true), FlowSequenceEntryMappingKey);
      }
    } else {
      ErrorSettles(tokens, c);
    }
  }

  lemma ErrorSettles(tokens: seq<Token>, c: Config)
    requires c.pos <= |tokens|
    ensures forall own: nat :: Settles(tokens, c, own, Error)
  {
  }

  /** Only the state changes, behind quiet tokens. */
  lemma StateSettles(tokens: seq<Token>, c: Config, pos: nat, e: Event, s: State)
    requires Grounded(c.states) && Clean(tokens, c.pos) && Quiet(tokens, c.pos, pos) && Resumable(s)
    ensures Settles(tokens, c, Holds(s), Emits(e, c.(pos := pos, state := s)))
  {
    hide Grounded, Held, Balance;
    QuietBalance(tokens, c.pos, pos);
  }

  lemma PairKeySettles(tokens: seq<Token>, c: Config)
    requires Grounded(c.states) && Clean(tokens, c.pos) && c.state.FlowSequenceEntryMappingKey?
    ensures Settles(tokens, c, if Swallows(tokens, c) then 2 else 1, PairKeyStep(tokens, c))
  {
    hide NodeStep, Grounded, Settles;
    PlaceSettles(tokens, c, c.pos, FlowSequenceEntryMappingValue, false, false);
    ErrorSettles(tokens, c);
    if Swallows(tokens, c) {
      SwallowSettles(tokens, c);
    } else if c.pos < |tokens| && (tokens[c.pos].kind.ValueToken? || tokens[c.pos].kind.FlowEntryToken?) {
      PlaceSettles(tokens, c, c.pos + 1, FlowSequenceEntryMappingValue, false, false);
    }
  }

  lemma SwallowSettles(tokens: seq<Token>, c: Config)
    requires Grounded(c.states) && Clean(tokens, c.pos) && Swallows(tokens, c)
    ensures Settles(tokens, c, 2, Missing(c, c.pos + 1, FlowSequenceEntryMappingValue))
  {
    hide Grounded, Held, Balance;
    Consume(tokens, c.pos);
  }

  lemma PairValueSettles(tokens: seq<Token>, c: Config)
    requires Grounded(c.states) && Clean(tokens, c.pos)
    ensures Settles(tokens, c, 1, PairValueStep(tokens, c))
  {
    hide NodeStep, Grounded, Settles;
    PlaceSettles(tokens, c, c.pos, FlowSequenceEntryMappingEnd, false, false);
    ErrorSettles(tokens, c);
    if c.pos < |tokens| && tokens[c.pos].kind.ValueToken? {
      PlaceSettles(tokens, c, c.pos + 1, FlowSequenceEntryMappingEnd, false, false);
    }
  }

  lemma FlowMappingKeySettles(tokens: seq<Token>, c: Config, first: bool)
    requires Grounded(c.states) && Clean(tokens, c.pos)
    ensures Settles(tokens, c, 0, FlowMappingKeyStep(tokens, c, first))
  {
    hide NodeStep, Grounded, Settles, AfterComma;
    var r := AfterComma(tokens, c.pos, first, FlowMappingEndToken);
    CommaIsQuiet(tokens, c.pos, first, FlowMappingEndToken);
    ErrorSettles(tokens, c);
    if r.Some? {
      PlaceSettles(tokens, c, r.value, FlowMappingEmptyValue, false, false);
      if tokens[r.value].kind.FlowMappingEndToken? || tokens[r.value].kind.KeyToken? {
        PlaceSettles(tokens, c, r.value + 1, FlowMappingValue, false, false);
        ClosingSettles(tokens, c, r.value + 1, MappingEnd);
      }
    }
  }

  lemma FlowMappingValueSettles(tokens: seq<Token>, c: Config)
    requires Grounded(c.states) && Clean(tokens, c.pos)
    ensures Settles(tokens, c, 0, FlowMappingValueStep(tokens, c))
  {
    hide NodeStep, Grounded, Settles;
    PlaceSettles(tokens, c, c.pos, FlowMappingKey, false, false);
    ErrorSettles(tokens, c);
    if c.pos < |tokens| && tokens[c.pos].kind.ValueToken? {
      PlaceSettles(tokens, c, c.pos + 1, FlowMappingKey, false, false);
    }
  }

  // ---------------------------------------------------------------- all steps

  lemma EnteredKeeps(tokens: seq<Token>, c: Config, o: Outcome)
    requires Upright(tokens, c) && IsFirst(c.state)
    requires Settles(tokens, Advance(c), if c.state.FlowSequenceFirstEntry? then 1 else 0, o)
    ensures Keeps(tokens, c, o)
  {
    hide Grounded, Held, Balance;
    Consume(tokens, c.pos);
  }

  lemma AdvanceIsClean(tokens: seq<Token>, c: Config)
    requires Upright(tokens, c) && IsFirst(c.state)
    ensures Clean(tokens, c.pos + 1) && Grounded(c.states)
  {
    hide Grounded;
  }

  lemma FirstKeeps(tokens: seq<Token>, c: Config)
    requires Upright(tokens, c) && IsFirst(c.state)
    ensures Keeps(tokens, c, Step(tokens, c))
  {
    hide Upright, Keeps, Settles, Grounded, Clean, BlockSequenceStep, BlockMappingKeyStep, FlowSequenceStep, FlowMappingKeyStep;
    AdvanceIsClean(tokens, c);
    match c.state
    case BlockSequenceFirstEntry => BlockSequenceSettles(tokens, Advance(c)); EnteredKeeps(tokens, c, Step(tokens, c));
    case BlockMappingFirstKey => BlockMappingKeySettles(tokens, Advance(c)); EnteredKeeps(tokens, c, Step(tokens, c));
    case FlowSequenceFirstEntry => FlowSequenceSettles(tokens, Advance(c), true); EnteredKeeps(tokens, c, Step(tokens, c));
    case FlowMappingFirstKey => FlowMappingKeySettles(tokens, Advance(c), true); EnteredKeeps(tokens, c, Step(tokens, c));
  }

  lemma InnerKeeps(tokens: seq<Token>, c: Config, o: Outcome)
    requires Upright(tokens, c) && Resumable(c.state)
    requires Settles(tokens, c, Holds(c.state) + if Swallows(tokens, c) then 1 else 0, o)
    ensures Keeps(tokens, c, o)
  {
    hide Grounded, Held, Balance;
  }

  lemma ResumableKeeps(tokens: seq<Token>, c: Config)
    requires Upright(tokens, c) && Resumable(c.state)
    ensures Keeps(tokens, c, Step(tokens, c))
  {
    hide Keeps, Settles, Grounded, Clean, Missing, BlockSequenceStep, BlockMappingKeyStep, FlowSequenceStep,
         FlowMappingKeyStep, IndentlessSequenceStep, BlockMappingValueStep, PairKeyStep, PairValueStep, FlowMappingValueStep;
    CleanEnds(tokens, c.pos);
    ErrorSettles(tokens, c);
    match c.state {
      case BlockSequenceEntry => BlockSequenceSettles(tokens, c);
      case IndentlessSequenceEntry => IndentlessSettles(tokens, c);
      case BlockMappingKey => BlockMappingKeySettles(tokens, c);
      case BlockMappingValue => BlockMappingValueSettles(tokens, c);
      case FlowSequenceEntry => FlowSequenceSettles(tokens, c, false);
      case FlowSequenceEntryMappingKey => PairKeySettles(tokens, c);
      case FlowSequenceEntryMappingValue => PairValueSettles(tokens, c);
      case FlowSequenceEntryMappingEnd => StayQuiet(tokens, c.pos); StateSettles(tokens, c, c.pos, MappingEnd, FlowSequenceEntry);
      case FlowMappingKey => FlowMappingKeySettles(tokens, c, false);
      case FlowMappingValue => FlowMappingValueSettles(tokens, c);
      case FlowMappingEmptyValue => MissingSettles(tokens, c, FlowMappingKey);
    }
    InnerKeeps(tokens, c, Step(tokens, c));
  }

  lemma StayQuiet(tokens: seq<Token>, pos: nat)
    requires Clean(tokens, pos)
    ensures Quiet(tokens, pos, pos)
  {
  }

  lemma NodeDueKeeps(tokens: seq<Token>, c: Config)
    requires Upright(tokens, c) && ExpectsNode(c.state)
    ensures Keeps(tokens, c, Step(tokens, c))
  {
    hide NodeStep, Grounded, Held, Balance, Pop;
    PopKeeps(tokens, c, c.pos);
    NodeKeeps(tokens, c, true, false);
    NodeKeeps(tokens, c, true, true);
    NodeKeeps(tokens, c, false, false);
  }

  lemma {:induction false} DirectivesQuiet(tokens: seq<Token>, pos: nat, existing: seq<TagDirective>,
                                           version: Option<(nat, nat)>, declared: seq<TagDirective>)
    ensures var d := ReadDirectives(tokens, pos, existing, version, declared);
            d.Directives? ==> Quiet(tokens, pos, d.next)
    decreases |tokens| - pos
  {
    if pos < |tokens| {
      match tokens[pos].kind
      case VersionDirectiveToken(major, minor) =>
        DirectivesQuiet(tokens, pos + 1, existing, Some((major, minor)), declared);
      case TagDirectiveToken(handle, prefix) =>
        DirectivesQuiet(tokens, pos + 1, existing, version, declared + [TagDirective(handle, prefix)]);
      case _ =>
    }
  }

  lemma {:induction false} EndsQuiet(tokens: seq<Token>, pos: nat)
    requires pos <= |tokens|
    ensures Quiet(tokens, pos, SkipDocumentEnds(tokens, pos))
    decreases |tokens| - pos
  {
    if pos < |tokens| && tokens[pos].kind.DocumentEndToken? {
      EndsQuiet(tokens, pos + 1);
    }
  }

  /** Quiet tokens between documents, and where they lead. */
  lemma OutsideKeeps(tokens: seq<Token>, c: Config, o: Outcome)
    requires Upright(tokens, c) && Between(c.state) && !c.state.EndState?
    requires o.Emits? ==>
               && Quiet(tokens, c.pos, o.next.pos) && !IsFirst(o.next.state) && !o.next.state.EndState?
               && Holds(o.next.state) == 0
               && o.next.states == if Between(o.next.state) then [] else [DocumentEndState]
    ensures Keeps(tokens, c, o)
  {
    hide Balance;
    if o.Emits? {
      QuietBalance(tokens, c.pos, o.next.pos);
      assert Held([DocumentEndState]) == 0;
    }
  }

  lemma ExplicitKeeps(tokens: seq<Token>, c: Config, pos: nat)
    requires Upright(tokens, c) && Between(c.state) && !c.state.EndState? && Quiet(tokens, c.pos, pos)
    ensures Keeps(tokens, c, ExplicitDocumentStep(tokens, c.(pos := pos)))
  {
    DirectivesQuiet(tokens, pos, c.tags, None, []);
    hide Keeps, ReadDirectives, WithDefaults;
    assert [] + [DocumentEndState] == [DocumentEndState];
    OutsideKeeps(tokens, c, ExplicitDocumentStep(tokens, c.(pos := pos)));
  }

  lemma StreamEndKeeps(tokens: seq<Token>, c: Config, pos: nat)
    requires Upright(tokens, c) && Between(c.state) && !c.state.EndState? && Quiet(tokens, c.pos, pos)
    requires pos < |tokens| && tokens[pos].kind.StreamEndToken?
    ensures Keeps(tokens, c, Emits(StreamEnd, c.(pos := pos + 1, state := EndState)))
  {
    hide Balance;
    QuietBalance(tokens, c.pos, pos);
    Consume(tokens, pos);
  }

  lemma DocumentStartKeeps(tokens: seq<Token>, c: Config, implicit: bool)
    requires Upright(tokens, c) && Between(c.state) && !c.state.EndState?
    ensures Keeps(tokens, c, DocumentStartStep(tokens, c, implicit))
  {
    hide Keeps, ExplicitDocumentStep, SkipDocumentEnds, WithDefaults;
    EndsQuiet(tokens, c.pos);
    var pos := if implicit then c.pos else SkipDocumentEnds(tokens, c.pos);
    assert [] + [DocumentEndState] == [DocumentEndState];
    var o := DocumentStartStep(tokens, c, implicit);
    if pos >= |tokens| {
      OutsideKeeps(tokens, c, o);
    } else if implicit && !StartsExplicitly(tokens[pos].kind) {
      OutsideKeeps(tokens, c, o);
    } else if tokens[pos].kind.StreamEndToken? {
      StreamEndKeeps(tokens, c, pos);
    } else {
      ExplicitKeeps(tokens, c, pos);
    }
  }

  /** Every step leaves the shape, and adds to the debt just when it swallows a bracket. */
  lemma StepKeeps(tokens: seq<Token>, c: Config)
    requires Upright(tokens, c) && !c.state.EndState?
    ensures c.pos <= |tokens| && Keeps(tokens, c, Step(tokens, c))
  {
    hide Keeps, DocumentStartStep, NodeStep, Grounded;
    if ExpectsNode(c.state) {
      NodeDueKeeps(tokens, c);
    } else if IsFirst(c.state) {
      FirstKeeps(tokens, c);
    } else if !Between(c.state) {
      ResumableKeeps(tokens, c);
    } else {
      match c.state
      case ImplicitDocumentStart => DocumentStartKeeps(tokens, c, true);
      case DocumentStartState => DocumentStartKeeps(tokens, c, false);
      case _ => OutsideKeeps(tokens, c, Step(tokens, c));
    }
  }

  /** So does every run. */
  lemma {:induction false} RunKeeps(tokens: seq<Token>, c: Config, es: seq<Event>, d: Config)
    requires Runs(tokens, c, es, d) && Upright(tokens, c)
    ensures Upright(tokens, d) && d.pos <= |tokens| && c.pos <= |tokens| && Debt(tokens, d) >= Debt(tokens, c)
    ensures es != [] && Swallows(tokens, c) ==> Debt(tokens, d) > Debt(tokens, c)
    decreases |es|
  {
    hide Step, Debt, Grounded, Clean;
    assert c.pos <= |tokens| by { UprightInside(tokens, c); }
    if es != [] {
      StepKeeps(tokens, c);
      RunKeeps(tokens, Step(tokens, c).next, es[1..], d);
    }
  }

  lemma UprightInside(tokens: seq<Token>, c: Config)
    requires Upright(tokens, c)
    ensures c.pos <= |tokens|
  {
  }

  /** A run that comes to the end of the stream goes through every configuration that is reached on the way. */
  lemma {:induction false} RunsThrough(tokens: seq<Token>, c: Config, es: seq<Event>, d: Config, all: seq<Event>, e: Config)
      returns (rest: seq<Event>)
    requires Runs(tokens, c, es, d) && Runs(tokens, c, all, e) && e.state.EndState?
    ensures Runs(tokens, d, rest, e) && all == es + rest
    decreases |es|
  {
    hide Step;
    if es == [] {
      rest := all;
    } else {
      assert all != [];
      rest := RunsThrough(tokens, Step(tokens, c).next, es[1..], d, all[1..], e);
      assert all == [all[0]] + all[1..] && es == [es[0]] + es[1..];
    }
  }

  /** From a doomed configuration no run comes to the end of the stream with all brackets accounted for. */
  lemma DoomedNeverEnds(tokens: seq<Token>, c: Config, es: seq<Event>, e: Config)
    requires Upright(tokens, c) && Doomed(tokens, c) && Runs(tokens, c, es, e) && e.state.EndState?
    ensures c.pos <= |tokens| && e.pos <= |tokens| && Debt(tokens, e) > Debt(tokens, c)
  {
    hide Step, Debt, Upright;
    var front, d :| Runs(tokens, c, front, d) && Dead(tokens, d);
    var rest := RunsThrough(tokens, c, front, d, es, e);
    RunKeeps(tokens, c, front, d);
    RunKeeps(tokens, d, rest, e);
  }

  // --------------------------------------------- what the grammar spells balances

  function Weight(ks: seq<TokenKind>): int {
    if ks == [] then 0 else Weight(Init(ks)) + Bracket(Last(ks))
  }

  /** Balanced, and the stream does not end in it. */
  predicate Calm(ks: seq<TokenKind>) {
    Weight(ks) == 0 && forall i | 0 <= i < |ks| :: !ks[i].StreamEndToken?
  }

  lemma {:induction false} WeightAdds(a: seq<TokenKind>, b: seq<TokenKind>)
    ensures Weight(a + b) == Weight(a) + Weight(b)
    decreases |b|
  {
    if b == [] {
      assert a + b == a;
    } else {
      assert Init(a + b) == a + Init(b);
      WeightAdds(a, Init(b));
    }
  }

  lemma {:induction false} CalmAdds(a: seq<TokenKind>, b: seq<TokenKind>)
    requires Calm(a) && Calm(b)
    ensures Calm(a + b)
  {
    hide Weight;
    WeightAdds(a, b);
  }

  /** Tokens that are not square brackets. */
  lemma {:induction false} PlainCalm(ks: seq<TokenKind>)
    requires forall i | 0 <= i < |ks| :: Bracket(ks[i]) == 0 && !ks[i].StreamEndToken?
    ensures Calm(ks)
    decreases |ks|
  {
    if ks != [] {
      PlainCalm(Init(ks));
    }
  }

  /** What stands between the brackets of a collection. */
  lemma {:induction false} FramedCalm(s: Style, body: seq<TokenKind>, trailing: bool)
    requires Calm(body)
    ensures Calm(Opening(s) + body + Tail(s, trailing))
  {
    hide Weight;
    var comma := if trailing then [FlowEntryToken] else [];
    PlainCalm(comma);
    WeightAdds(Opening(s) + body, Tail(s, trailing));
    WeightAdds(Opening(s), body);
    WeightAdds(comma, YamlGrammar.Closing(s));
    EndsWeigh(s);
    NoEndAdds(Opening(s), body);
    NoEndAdds(comma, YamlGrammar.Closing(s));
    NoEndAdds(Opening(s) + body, Tail(s, trailing));
  }

  lemma {:induction false} NoEndAdds(a: seq<TokenKind>, b: seq<TokenKind>)
    requires forall i | 0 <= i < |a| :: !a[i].StreamEndToken?
    requires forall i | 0 <= i < |b| :: !b[i].StreamEndToken?
    ensures forall i | 0 <= i < |a + b| :: !(a + b)[i].StreamEndToken?
  {
  }

  lemma {:induction false} EndsWeigh(s: Style)
    ensures Weight(Opening(s)) + Weight(YamlGrammar.Closing(s)) == 0
  {
    assert forall k: TokenKind :: Init([k]) == [];
  }

  lemma {:induction false} SpellCalm(n: Syntax)
    ensures Calm(Spell(n))
    decreases n, 0
  {
    hide Calm;
    match n
    case Absent => PlainCalm([]);
    case Alias(name) => PlainCalm([AliasToken(name)]);
    case Bare(p) => PlainCalm(SpellProps(p));
    case Scalar(p, v, plain) =>
      PlainCalm(SpellProps(p));
      PlainCalm([ScalarToken(v, plain)]);
      CalmAdds(SpellProps(p), [ScalarToken(v, plain)]);
    case Collection(p, s, entries, trailing) =>
      PlainCalm(SpellProps(p));
      EntriesCalm(s, entries, true);
      FramedCalm(s, SpellEntries(s, entries, true), trailing);
      CalmAdds(SpellProps(p), Opening(s) + SpellEntries(s, entries, true) + Tail(s, trailing));
  }

  lemma {:induction false} EntriesCalm(s: Style, es: seq<Entry>, first: bool)
    ensures Calm(SpellEntries(s, es, first))
    decreases es, 3
  {
    hide Calm, SpellEntry;
    if es == [] {
      PlainCalm([]);
    } else {
      EntryCalm(s, es[0], first);
      EntriesCalm(s, es[1..], false);
      CalmAdds(SpellEntry(s, es[0], first), SpellEntries(s, es[1..], false));
    }
  }

  lemma {:induction false} EntryCalm(s: Style, e: Entry, first: bool)
    ensures Calm(SpellEntry(s, e, first))
    decreases e, 2
  {
    hide Calm, Spell, SpellPair, SpellValue;
    SpellCalm(e.key);
    PairCalm(e);
    PlainCalm([]);
    PlainCalm([BlockEntryToken]);
    PlainCalm([FlowEntryToken]);
    CalmAdds([BlockEntryToken], Spell(e.key));
    CalmAdds(if first then [] else [FlowEntryToken], if e.keyed then SpellPair(e) else Spell(e.key));
  }

  lemma {:induction false} PairCalm(e: Entry)
    ensures Calm(SpellPair(e)) && Calm(SpellValue(e))
    decreases e, 1
  {
    hide Calm, Spell;
    SpellCalm(e.key);
    SpellCalm(e.value);
    PlainCalm([]);
    PlainCalm([KeyToken]);
    PlainCalm([ValueToken]);
    CalmAdds([ValueToken], Spell(e.value));
    CalmAdds([KeyToken], Spell(e.key));
    CalmAdds([KeyToken] + Spell(e.key), SpellValue(e));
  }

  /** The balance of tokens that are spelled. */
  lemma {:induction false} SpelledBalance(tokens: seq<Token>, pos: nat, ks: seq<TokenKind>)
    requires Lies(tokens, pos, ks)
    ensures Balance(tokens, pos + |ks|) == Balance(tokens, pos) + Weight(ks)
    decreases |ks|
  {
    if ks != [] {
      LiesSplit(tokens, pos, Init(ks), [Last(ks)]) by { assert ks == Init(ks) + [Last(ks)]; }
      LiesFirst(tokens, pos + |Init(ks)|, [Last(ks)]);
      SpelledBalance(tokens, pos, Init(ks));
    }
  }
}
