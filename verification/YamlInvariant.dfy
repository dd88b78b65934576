/** What the control state of the YAML parser means for the document read so far,
    and how every kind of step preserves that meaning. */
module YamlInvariant {
  import opened YamlEvents
  import opened YamlTokens
  import opened YamlStep

  predicate IsDirective(t: Token) {
    t.kind.VersionDirectiveToken? || t.kind.TagDirectiveToken?
  }

  predicate NoStreamEnd(ts: seq<Token>) {
    forall i | 0 <= i < |ts| :: !ts[i].kind.StreamEndToken?
  }

  // -------------------------------------------------- the state's meaning

  /** The parser's control state fits what has been emitted. */
  ghost predicate Fits(tokens: seq<Token>, pos: nat, state: State, states: seq<State>,
                       marks: seq<Mark>, bs: Brackets, z: Zipper)
  {
    match z
    case Unstarted => state.StreamStartState? && states == [] && bs == [] && marks == []
    case Between(_) =>
      (state.ImplicitDocumentStart? || state.DocumentStartState?) && states == [] && bs == [] && marks == []
    case Closing(_, _, _) => state.DocumentEndState? && states == [] && bs == [] && marks == []
    case Finished(_) => state.EndState? && pos > 0
    case Inside(_, _, fs) =>
      && |fs| == |bs|
      && if ExpectsNode(state) then
           Pending(tokens, states, fs, bs) && marks == BracketMarks(tokens, bs)
         else
           && At(tokens, state, states, fs, bs, 0)
           && if IsFirst(state) then Last(bs) == Some(pos) && marks == BracketMarks(tokens, Init(bs))
              else marks == BracketMarks(tokens, bs)
  }

  /** Ready for a node: whatever comes next is a child of the innermost collection. */
  ghost predicate NodeDue(tokens: seq<Token>, states: seq<State>, marks: seq<Mark>, bs: Brackets, z: Zipper) {
    && z.Inside?
    && |z.frames| == |bs|
    && Pending(tokens, states, z.frames, bs)
    && marks == BracketMarks(tokens, bs)
  }

  /** A child is complete: the return state takes over. */
  lemma ChildFits(tokens: seq<Token>, pos: nat, states: seq<State>, marks: seq<Mark>, bs: Brackets,
                  docs: seq<Document>, start: Event, fs: seq<Frame>, t: Tree)
    requires |fs| == |bs| && Pending(tokens, states, fs, bs) && marks == BracketMarks(tokens, bs)
    ensures var z := Complete(docs, start, fs, t);
            && (z.Inside? || z.Closing?)
            && Fits(tokens, pos, Last(states), Init(states), marks, bs, z)
  {
    Resumes(tokens, Last(states), Init(states), fs, bs);
    if fs != [] {
      PendingFilled(tokens, states, fs, bs, t);
    }
    hide At;
  }

  lemma LeafFits(tokens: seq<Token>, pos: nat, states: seq<State>, marks: seq<Mark>, bs: Brackets, z: Zipper, e: Event)
    requires NodeDue(tokens, states, marks, bs, z)
    requires e.AliasEvent? || e.ScalarEvent?
    ensures CanFeed(z, e) && (Feed(z, e).Inside? || Feed(z, e).Closing?)
    ensures Fits(tokens, pos, Last(states), Init(states), marks, bs, Feed(z, e))
  {
    hide Pending, BracketMarks, Fits, Complete;
    ChildFits(tokens, pos, states, marks, bs, z.docs, z.start, z.frames, Leaf(e));
  }

  /** Opening a collection: `state` takes over with no children, the stack unchanged. */
  lemma OpenFits(tokens: seq<Token>, pos: nat, state: State, states: seq<State>, marks: seq<Mark>, bs: Brackets,
                 z: Zipper, e: Event)
    requires NodeDue(tokens, states, marks, bs, z) && pos < |tokens|
    requires || (state.IndentlessSequenceEntry? && e.SequenceStart?)
             || (IsFirst(state) && OpenedBy(state, tokens[pos].kind)
                 && if state.BlockSequenceFirstEntry? || state.FlowSequenceFirstEntry? then e.SequenceStart? else e.MappingStart?)
    ensures CanFeed(z, e) && Feed(z, e).Inside?
    ensures Fits(tokens, pos, state, states, marks, bs + [if IsFirst(state) then Some(pos) else None], Feed(z, e))
  {
    var bs' := bs + [if IsFirst(state) then Some(pos) else None];
    OpenAt(tokens, pos, state, states, bs, z.frames, e);
    assert Init(bs') == bs;
    assert BracketMarks(tokens, bs) + [] == BracketMarks(tokens, bs);
    hide At;
  }

  lemma OpenAt(tokens: seq<Token>, pos: nat, state: State, states: seq<State>, bs: Brackets, fs: seq<Frame>, e: Event)
    requires |fs| == |bs| && Pending(tokens, states, fs, bs) && pos < |tokens|
    requires || (state.IndentlessSequenceEntry? && e.SequenceStart?)
             || (IsFirst(state) && OpenedBy(state, tokens[pos].kind)
                 && if state.BlockSequenceFirstEntry? || state.FlowSequenceFirstEntry? then e.SequenceStart? else e.MappingStart?)
    ensures At(tokens, state, states, fs + [Frame(e, [])], bs + [if IsFirst(state) then Some(pos) else None], 0)
  {
    assert Init(bs + [if IsFirst(state) then Some(pos) else None]) == bs && Init(fs + [Frame(e, [])]) == fs;
  }

  /** Only bracketed collections have a mark. */
  lemma CloseMarks(tokens: seq<Token>, state: State, states: seq<State>, fs: seq<Frame>, bs: Brackets)
    requires |fs| == |bs| && At(tokens, state, states, fs, bs, 0)
    requires state.BlockSequenceEntry? || state.IndentlessSequenceEntry? || state.FlowSequenceEntry?
             || state.BlockMappingKey? || state.FlowMappingKey?
    ensures var marks, outer := BracketMarks(tokens, bs), BracketMarks(tokens, Init(bs));
            if state.IndentlessSequenceEntry? then marks == outer else marks != [] && Init(marks) == outer
  {
  }

  /** The collection outside waits for this one as its next child. */
  lemma Encloses(tokens: seq<Token>, state: State, states: seq<State>, fs: seq<Frame>, bs: Brackets)
    requires |fs| == |bs| && At(tokens, state, states, fs, bs, 0)
    requires state.BlockSequenceEntry? || state.IndentlessSequenceEntry? || state.FlowSequenceEntry?
             || state.BlockMappingKey? || state.FlowMappingKey?
    ensures states != [] && Pending(tokens, states, Init(fs), Init(bs))
  {
  }

  /** A return state is never one that opens a collection or expects a node. */
  lemma Resumes(tokens: seq<Token>, s: State, ss: seq<State>, fs: seq<Frame>, bs: Brackets)
    requires |fs| == |bs| && At(tokens, s, ss, fs, bs, 1)
    ensures !ExpectsNode(s) && !IsFirst(s) && Rank(s) <= 2
    ensures s.DocumentEndState? <==> fs == []
    ensures fs == [] ==> ss == []
  {
  }

  /** Closing a collection whose state is `state`: the return state takes over. */
  lemma CloseFits(tokens: seq<Token>, pos: nat, state: State, states: seq<State>, marks: seq<Mark>, bs: Brackets,
                  z: Zipper, e: Event)
    requires z.Inside? && |z.frames| == |bs| && At(tokens, state, states, z.frames, bs, 0)
    requires marks == BracketMarks(tokens, bs)
    requires || (e.SequenceEnd? && (state.BlockSequenceEntry? || state.IndentlessSequenceEntry? || state.FlowSequenceEntry?))
             || (e.MappingEnd? && (state.BlockMappingKey? || state.FlowMappingKey?))
    ensures CanFeed(z, e) && (Feed(z, e).Inside? || Feed(z, e).Closing?)
    ensures !state.IndentlessSequenceEntry? ==> marks != []
    ensures Fits(tokens, pos, Last(states), Init(states),
                 if state.IndentlessSequenceEntry? then marks else Init(marks), Init(bs), Feed(z, e))
  {
    hide At, BracketMarks, Pending, Fits, Complete, Close;
    var fs := z.frames;
    CloseMarks(tokens, state, states, fs, bs);
    Encloses(tokens, state, states, fs, bs);
    Closes(tokens, state, states, fs, bs);
    ChildFits(tokens, pos, states, if state.IndentlessSequenceEntry? then marks else Init(marks), Init(bs),
              z.docs, z.start, Init(fs), Close(Last(fs)));
  }

  lemma Closes(tokens: seq<Token>, state: State, states: seq<State>, fs: seq<Frame>, bs: Brackets)
    requires |fs| == |bs| && At(tokens, state, states, fs, bs, 0)
    ensures state.BlockSequenceEntry? || state.IndentlessSequenceEntry? || state.FlowSequenceEntry? ==>
              fs != [] && Last(fs).start.SequenceStart?
    ensures state.BlockMappingKey? || state.FlowMappingKey? ==>
              fs != [] && Last(fs).start.MappingStart? && |Last(fs).items| % 2 == 0
  {
  }

  /** `next` is the state of a collection after one more child than in `state`. */
  predicate Follows(state: State, next: State) {
    match state
    case BlockSequenceEntry => next.BlockSequenceEntry?
    case IndentlessSequenceEntry => next.IndentlessSequenceEntry?
    case FlowSequenceEntry => next.FlowSequenceEntry?
    case BlockMappingKey => next.BlockMappingValue?
    case BlockMappingValue => next.BlockMappingKey?
    case FlowMappingKey => next.FlowMappingValue? || next.FlowMappingEmptyValue?
    case FlowMappingValue => next.FlowMappingKey?
    case FlowMappingEmptyValue => next.FlowMappingKey?
    case FlowSequenceEntryMappingKey => next.FlowSequenceEntryMappingValue?
    case FlowSequenceEntryMappingValue => next.FlowSequenceEntryMappingEnd?
    case _ => false
  }

  /** From a collection's state to the state of its next child. */
  lemma ChildDue(tokens: seq<Token>, state: State, next: State, states: seq<State>, marks: seq<Mark>, bs: Brackets, z: Zipper)
    requires z.Inside? && |z.frames| == |bs| && At(tokens, state, states, z.frames, bs, 0)
    requires marks == BracketMarks(tokens, bs)
    requires Follows(state, next)
    ensures NodeDue(tokens, states + [next], marks, bs, z)
  {
    hide BracketMarks;
    assert Init(states + [next]) == states;
  }

  /** Starting a single-pair mapping inside a flow sequence. */
  lemma PairFits(tokens: seq<Token>, pos: nat, states: seq<State>, marks: seq<Mark>, bs: Brackets, z: Zipper, e: Event)
    requires z.Inside? && |z.frames| == |bs| && At(tokens, FlowSequenceEntry, states, z.frames, bs, 0)
    requires marks == BracketMarks(tokens, bs) && e.MappingStart?
    ensures CanFeed(z, e) && Feed(z, e).Inside?
    ensures Fits(tokens, pos, FlowSequenceEntryMappingKey, states, marks, bs + [None], Feed(z, e))
  {
    assert Init(bs + [None]) == bs && Init(z.frames + [Frame(e, [])]) == z.frames;
    assert BracketMarks(tokens, bs) + [] == BracketMarks(tokens, bs);
  }

  /** Ending it: the flow sequence goes on with one more child. */
  lemma EndPairFits(tokens: seq<Token>, pos: nat, states: seq<State>, marks: seq<Mark>, bs: Brackets, z: Zipper)
    requires z.Inside? && |z.frames| == |bs| && At(tokens, FlowSequenceEntryMappingEnd, states, z.frames, bs, 0)
    requires marks == BracketMarks(tokens, bs)
    ensures CanFeed(z, MappingEnd) && Feed(z, MappingEnd).Inside?
    ensures Fits(tokens, pos, FlowSequenceEntry, states, marks, Init(bs), Feed(z, MappingEnd))
  {
    var outer := Init(z.frames);
    assert Init(AddItem(outer, Close(Last(z.frames)))) == Init(outer);
  }

  predicate IsCollection(s: State) {
    !ExpectsNode(s) && !s.StreamStartState? && !s.ImplicitDocumentStart? && !s.DocumentStartState?
    && !s.DocumentEndState? && !s.EndState?
  }

  /** The state a collection is in once its opening token has been consumed. */
  function Entered(s: State): State {
    match s
    case BlockSequenceFirstEntry => BlockSequenceEntry
    case BlockMappingFirstKey => BlockMappingKey
    case FlowSequenceFirstEntry => FlowSequenceEntry
    case FlowMappingFirstKey => FlowMappingKey
    case _ => s
  }

  /** In a collection state the zipper is inside a document, and the states fit. */
  lemma Working(tokens: seq<Token>, pos: nat, state: State, states: seq<State>, marks: seq<Mark>, bs: Brackets, z: Zipper)
    requires Fits(tokens, pos, state, states, marks, bs, z) && IsCollection(state)
    ensures z.Inside? && |z.frames| == |bs| && states != []
    ensures At(tokens, Entered(state), states, z.frames, bs, 0)
    ensures if IsFirst(state) then
              pos < |tokens| && OpenedBy(state, tokens[pos].kind) && marks + [tokens[pos].start] == BracketMarks(tokens, bs)
            else
              marks == BracketMarks(tokens, bs)
    ensures state.BlockSequenceEntry? || state.BlockMappingKey? || state.FlowSequenceEntry? || state.FlowMappingKey? ==>
              marks != [] && Last(bs).Some? && Last(bs).value < |tokens| && Last(marks) == tokens[Last(bs).value].start
  {
  }

  /** Outside collections the state alone tells where in the stream the parser is. */
  lemma Phases(tokens: seq<Token>, pos: nat, state: State, states: seq<State>, marks: seq<Mark>, bs: Brackets, z: Zipper)
    requires Fits(tokens, pos, state, states, marks, bs, z) && !IsCollection(state)
    ensures state.StreamStartState? <==> z.Unstarted?
    ensures state.ImplicitDocumentStart? || state.DocumentStartState? <==> z.Between?
    ensures state.DocumentEndState? <==> z.Closing?
    ensures state.EndState? <==> z.Finished?
    ensures ExpectsNode(state) ==> NodeDue(tokens, states, marks, bs, z)
    ensures !ExpectsNode(state) && !z.Finished? ==> states == [] && marks == [] && bs == []
  {
  }

  /** Starting a document: its root is due. */
  lemma RootDue(tokens: seq<Token>, pos: nat, state: State, z: Zipper, e: Event)
    requires z.Between? && e.DocumentStart? && (state.BlockNode? || state.DocumentContent?)
    ensures CanFeed(z, e) && Feed(z, e).Inside?
    ensures Fits(tokens, pos, state, [DocumentEndState], [], [], Feed(z, e))
  {
    assert Init([DocumentEndState]) == [];
    assert At(tokens, DocumentEndState, [], [], [], 1);
  }

  /** Steps between documents keep nothing open. */
  lemma StreamFits(tokens: seq<Token>, pos: nat, state: State, z: Zipper, e: Event)
    requires || (z.Unstarted? && e.StreamStart? && state.ImplicitDocumentStart?)
             || (z.Closing? && e.DocumentEnd? && state.DocumentStartState?)
             || (z.Between? && e.StreamEnd? && state.EndState? && pos > 0)
    ensures CanFeed(z, e) && Feed(z, e).Finished? == e.StreamEnd? && !Feed(z, e).Unstarted?
    ensures Fits(tokens, pos, state, [], [], [], Feed(z, e))
  {
  }

  lemma EndPhase(tokens: seq<Token>, pos: nat, state: State, states: seq<State>, marks: seq<Mark>, bs: Brackets, z: Zipper)
    requires Fits(tokens, pos, state, states, marks, bs, z)
    ensures state.EndState? <==> z.Finished?
  {
  }

  /** Feeding appends, whatever the event. */
  lemma FeedsEmit(z: Zipper)
    requires ValidZipper(z)
    ensures forall e :: CanFeed(z, e) ==> ValidZipper(Feed(z, e)) && Emitted(Feed(z, e)) == Emitted(z) + [e]
  {
    forall e | CanFeed(z, e)
      ensures ValidZipper(Feed(z, e)) && Emitted(Feed(z, e)) == Emitted(z) + [e]
    {
      FeedEmits(z, e);
    }
  }
}
