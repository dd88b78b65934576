/** The pushdown parser of the YAML engine: tokens in, events out. */
module YamlParser {
  import opened YamlEvents
  import opened YamlTokens
  import opened YamlStep
  import opened YamlInvariant
  import opened YamlTermination
  import G = YamlGrammar

  datatype Problem =
    | ScannerError
    | ParserError(problem: string, context: Option<Mark>, mark: Mark)

  // ------------------------------------------------------------- the parser

  class Parser {
    /** What the scanner will deliver; running past the end is a scanner error. */
    const tokens: seq<Token>
    var pos: nat
    var streamEndProduced: bool
    var state: State
    var states: seq<State>
    var marks: seq<Mark>
    var tagDirectives: seq<TagDirective>
    var error: Option<Problem>
    var event: Event

    /** What has been emitted, and where the open collections were opened. */
    ghost var z: Zipper
    ghost var brackets: Brackets

    ghost function Read(): seq<Content>
      requires pos <= |tokens|
      reads this
    {
      TokensContent(tokens[..pos])
    }

    ghost function Told(): seq<Content>
      reads this
    {
      EventsContent(Emitted(z))
    }

    /** Holds at every moment, also in the middle of a step. */
    ghost predicate Sane()
      reads this
    {
      pos <= |tokens| && ValidZipper(z) && error.None?
    }

    /** Holds between steps. */
    ghost predicate Valid()
      reads this
    {
      && Sane()
      && Fits(tokens, pos, state, states, marks, brackets, z)
      && Read() == Told()
      && streamEndProduced == z.Finished?
      && (if z.Finished? then pos > 0 && NoStreamEnd(tokens[..pos - 1]) && tokens[pos - 1].kind.StreamEndToken?
          else NoStreamEnd(tokens[..pos]))
      && (z.Unstarted? || z.Between? ==> tagDirectives == [])
    }

    ghost predicate DueNode()
      reads this
    {
      && Sane()
      && NodeDue(tokens, states, marks, brackets, z)
      && Read() == Told()
      && !streamEndProduced
      && NoStreamEnd(tokens[..pos])
    }

    /** Inside the collection whose state is `inner`, no child due yet. */
    ghost predicate InCollection(inner: State)
      reads this
    {
      && Sane()
      && z.Inside? && |z.frames| == |brackets| && states != []
      && At(tokens, inner, states, z.frames, brackets, 0)
      && marks == BracketMarks(tokens, brackets)
      && Read() == Told()
      && !streamEndProduced
      && NoStreamEnd(tokens[..pos])
    }

    /** What every step does: one event more, or an error and nothing emitted. */
    twostate predicate Stepped(ok: bool)
      reads this
    {
      && old(pos) <= pos
      && if ok then Valid() && CanFeed(old(z), event) && z == Feed(old(z), event)
         else error.Some? && z == old(z)
    }

    function Cfg(): Config
      reads this
    {
      Config(pos, state, states, tagDirectives)
    }

    /** The step had exactly this outcome. */
    ghost predicate Did(ok: bool, o: Outcome)
      reads this
    {
      ok == o.Emits? && (ok ==> event == o.event && Cfg() == o.next)
    }

    constructor (tokens: seq<Token>)
      ensures Valid() && z.Unstarted? && this.tokens == tokens && pos == 0
    {
      this.tokens := tokens;
      pos, streamEndProduced, state, states, marks := 0, false, StreamStartState, [], [];
      tagDirectives, error, event := [], None, NoEvent;
      z, brackets := Unstarted, [];
    }

    method PeekToken() returns (t: Option<Token>)
      requires pos <= |tokens|
      modifies this`error
      ensures pos < |tokens| ==> t == Some(tokens[pos]) && unchanged(this)
      ensures pos == |tokens| ==> t.None? && error == Some(ScannerError)
    {
      if pos < |tokens| {
        t := Some(tokens[pos]);
      } else {
        error, t := Some(ScannerError), None;
      }
    }

    method SkipToken()
      requires pos < |tokens|
      modifies this`pos, this`streamEndProduced
      ensures pos == old(pos) + 1
      ensures streamEndProduced == tokens[old(pos)].kind.StreamEndToken?
      ensures Read() == old(Read()) + TokenContent(tokens[old(pos)])
      ensures NoStreamEnd(old(tokens[..pos])) && !streamEndProduced ==> NoStreamEnd(tokens[..pos])
    {
      ContentStep(tokens, pos);
      streamEndProduced := tokens[pos].kind.StreamEndToken?;
      pos := pos + 1;
    }

    method Fail(problem: string, context: Option<Mark>, mark: Mark) returns (ok: bool)
      modifies this`error
      ensures !ok && error == Some(ParserError(problem, context, mark))
    {
      error := Some(ParserError(problem, context, mark));
      ok := false;
    }

    method PopState()
      requires states != []
      modifies this`state, this`states
      ensures state == old(Last(states)) && states == old(Init(states))
    {
      state := states[|states| - 1];
      states := states[..|states| - 1];
    }

    ghost method Emit(e: Event)
      requires ValidZipper(z) && CanFeed(z, e)
      modifies this`z
      ensures z == Feed(old(z), e) && ValidZipper(z)
      ensures Told() == old(Told()) + EventContent(e)
    {
      FeedEmits(z, e);
      EventsStep(Emitted(z), e);
      z := Feed(z, e);
    }

    /** The last part of a step inside a document: the event is set, and recorded. */
    method Conclude(e: Event, ghost bs: Brackets)
      requires Sane() && CanFeed(z, e) && (Feed(z, e).Inside? || Feed(z, e).Closing?)
      requires Fits(tokens, pos, state, states, marks, bs, Feed(z, e))
      requires !streamEndProduced && NoStreamEnd(tokens[..pos]) && Read() == Told() + EventContent(e)
      modifies this`event, this`z, this`brackets
      ensures Valid() && event == e && brackets == bs
      ensures CanFeed(old(z), e) && z == Feed(old(z), e)
    {
      hide NoStreamEnd, Fits, Feed, Emitted, ValidZipper, TokensContent, EventsContent, CanFeed, EventContent;
      event := e;
      Emit(e);
      brackets := bs;
    }

    /** The node just read is a leaf: the return state takes over. */
    method ProcessLeaf(e: Event)
      requires Sane() && NodeDue(tokens, states, marks, brackets, z)
      requires e.AliasEvent? || e.ScalarEvent?
      requires !streamEndProduced && NoStreamEnd(tokens[..pos])
      requires Read() == Told() + EventContent(e)
      modifies this`state, this`states, this`event, this`z, this`brackets
      ensures Valid() && event == e && z == Feed(old(z), e)
      ensures CanFeed(old(z), e)
      ensures state == old(Last(states)) && states == old(Init(states))
    {
      hide Fits, Feed, Emitted, At, ValidZipper, NoStreamEnd, TokensContent, EventsContent, CanFeed, EventContent, BracketMarks;
      LeafFits(tokens, pos, states, marks, brackets, z, e);
      PopState();
      Conclude(e, brackets);
    }

    /** An empty scalar fills the child that `state` has been waiting for. */
    method ProcessEmptyScalar() returns (ok: bool)
      requires Sane() && NodeDue(tokens, states + [state], marks, brackets, z)
      requires !streamEndProduced && NoStreamEnd(tokens[..pos])
      requires Read() == Told()
      modifies this`event, this`z, this`brackets
      ensures ok && Valid() && event == ScalarEvent(None, "", "", true, false)
      ensures CanFeed(old(z), event) && z == Feed(old(z), event)
    {
      hide Fits, Feed, Emitted, NodeDue, At, ValidZipper, NoStreamEnd, TokensContent, EventsContent, CanFeed;
      var e := ScalarEvent(None, "", "", true, false);
      LeafFits(tokens, pos, states + [state], marks, brackets, z, e);
      assert Init(states + [state]) == states;
      Conclude(e, brackets);
      ok := true;
    }

    method FailInCollection(problem: string, mark: Mark) returns (ok: bool)
      requires marks != []
      modifies this`error, this`marks
      ensures !ok && error == Some(ParserError(problem, Some(old(Last(marks))), mark))
    {
      var contextMark := marks[|marks| - 1];
      marks := marks[..|marks| - 1];
      ok := Fail(problem, Some(contextMark), mark);
    }

    /** Consume the token that opens a collection and remember where it was. */
    method EnterCollection()
      requires Valid() && IsFirst(state)
      modifies this`marks, this`pos, this`streamEndProduced
      ensures InCollection(Entered(state)) && pos == old(pos) + 1
      ensures marks != [] && Last(marks) == tokens[old(pos)].start && OpenedBy(state, tokens[old(pos)].kind)
    {
      hide Fits, Feed, Emitted, At;
      Working(tokens, pos, state, states, marks, brackets, z);
      marks := marks + [tokens[pos].start];
      SkipToken();
    }

    /** The innermost bracketed collection ends with the token at hand. */
    method CloseCollection(ghost inner: State, e: Event)
      requires InCollection(inner)
      requires || (e.SequenceEnd? && (inner.BlockSequenceEntry? || inner.FlowSequenceEntry?))
               || (e.MappingEnd? && (inner.BlockMappingKey? || inner.FlowMappingKey?))
      requires pos < |tokens| && TokenContent(tokens[pos]) == [] && !tokens[pos].kind.StreamEndToken?
      modifies this`state, this`states, this`marks, this`event, this`z, this`brackets, this`pos, this`streamEndProduced
      ensures Valid() && event == e && CanFeed(old(z), e) && z == Feed(old(z), e) && pos == old(pos) + 1
      ensures state == old(Last(states)) && states == old(Init(states))
    {
      hide NoStreamEnd, Fits, Feed, Emitted, At, ValidZipper, BracketMarks, TokensContent, EventsContent, CanFeed;
      CloseFits(tokens, pos + 1, inner, states, marks, brackets, z, e);
      PopState();
      marks := marks[..|marks| - 1];
      SkipToken();
      Conclude(e, Init(brackets));
    }

    /** Read an optional anchor and an optional tag, in either order. */
    method ParseProperties() returns (ok: bool, anchor: Option<string>, tag: Option<(string, string)>)
      requires pos < |tokens| && error.None? && NoStreamEnd(tokens[..pos])
      modifies this`pos, this`streamEndProduced, this`error
      ensures ok == error.None? && if ok then pos < |tokens| else pos == |tokens|
      ensures Properties(anchor, tag, pos) == ReadProperties(tokens, old(pos))
      ensures Read() == old(Read()) + AnchorOf(anchor)
      ensures NoStreamEnd(tokens[..pos])
      ensures pos == old(pos) ==> streamEndProduced == old(streamEndProduced)
      ensures pos > old(pos) ==> !streamEndProduced
    {
      hide TokensContent, NoStreamEnd;
      ok, anchor, tag := true, None, None;
      if tokens[pos].kind.AnchorToken? {
        anchor := Some(tokens[pos].kind.name);
        SkipToken();
        var token := PeekToken();
        if token.None? { return false, anchor, tag; }
        if token.value.kind.TagToken? {
          tag := Some((token.value.kind.tagHandle, token.value.kind.suffix));
          SkipToken();
          token := PeekToken();
          ok := token.Some?;
        }
      } else if tokens[pos].kind.TagToken? {
        tag := Some((tokens[pos].kind.tagHandle, tokens[pos].kind.suffix));
        SkipToken();
        var token := PeekToken();
        if token.None? { return false, anchor, tag; }
        if token.value.kind.AnchorToken? {
          anchor := Some(token.value.kind.name);
          SkipToken();
          token := PeekToken();
          ok := token.Some?;
        }
      }
    }

    method FindTag(handle: string, suffix: string) returns (tag: string)
      ensures tag == ResolveTag(tagDirectives, handle, suffix)
    {
      if handle == "" { return suffix; }
      tag := "";
      for i := 0 to |tagDirectives|
        invariant ResolveTag(tagDirectives, handle, suffix) == ResolveTag(tagDirectives[i..], handle, suffix)
      {
        assert tagDirectives[i..][1..] == tagDirectives[i + 1..];
        if tagDirectives[i].handle == handle {
          return tagDirectives[i].prefix + suffix;
        }
      }
    }

    /** A collection starts; its opening token, if it has one, is left for the next step. */
    method OpenCollection(next: State, e: Event)
      requires Sane() && NodeDue(tokens, states, marks, brackets, z) && pos < |tokens|
      requires !streamEndProduced && NoStreamEnd(tokens[..pos])
      requires || (next.IndentlessSequenceEntry? && e.SequenceStart?)
               || (IsFirst(next) && OpenedBy(next, tokens[pos].kind)
                   && if next.BlockSequenceFirstEntry? || next.FlowSequenceFirstEntry? then e.SequenceStart? else e.MappingStart?)
      requires Read() == Told() + EventContent(e)
      modifies this`state, this`event, this`z, this`brackets
      ensures Valid() && event == e && CanFeed(old(z), e) && z == Feed(old(z), e) && state == next
    {
      hide NoStreamEnd, Fits, Feed, Emitted, At, ValidZipper, BracketMarks, TokensContent, EventsContent, CanFeed,
           NodeDue, EventContent;
      OpenFits(tokens, pos, next, states, marks, brackets, z, e);
      state := next;
      Conclude(e, brackets + [if IsFirst(next) then Some(pos) else None]);
    }

    method ParseNode(block: bool, indentless: bool) returns (ok: bool)
      requires DueNode()
      modifies this
      ensures Stepped(ok)
      ensures Did(ok, NodeStep(tokens, old(Cfg()), block, indentless))
    {
      hide NoStreamEnd, Fits, Feed, Emitted, At, ValidZipper, BracketMarks, TokensContent, EventsContent, CanFeed,
           NodeDue, Valid, NodeContentStep, ReadProperties;
      var token := PeekToken();
      if token.None? { return false; }
      if token.value.kind.AliasToken? {
        ParseAlias(token.value.kind.name);
        return true;
      }
      var anchor, tag;
      ok, anchor, tag := ParseTagged();
      if !ok { return; }
      ok := ParseContent(block, indentless, token.value.start, anchor, tag);
    }

    method ParseAlias(name: string)
      requires DueNode() && pos < |tokens| && tokens[pos].kind == AliasToken(name)
      modifies this`state, this`states, this`event, this`z, this`brackets, this`pos, this`streamEndProduced
      ensures Stepped(true) && event == AliasEvent(name) && Cfg() == Pop(old(Cfg()), old(pos) + 1)
    {
      hide NoStreamEnd, Fits, Feed, Emitted, At, ValidZipper, BracketMarks, TokensContent, EventsContent, CanFeed, NodeDue;
      assert states != [] by { DueIsInside(); }
      SkipToken();
      ProcessLeaf(AliasEvent(name));
    }

    lemma DueIsInside()
      requires DueNode()
      ensures states != []
    {
      hide NoStreamEnd, Emitted, At, ValidZipper, BracketMarks, TokensContent, EventsContent;
    }

    /** Anchor and tag in front of a node, the tag resolved. */
    method ParseTagged() returns (ok: bool, anchor: Option<string>, tag: string)
      requires pos < |tokens| && error.None? && !streamEndProduced && NoStreamEnd(tokens[..pos])
      modifies this`pos, this`streamEndProduced, this`error
      ensures var p := ReadProperties(tokens, old(pos));
        && (ok <==> p.next < |tokens| && !(p.tag.Some? && p.tag.value.0 != "" && TagText(p.tag, tagDirectives) == ""))
        && (ok ==> anchor == p.anchor && tag == TagText(p.tag, tagDirectives) && pos == p.next)
      ensures old(pos) <= pos && (if ok then error.None? else error.Some?)
      ensures ok ==> Read() == old(Read()) + AnchorOf(anchor) && !streamEndProduced && NoStreamEnd(tokens[..pos])
    {
      hide TokensContent, NoStreamEnd;
      var startMark, start := tokens[pos].start, pos;
      var tagToken;
      tag := "";
      ok, anchor, tagToken := ParseProperties();
      if !ok { return; }
      if tagToken.Some? {
        tag := FindTag(tagToken.value.0, tagToken.value.1);
        if tagToken.value.0 != "" && tag == "" {
          var tagAt := if tokens[start].kind.TagToken? then start else start + 1;
          ok := Fail("found undefined tag handle", Some(startMark), tokens[tagAt].start);
        }
      }
    }

    /** What follows the properties of a node. */
    method ParseContent(block: bool, indentless: bool, startMark: Mark, anchor: Option<string>, tag: string) returns (ok: bool)
      requires Sane() && NodeDue(tokens, states, marks, brackets, z) && pos < |tokens|
      requires !streamEndProduced && NoStreamEnd(tokens[..pos])
      requires Read() == Told() + AnchorOf(anchor)
      modifies this
      ensures Stepped(ok)
      ensures Did(ok, NodeContentStep(tokens, old(Cfg()), block, indentless, anchor, tag))
    {
      hide NoStreamEnd, Fits, Feed, Emitted, At, ValidZipper, BracketMarks, TokensContent, EventsContent, CanFeed,
           NodeDue;
      var k := tokens[pos].kind;
      if Opens(k, block, indentless) {
        ok := ParseCollectionStart(block, indentless, anchor, tag);
        return;
      }
      if k.ScalarToken? {
        var plainImplicit, quotedImplicit := false, false;
        if (tag == "" && k.plain) || tag == "!" {
          plainImplicit := true;
        } else if tag == "" {
          quotedImplicit := true;
        }
        SkipToken();
        ProcessLeaf(ScalarEvent(anchor, tag, k.value, plainImplicit, quotedImplicit));
        return true;
      }
      if (anchor.Some? && anchor.value != "") || tag != "" {
        ProcessLeaf(ScalarEvent(anchor, tag, "", tag == "", false));
        return true;
      }
      ok := Fail("did not find expected node content", Some(startMark), tokens[pos].start);
    }

    /** The start event of a collection; every branch leaves the deciding token in place. */
    method ParseCollectionStart(block: bool, indentless: bool, anchor: Option<string>, tag: string) returns (ok: bool)
      requires Sane() && NodeDue(tokens, states, marks, brackets, z) && pos < |tokens|
      requires !streamEndProduced && NoStreamEnd(tokens[..pos])
      requires Read() == Told() + AnchorOf(anchor)
      requires Opens(tokens[pos].kind, block, indentless)
      modifies this`state, this`event, this`z, this`brackets
      ensures ok && Stepped(ok)
      ensures Did(ok, NodeContentStep(tokens, old(Cfg()), block, indentless, anchor, tag))
    {
      hide NoStreamEnd, Fits, Feed, Emitted, At, ValidZipper, BracketMarks, TokensContent, EventsContent, CanFeed,
           NodeDue;
      var k := tokens[pos].kind;
      if indentless && k.BlockEntryToken? {
        OpenCollection(IndentlessSequenceEntry, SequenceStart(anchor, tag, false));
        return true;
      }
      if k.FlowSequenceStartToken? {
        OpenCollection(FlowSequenceFirstEntry, SequenceStart(anchor, tag, true));
        return true;
      }
      if k.FlowMappingStartToken? {
        OpenCollection(FlowMappingFirstKey, MappingStart(anchor, tag, true));
        return true;
      }
      if block && k.BlockSequenceStartToken? {
        OpenCollection(BlockSequenceFirstEntry, SequenceStart(anchor, tag, false));
        return true;
      }
      OpenCollection(BlockMappingFirstKey, MappingStart(anchor, tag, false));
      ok := true;
    }

    /** Between the tokens of a collection. */
    lemma Inside()
      requires Valid() && IsCollection(state) && !IsFirst(state)
      ensures InCollection(state) && pos <= |tokens|
      ensures state.BlockSequenceEntry? || state.BlockMappingKey? || state.FlowSequenceEntry? || state.FlowMappingKey? ==> marks != []
    {
      hide NoStreamEnd, Feed, Emitted, At, ValidZipper, BracketMarks, TokensContent, EventsContent, CanFeed, Fits;
      Working(tokens, pos, state, states, marks, brackets, z);
    }

    lemma Bounded(inner: State)
      requires InCollection(inner)
      ensures pos <= |tokens|
    {
      hide NoStreamEnd, At, ValidZipper, BracketMarks, TokensContent, EventsContent;
    }

    /** A token without content, in the middle of a collection. */
    method SkipInside(ghost inner: State)
      requires InCollection(inner) && pos < |tokens|
      requires TokenContent(tokens[pos]) == [] && !tokens[pos].kind.StreamEndToken?
      modifies this`pos, this`streamEndProduced
      ensures InCollection(inner) && pos == old(pos) + 1 <= |tokens|
    {
      hide NoStreamEnd, Feed, Emitted, At, ValidZipper, BracketMarks, TokensContent, EventsContent, CanFeed;
      SkipToken();
    }

    /** A child of the collection in state `inner` is due; `next` takes over when it is complete. */
    method PushState(ghost inner: State, next: State)
      requires InCollection(inner) && Follows(inner, next)
      modifies this`states
      ensures DueNode() && states == old(states) + [next]
    {
      hide NoStreamEnd, Fits, Feed, Emitted, At, ValidZipper, BracketMarks, TokensContent, EventsContent, CanFeed,
           NodeDue;
      ChildDue(tokens, inner, next, states, marks, brackets, z);
      states := states + [next];
    }

    /** A child of the collection in state `inner` is missing; `next` takes over. */
    method EmptyChild(ghost inner: State, next: State) returns (ok: bool)
      requires InCollection(inner) && Follows(inner, next)
      modifies this`state, this`event, this`z, this`brackets
      ensures ok && Valid() && state == next && event == ScalarEvent(None, "", "", true, false)
      ensures CanFeed(old(z), event) && z == Feed(old(z), event)
    {
      hide NoStreamEnd, Fits, Feed, Emitted, At, ValidZipper, BracketMarks, TokensContent, EventsContent, CanFeed,
           NodeDue;
      ChildDue(tokens, inner, next, states, marks, brackets, z);
      state := next;
      ok := ProcessEmptyScalar();
    }

    /** A child, or an empty scalar in its place; `next` takes over afterwards. */
    method ParseChild(ghost inner: State, next: State, present: bool, block: bool, indentless: bool) returns (ok: bool)
      requires InCollection(inner) && Follows(inner, next)
      modifies this
      ensures Stepped(ok)
      ensures Did(ok, if present then NodeStep(tokens, Push(old(Cfg()), old(pos), next), block, indentless)
                      else Missing(old(Cfg()), old(pos), next))
    {
      hide NoStreamEnd, Fits, Feed, Emitted, At, ValidZipper, BracketMarks, TokensContent, EventsContent, CanFeed,
           NodeDue, NodeStep;
      if present {
        PushState(inner, next);
        ok := ParseNode(block, indentless);
      } else {
        ok := EmptyChild(inner, next);
      }
    }

    method ParseBlockSequenceEntry(first: bool) returns (ok: bool)
      requires Valid() && state == if first then BlockSequenceFirstEntry else BlockSequenceEntry
      modifies this
      ensures Did(ok, BlockSequenceStep(tokens, if first then Advance(old(Cfg())) else old(Cfg())))
      ensures Stepped(ok)
    {
      hide NoStreamEnd, Fits, Feed, Emitted, At, ValidZipper, BracketMarks, TokensContent, EventsContent, CanFeed,
           NodeDue, NodeStep, BlockSequenceStep;
      Working(tokens, pos, state, states, marks, brackets, z);
      if first { EnterCollection(); }
      ok := ParseBlockSequenceEntryRest();
    }

    method ParseBlockSequenceEntryRest() returns (ok: bool)
      requires InCollection(BlockSequenceEntry) && marks != []
      modifies this
      ensures Did(ok, BlockSequenceStep(tokens, old(Cfg())))
      ensures Stepped(ok)
    {
      hide InCollection, Valid, Feed, CanFeed, NodeStep;
      Bounded(BlockSequenceEntry);
      var token := PeekToken();
      if token.None? { return false; }
      if token.value.kind.BlockEntryToken? {
        SkipInside(BlockSequenceEntry);
        token := PeekToken();
        if token.None? { return false; }
        ok := ParseChild(BlockSequenceEntry, BlockSequenceEntry,
                         !token.value.kind.BlockEntryToken? && !token.value.kind.BlockEndToken?, true, false);
        return;
      }
      if token.value.kind.BlockEndToken? {
        CloseCollection(BlockSequenceEntry, SequenceEnd);
        return true;
      }
      ok := FailInCollection("did not find expected '-' indicator", token.value.start);
    }

    method ParseIndentlessSequenceEntry() returns (ok: bool)
      requires Valid() && state.IndentlessSequenceEntry?
      modifies this
      ensures Did(ok, IndentlessSequenceStep(tokens, old(Cfg())))
      ensures Stepped(ok)
    {
      hide InCollection, Valid, Feed, CanFeed, NodeStep;
      Inside();
      var token := PeekToken();
      if token.None? { return false; }
      if token.value.kind.BlockEntryToken? {
        SkipInside(state);
        token := PeekToken();
        if token.None? { return false; }
        var k := token.value.kind;
        ok := ParseChild(IndentlessSequenceEntry, IndentlessSequenceEntry,
                         !k.BlockEntryToken? && !k.KeyToken? && !k.ValueToken? && !k.BlockEndToken?, true, false);
        return;
      }
      LeaveIndentlessSequence();
      ok := true;
    }

    /** An indentless sequence ends where something else begins. */
    method LeaveIndentlessSequence()
      requires InCollection(IndentlessSequenceEntry)
      modifies this`state, this`states, this`event, this`z, this`brackets
      ensures Valid() && event == SequenceEnd && CanFeed(old(z), event) && z == Feed(old(z), event)
      ensures state == old(Last(states)) && states == old(Init(states))
    {
      hide NoStreamEnd, Fits, Feed, Emitted, At, ValidZipper, BracketMarks, TokensContent, EventsContent, CanFeed;
      CloseFits(tokens, pos, IndentlessSequenceEntry, states, marks, brackets, z, SequenceEnd);
      PopState();
      Conclude(SequenceEnd, Init(brackets));
    }

    method ParseBlockMappingKey(first: bool) returns (ok: bool)
      requires Valid() && state == if first then BlockMappingFirstKey else BlockMappingKey
      modifies this
      ensures Did(ok, BlockMappingKeyStep(tokens, if first then Advance(old(Cfg())) else old(Cfg())))
      ensures Stepped(ok)
    {
      hide NoStreamEnd, Fits, Feed, Emitted, At, ValidZipper, BracketMarks, TokensContent, EventsContent, CanFeed,
           NodeDue, NodeStep, BlockMappingKeyStep;
      Working(tokens, pos, state, states, marks, brackets, z);
      if first { EnterCollection(); }
      ok := ParseBlockMappingKeyRest();
    }

    method ParseBlockMappingKeyRest() returns (ok: bool)
      requires InCollection(BlockMappingKey) && marks != []
      modifies this
      ensures Did(ok, BlockMappingKeyStep(tokens, old(Cfg())))
      ensures Stepped(ok)
    {
      hide InCollection, Valid, Feed, CanFeed, NodeStep;
      Bounded(BlockMappingKey);
      var token := PeekToken();
      if token.None? { return false; }
      if token.value.kind.KeyToken? {
        SkipInside(BlockMappingKey);
        token := PeekToken();
        if token.None? { return false; }
        var k := token.value.kind;
        ok := ParseChild(BlockMappingKey, BlockMappingValue, !k.KeyToken? && !k.ValueToken? && !k.BlockEndToken?, true, true);
        return;
      } else if token.value.kind.BlockEndToken? {
        CloseCollection(BlockMappingKey, MappingEnd);
        return true;
      }
      ok := FailInCollection("did not find expected key", token.value.start);
    }

    method ParseBlockMappingValue() returns (ok: bool)
      requires Valid() && state.BlockMappingValue?
      modifies this
      ensures Did(ok, BlockMappingValueStep(tokens, old(Cfg())))
      ensures Stepped(ok)
    {
      hide InCollection, Valid, Feed, CanFeed, NodeStep;
      Inside();
      var token := PeekToken();
      if token.None? { return false; }
      if token.value.kind.ValueToken? {
        SkipInside(state);
        token := PeekToken();
        if token.None? { return false; }
        var k := token.value.kind;
        ok := ParseChild(BlockMappingValue, BlockMappingKey, !k.KeyToken? && !k.ValueToken? && !k.BlockEndToken?, true, true);
        return;
      }
      ok := EmptyChild(BlockMappingValue, BlockMappingKey);
    }

    method ParseFlowSequenceEntry(first: bool) returns (ok: bool)
      requires Valid() && state == if first then FlowSequenceFirstEntry else FlowSequenceEntry
      modifies this
      ensures Did(ok, FlowSequenceStep(tokens, if first then Advance(old(Cfg())) else old(Cfg()), first))
      ensures Stepped(ok)
    {
      hide NoStreamEnd, Fits, Feed, Emitted, At, ValidZipper, BracketMarks, TokensContent, EventsContent, CanFeed,
           NodeDue, NodeStep, FlowSequenceStep;
      Working(tokens, pos, state, states, marks, brackets, z);
      if first { EnterCollection(); }
      ok := ParseFlowSequenceEntryRest(first);
    }

    /** The comma in front of an entry other than the first. */
    method SkipComma(ghost inner: State, first: bool, end: TokenKind, problem: string) returns (ok: bool)
      requires InCollection(inner) && marks != []
      modifies this`pos, this`streamEndProduced, this`error, this`marks
      ensures ok == AfterComma(tokens, old(pos), first, end).Some? && old(pos) <= pos
      ensures ok ==> InCollection(inner) && pos == AfterComma(tokens, old(pos), first, end).value && pos < |tokens|
      ensures !ok ==> error.Some?
    {
      hide InCollection, Valid, Feed, CanFeed, NodeStep;
      Bounded(inner);
      var token := PeekToken();
      if token.None? { return false; }
      ok := true;
      if token.value.kind != end && !first {
        if token.value.kind.FlowEntryToken? {
          SkipInside(inner);
          token := PeekToken();
          ok := token.Some?;
        } else {
          ok := FailInCollection(problem, token.value.start);
        }
      }
    }

    method ParseFlowSequenceEntryRest(first: bool) returns (ok: bool)
      requires InCollection(FlowSequenceEntry) && marks != []
      modifies this
      ensures Did(ok, FlowSequenceStep(tokens, old(Cfg()), first))
      ensures Stepped(ok)
    {
      hide InCollection, Valid, Feed, CanFeed, NodeStep, AfterComma;
      Bounded(FlowSequenceEntry);
      ok := SkipComma(FlowSequenceEntry, first, FlowSequenceEndToken, "did not find expected ',' or ']'");
      if !ok { return; }
      if tokens[pos].kind.KeyToken? {
        StartPair();
        return true;
      } else if !tokens[pos].kind.FlowSequenceEndToken? {
        ok := ParseChild(FlowSequenceEntry, FlowSequenceEntry, true, false, false);
        return;
      }
      CloseCollection(FlowSequenceEntry, SequenceEnd);
      ok := true;
    }

    /** A key inside a flow sequence starts a mapping of a single pair. */
    method StartPair()
      requires InCollection(FlowSequenceEntry) && pos < |tokens| && tokens[pos].kind.KeyToken?
      modifies this`state, this`event, this`z, this`brackets, this`pos, this`streamEndProduced
      ensures Valid() && event == MappingStart(None, "", true) && CanFeed(old(z), event) && z == Feed(old(z), event)
      ensures state == FlowSequenceEntryMappingKey && pos == old(pos) + 1
    {
      hide NoStreamEnd, Fits, Feed, Emitted, At, ValidZipper, BracketMarks, TokensContent, EventsContent, CanFeed,
           NodeDue, NodeStep;
      var e := MappingStart(None, "", true);
      PairFits(tokens, pos + 1, states, marks, brackets, z, e);
      state := FlowSequenceEntryMappingKey;
      SkipToken();
      Conclude(e, brackets + [None]);
    }

    method ParseFlowSequenceEntryMappingKey() returns (ok: bool)
      requires Valid() && state.FlowSequenceEntryMappingKey?
      modifies this
      ensures Did(ok, PairKeyStep(tokens, old(Cfg())))
      ensures Stepped(ok)
    {
      hide InCollection, Valid, Feed, CanFeed, NodeStep;
      Inside();
      var token := PeekToken();
      if token.None? { return false; }
      var k := token.value.kind;
      if !k.ValueToken? && !EndsFlowPair(k) {
        ok := ParseChild(FlowSequenceEntryMappingKey, FlowSequenceEntryMappingValue, true, false, false);
        return;
      }
      SkipInside(state);
      ok := ParseChild(FlowSequenceEntryMappingKey, FlowSequenceEntryMappingValue, false, false, false);
    }

    method ParseFlowSequenceEntryMappingValue() returns (ok: bool)
      requires Valid() && state.FlowSequenceEntryMappingValue?
      modifies this
      ensures Did(ok, PairValueStep(tokens, old(Cfg())))
      ensures Stepped(ok)
    {
      hide InCollection, Valid, Feed, CanFeed, NodeStep;
      Inside();
      var token := PeekToken();
      if token.None? { return false; }
      if token.value.kind.ValueToken? {
        SkipInside(state);
        token := PeekToken();
        if token.None? { return false; }
        ok := ParseChild(FlowSequenceEntryMappingValue, FlowSequenceEntryMappingEnd, !EndsFlowPair(token.value.kind), false, false);
        return;
      }
      ok := ParseChild(FlowSequenceEntryMappingValue, FlowSequenceEntryMappingEnd, false, false, false);
    }

    method ParseFlowSequenceEntryMappingEnd() returns (ok: bool)
      requires Valid() && state.FlowSequenceEntryMappingEnd?
      modifies this
      ensures Did(ok, if old(pos) < |tokens| then Emits(MappingEnd, old(Cfg()).(state := FlowSequenceEntry)) else Error)
      ensures Stepped(ok)
    {
      hide NoStreamEnd, Fits, Feed, Emitted, At, ValidZipper, BracketMarks, TokensContent, EventsContent, CanFeed,
           NodeDue, NodeStep;
      Working(tokens, pos, state, states, marks, brackets, z);
      var token := PeekToken();
      if token.None? { return false; }
      EndPairFits(tokens, pos, states, marks, brackets, z);
      state := FlowSequenceEntry;
      Conclude(MappingEnd, Init(brackets));
      ok := true;
    }

    method ParseFlowMappingKey(first: bool) returns (ok: bool)
      requires Valid() && state == if first then FlowMappingFirstKey else FlowMappingKey
      modifies this
      ensures Did(ok, FlowMappingKeyStep(tokens, if first then Advance(old(Cfg())) else old(Cfg()), first))
      ensures Stepped(ok)
    {
      hide NoStreamEnd, Fits, Feed, Emitted, At, ValidZipper, BracketMarks, TokensContent, EventsContent, CanFeed,
           NodeDue, NodeStep, FlowMappingKeyStep;
      Working(tokens, pos, state, states, marks, brackets, z);
      if first { EnterCollection(); }
      ok := ParseFlowMappingKeyRest(first);
    }

    /** A key token and what follows it. */
    method ParseFlowMappingKeyPart() returns (ok: bool)
      requires InCollection(FlowMappingKey) && pos < |tokens| && tokens[pos].kind.KeyToken?
      modifies this
      ensures Stepped(ok)
      ensures pos >= old(pos) + 1
      ensures Kind(tokens, old(pos) + 1).None? ==> !ok
      ensures Kind(tokens, old(pos) + 1).Some?
              ==> var k := Kind(tokens, old(pos) + 1).value;
                  Did(ok, if k.ValueToken? || EndsFlowMappingPart(k) then Missing(old(Cfg()), old(pos) + 1, FlowMappingValue)
                          else NodeStep(tokens, Push(old(Cfg()), old(pos) + 1, FlowMappingValue), false, false))
    {
      hide InCollection, Valid, Feed, CanFeed, NodeStep;
      Bounded(FlowMappingKey);
      SkipInside(FlowMappingKey);
      var token := PeekToken();
      if token.None? { return false; }
      var k := token.value.kind;
      ok := ParseChild(FlowMappingKey, FlowMappingValue, !k.ValueToken? && !EndsFlowMappingPart(k), false, false);
    }

    method ParseFlowMappingKeyRest(first: bool) returns (ok: bool)
      requires InCollection(FlowMappingKey) && marks != []
      modifies this
      ensures Did(ok, FlowMappingKeyStep(tokens, old(Cfg()), first))
      ensures Stepped(ok)
    {
      hide InCollection, Valid, Feed, CanFeed, NodeStep, AfterComma;
      Bounded(FlowMappingKey);
      ok := SkipComma(FlowMappingKey, first, FlowMappingEndToken, "did not find expected ',' or '}'");
      if !ok { return; }
      if tokens[pos].kind.KeyToken? {
        ok := ParseFlowMappingKeyPart();
        return;
      } else if !tokens[pos].kind.FlowMappingEndToken? {
        ok := ParseChild(FlowMappingKey, FlowMappingEmptyValue, true, false, false);
        return;
      }
      CloseCollection(FlowMappingKey, MappingEnd);
      ok := true;
    }

    method ParseFlowMappingValue(empty: bool) returns (ok: bool)
      requires Valid() && state == if empty then FlowMappingEmptyValue else FlowMappingValue
      modifies this
      ensures Did(ok, Step(tokens, old(Cfg())))
      ensures Stepped(ok)
    {
      hide InCollection, Valid, Feed, CanFeed, NodeStep;
      Inside();
      var token := PeekToken();
      if token.None? { return false; }
      if empty {
        ok := ParseChild(FlowMappingEmptyValue, FlowMappingKey, false, false, false);
        return;
      }
      if token.value.kind.ValueToken? {
        SkipInside(state);
        token := PeekToken();
        if token.None? { return false; }
        ok := ParseChild(FlowMappingValue, FlowMappingKey, !EndsFlowMappingPart(token.value.kind), false, false);
        return;
      }
      ok := ParseChild(FlowMappingValue, FlowMappingKey, false, false, false);
    }

    // -------------------------------------------------------------- documents

    method ParseStreamStart() returns (ok: bool)
      requires Valid() && state.StreamStartState?
      modifies this
      ensures Did(ok, StreamStartStep(tokens, old(Cfg())))
      ensures Stepped(ok)
    {
      hide NoStreamEnd, Fits, Feed, Emitted, At, ValidZipper, BracketMarks, TokensContent, EventsContent, CanFeed,
           NodeDue, NodeStep;
      Phases(tokens, pos, state, states, marks, brackets, z);
      var token := PeekToken();
      if token.None? { return false; }
      if !token.value.kind.StreamStartToken? {
        ok := Fail("did not find expected <stream-start>", None, token.value.start);
        return;
      }
      StreamFits(tokens, pos + 1, ImplicitDocumentStart, z, StreamStart);
      state := ImplicitDocumentStart;
      event := StreamStart;
      SkipToken();
      Emit(event);
      ok := true;
    }

    method AppendTagDirective(value: TagDirective, allowDuplicates: bool, mark: Mark) returns (ok: bool)
      modifies this`tagDirectives, this`error
      ensures ok == (allowDuplicates || !HasHandle(old(tagDirectives), value.handle))
      ensures tagDirectives == if HasHandle(old(tagDirectives), value.handle) then old(tagDirectives)
                               else old(tagDirectives) + [value]
      ensures if ok then error == old(error) else error.Some?
    {
      for i := 0 to |tagDirectives|
        invariant forall j | 0 <= j < i :: tagDirectives[j].handle != value.handle
        invariant error == old(error) && tagDirectives == old(tagDirectives)
      {
        if value.handle == tagDirectives[i].handle {
          if allowDuplicates { return true; }
          ok := Fail("found duplicate %TAG directive", None, mark);
          return;
        }
      }
      tagDirectives := tagDirectives + [value];
      ok := true;
    }

    method ProcessDirectives() returns (ok: bool, version: Option<(nat, nat)>, declared: seq<TagDirective>)
      requires pos < |tokens| && error.None? && NoStreamEnd(tokens[..pos])
      modifies this`pos, this`streamEndProduced, this`error, this`tagDirectives
      ensures old(pos) <= pos <= |tokens| && NoStreamEnd(tokens[..pos]) && Read() == old(Read())
      ensures streamEndProduced ==> old(streamEndProduced)
      ensures ok == ReadDirectives(tokens, old(pos), old(tagDirectives), None, []).Directives?
      ensures ok ==> error.None? && pos < |tokens|
      ensures ok ==> Directives(pos, version, declared) == ReadDirectives(tokens, old(pos), old(tagDirectives), None, [])
      ensures ok ==> tagDirectives == WithDefaults(old(tagDirectives) + declared)
      ensures !ok ==> error.Some?
    {
      hide TokensContent;
      version, declared := None, [];
      ghost var goal := ReadDirectives(tokens, pos, tagDirectives, None, []);
      while IsDirective(tokens[pos])
        invariant old(pos) <= pos < |tokens| && error.None? && NoStreamEnd(tokens[..pos]) && Read() == old(Read())
        invariant streamEndProduced ==> old(streamEndProduced)
        invariant tagDirectives == old(tagDirectives) + declared
        invariant goal == ReadDirectives(tokens, pos, old(tagDirectives), version, declared)
        decreases |tokens| - pos
      {
        var token := tokens[pos];
        if token.kind.VersionDirectiveToken? {
          if version.Some? {
            ok := Fail("found duplicate %YAML directive", None, token.start);
            return;
          }
          if token.kind.major != 1 || token.kind.minor != 1 {
            ok := Fail("found incompatible YAML document", None, token.start);
            return;
          }
          version := Some((token.kind.major, token.kind.minor));
        } else {
          var value := TagDirective(token.kind.handle, token.kind.prefix);
          ok := AppendTagDirective(value, false, token.start);
          if !ok { return; }
          declared := declared + [value];
        }
        SkipToken();
        var next := PeekToken();
        if next.None? { return false, version, declared; }
      }
      ok := AppendTagDirective(BangDirective, true, tokens[pos].start);
      ok := AppendTagDirective(DoubleBangDirective, true, tokens[pos].start);
    }

    /** Extra document end indicators between documents. */
    method SkipDocumentEndTokens() returns (ok: bool)
      requires Sane() && !streamEndProduced && NoStreamEnd(tokens[..pos])
      modifies this`pos, this`streamEndProduced, this`error
      ensures pos == SkipDocumentEnds(tokens, old(pos)) && old(pos) <= pos <= |tokens|
      ensures ok == (pos < |tokens|) && (if ok then error.None? else error.Some?)
      ensures !streamEndProduced && NoStreamEnd(tokens[..pos]) && Read() == old(Read())
    {
      hide TokensContent, ValidZipper;
      var token := PeekToken();
      while token.Some? && token.value.kind.DocumentEndToken?
        invariant old(pos) <= pos <= |tokens|
        invariant if pos < |tokens| then token == Some(tokens[pos]) && error.None? else token.None? && error.Some?
        invariant !streamEndProduced && NoStreamEnd(tokens[..pos]) && Read() == old(Read())
        invariant SkipDocumentEnds(tokens, old(pos)) == SkipDocumentEnds(tokens, pos)
        decreases |tokens| - pos
      {
        SkipToken();
        token := PeekToken();
      }
      ok := token.Some?;
    }

    method ParseDocumentStart(implicit: bool) returns (ok: bool)
      requires Valid() && state == if implicit then ImplicitDocumentStart else DocumentStartState
      modifies this
      ensures Did(ok, DocumentStartStep(tokens, old(Cfg()), implicit))
      ensures Stepped(ok)
    {
      hide NoStreamEnd, Fits, Feed, Emitted, At, ValidZipper, BracketMarks, TokensContent, EventsContent, CanFeed,
           NodeDue, NodeStep, ExplicitDocumentStep;
      Phases(tokens, pos, state, states, marks, brackets, z);
      var token := PeekToken();
      if token.None? { return false; }
      if !implicit {
        ok := SkipDocumentEndTokens();
        if !ok { return; }
      }
      ok := true;
      if implicit && !StartsExplicitly(tokens[pos].kind) {
        StartImplicitDocument();
      } else if tokens[pos].kind.StreamEndToken? {
        EndStream();
      } else {
        ok := ParseExplicitDocument();
      }
    }

    method StartImplicitDocument()
      requires Sane() && z.Between? && states == [] && marks == [] && brackets == []
      requires Read() == Told() && !streamEndProduced && NoStreamEnd(tokens[..pos])
      requires pos < |tokens| && !StartsExplicitly(tokens[pos].kind)
      modifies this
      ensures Valid() && event == DocumentStart(None, []) && CanFeed(old(z), event) && z == Feed(old(z), event)
      ensures Cfg() == Config(old(pos), BlockNode, [DocumentEndState], WithDefaults(old(tagDirectives)))
    {
      hide NoStreamEnd, Fits, Feed, Emitted, At, ValidZipper, BracketMarks, TokensContent, EventsContent, CanFeed,
           NodeDue, NodeStep;
      var _, _, declared := ProcessDirectives();
      assert old(tagDirectives) + [] == old(tagDirectives);
      StartDocument(BlockNode, DocumentStart(None, []));
    }

    method EndStream()
      requires Sane() && z.Between? && states == [] && marks == [] && brackets == [] && tagDirectives == []
      requires Read() == Told() && !streamEndProduced && NoStreamEnd(tokens[..pos])
      requires pos < |tokens| && tokens[pos].kind.StreamEndToken?
      modifies this`state, this`event, this`z, this`pos, this`streamEndProduced
      ensures Valid() && event == StreamEnd && CanFeed(old(z), event) && z == Feed(old(z), event)
      ensures state == EndState && pos == old(pos) + 1
    {
      hide NoStreamEnd, Fits, Feed, Emitted, At, ValidZipper, BracketMarks, TokensContent, EventsContent, CanFeed,
           NodeDue, NodeStep;
      StreamFits(tokens, pos + 1, EndState, z, StreamEnd);
      state := EndState;
      event := StreamEnd;
      assert tokens[..pos + 1][..pos] == tokens[..pos];
      SkipToken();
      Emit(event);
    }

    /** The root of a new document is due. */
    method StartDocument(next: State, e: Event)
      requires Sane() && z.Between? && states == [] && marks == [] && brackets == []
      requires Read() == Told() && !streamEndProduced && NoStreamEnd(tokens[..pos])
      requires e.DocumentStart? && (next.BlockNode? || next.DocumentContent?)
      modifies this`state, this`states, this`event, this`z, this`brackets
      ensures Valid() && event == e && CanFeed(old(z), e) && z == Feed(old(z), e)
      ensures state == next && states == [DocumentEndState]
    {
      hide NoStreamEnd, Fits, Feed, Emitted, At, ValidZipper, BracketMarks, TokensContent, EventsContent, CanFeed,
           NodeDue, NodeStep;
      RootDue(tokens, pos, next, z, e);
      states := states + [DocumentEndState];
      assert states == [DocumentEndState];
      state := next;
      Conclude(e, []);
    }

    method ParseExplicitDocument() returns (ok: bool)
      requires Sane() && z.Between? && states == [] && marks == [] && brackets == []
      requires Read() == Told() && !streamEndProduced && NoStreamEnd(tokens[..pos])
      requires pos < |tokens| && tagDirectives == []
      modifies this
      ensures Did(ok, ExplicitDocumentStep(tokens, old(Cfg())))
      ensures Stepped(ok)
    {
      hide Fits, Feed, Emitted, At, ValidZipper, BracketMarks, TokensContent, EventsContent, CanFeed, NodeDue, NodeStep;
      var version, declared;
      ok, version, declared := ProcessDirectives();
      if !ok { return; }
      var token := PeekToken();
      if !token.value.kind.DocumentStartToken? {
        ok := Fail("did not find expected <document start>", None, token.value.start);
        return;
      }
      assert [] + declared == declared;
      SkipToken();
      StartDocument(DocumentContent, DocumentStart(version, declared));
    }

    method ParseDocumentContent() returns (ok: bool)
      requires Valid() && state.DocumentContent?
      modifies this
      ensures Did(ok, DocumentContentStep(tokens, old(Cfg())))
      ensures Stepped(ok)
    {
      hide NoStreamEnd, Fits, Feed, Emitted, At, ValidZipper, BracketMarks, TokensContent, EventsContent, CanFeed,
           NodeDue, NodeStep;
      Phases(tokens, pos, state, states, marks, brackets, z);
      var token := PeekToken();
      if token.None? { return false; }
      if StartsExplicitly(token.value.kind) || token.value.kind.DocumentEndToken? {
        ProcessLeaf(EmptyScalar);
        return true;
      }
      ok := ParseNode(true, false);
    }

    method ParseDocumentEnd() returns (ok: bool)
      requires Valid() && state.DocumentEndState?
      modifies this
      ensures Did(ok, DocumentEndStep(tokens, old(Cfg())))
      ensures Stepped(ok)
    {
      hide NoStreamEnd, Fits, Feed, Emitted, At, ValidZipper, BracketMarks, TokensContent, EventsContent, CanFeed,
           NodeDue, NodeStep;
      Phases(tokens, pos, state, states, marks, brackets, z);
      var token := PeekToken();
      if token.None? { return false; }
      var implicit := true;
      if token.value.kind.DocumentEndToken? {
        SkipToken();
        implicit := false;
      }
      tagDirectives := [];
      event := DocumentEnd(implicit);
      StreamFits(tokens, pos, DocumentStartState, z, event);
      state := DocumentStartState;
      Emit(event);
      ok := true;
    }

    /** State dispatcher. */
    method StateMachine() returns (ok: bool)
      requires Valid() && !state.EndState?
      modifies this
      ensures Did(ok, Step(tokens, old(Cfg())))
      ensures Stepped(ok)
    {
      hide NoStreamEnd, Fits, Feed, Emitted, At, ValidZipper, BracketMarks, TokensContent, EventsContent, CanFeed,
           NodeDue, NodeStep, BlockSequenceStep, IndentlessSequenceStep, BlockMappingKeyStep, BlockMappingValueStep,
           FlowSequenceStep,
        PairKeyStep, PairValueStep, FlowMappingKeyStep, FlowMappingValueStep, DocumentStartStep, DocumentContentStep,
        DocumentEndStep, StreamStartStep;
      match state
      case StreamStartState => ok := ParseStreamStart();
      case ImplicitDocumentStart => ok := ParseDocumentStart(true);
      case DocumentStartState => ok := ParseDocumentStart(false);
      case DocumentContent => ok := ParseDocumentContent();
      case DocumentEndState => ok := ParseDocumentEnd();
      case BlockNode => Phases(tokens, pos, state, states, marks, brackets, z); ok := ParseNode(true, false);
      case BlockNodeOrIndentlessSequence => Phases(tokens, pos, state, states, marks, brackets, z); ok := ParseNode(true, true);
      case FlowNode => Phases(tokens, pos, state, states, marks, brackets, z); ok := ParseNode(false, false);
      case BlockSequenceFirstEntry => ok := ParseBlockSequenceEntry(true);
      case BlockSequenceEntry => ok := ParseBlockSequenceEntry(false);
      case IndentlessSequenceEntry => ok := ParseIndentlessSequenceEntry();
      case BlockMappingFirstKey => ok := ParseBlockMappingKey(true);
      case BlockMappingKey => ok := ParseBlockMappingKey(false);
      case BlockMappingValue => ok := ParseBlockMappingValue();
      case FlowSequenceFirstEntry => ok := ParseFlowSequenceEntry(true);
      case FlowSequenceEntry => ok := ParseFlowSequenceEntry(false);
      case FlowSequenceEntryMappingKey => ok := ParseFlowSequenceEntryMappingKey();
      case FlowSequenceEntryMappingValue => ok := ParseFlowSequenceEntryMappingValue();
      case FlowSequenceEntryMappingEnd => ok := ParseFlowSequenceEntryMappingEnd();
      case FlowMappingFirstKey => ok := ParseFlowMappingKey(true);
      case FlowMappingKey => ok := ParseFlowMappingKey(false);
      case FlowMappingValue => ok := ParseFlowMappingValue(false);
      case FlowMappingEmptyValue => ok := ParseFlowMappingValue(true);
    }

    /** The next event; after the end of the stream or an error there is none. */
    method Parse() returns (ok: bool)
      requires Valid() || error.Some?
      modifies this
      ensures old(error.Some?) || old(state.EndState?) ==>
                ok && event == NoEvent && z == old(z) && Cfg() == old(Cfg()) && error == old(error)
      ensures old(error.None?) && !old(state.EndState?) ==> Stepped(ok) && Did(ok, Step(tokens, old(Cfg())))
      ensures old(error.None?) && !old(state.EndState?) && ok ==>
                pos > old(pos) || Height(Cfg()) < old(Height(Cfg()))
    {
      event := NoEvent;
      if error.None? {
        EndPhase(tokens, pos, state, states, marks, brackets, z);
      }
      if streamEndProduced || error.Some? || state.EndState? {
        hide *;
        return true;
      }
      hide NoStreamEnd, Fits, Feed, Emitted, At, ValidZipper, BracketMarks, TokensContent, EventsContent, CanFeed,
           NodeDue, NodeStep, Step;
      StepDescends(tokens, Cfg(), marks, brackets, z);
      ok := StateMachine();
    }

    /** Repeated calls of `Parse`, as the tree builder makes them.  Every event
        delivered so far belongs to some stream; without an error the events form a
        complete stream that tells exactly what the tokens said. */
    method Run() returns (events: seq<Event>, ok: bool)
      requires Valid() && z.Unstarted? && pos == 0
      modifies this
      ensures IsPrefixOfStream(events)
      ensures ok ==> IsStream(events) && 0 < pos <= |tokens| && EventsContent(events) == TokensContent(tokens[..pos])
      ensures ok ==> tokens[pos - 1].kind.StreamEndToken? && NoStreamEnd(tokens[..pos - 1])
      ensures !ok ==> error.Some?
      // the events are those of the parser's steps, up to the end or to the step that failed
      ensures ok ==> G.Runs(tokens, old(Cfg()), events, Cfg()) && state.EndState?
      ensures !ok ==> exists c :: G.Runs(tokens, old(Cfg()), events, c) && !c.state.EndState? && Step(tokens, c).Error?
    {
      events, ok := [], true;
      while !state.EndState?
        invariant ok && Valid() && events == Emitted(z)
        invariant G.Runs(tokens, old(Cfg()), events, Cfg())
        decreases |tokens| - pos, Height(Cfg())
      {
        ghost var c := Cfg();
        hide NoStreamEnd, Fits, Feed, Emitted, At, ValidZipper, BracketMarks, TokensContent, EventsContent, CanFeed,
             NodeDue, NodeStep, Step, Height;
        EmittedIsPrefix(z);
        FeedsEmit(z);
        ok := Parse();
        if !ok { return; }
        G.RunsThenStep(tokens, old(Cfg()), events, c);
        events := events + [event];
      }
      hide NoStreamEnd, Fits, Feed, Emitted, At, ValidZipper, BracketMarks, TokensContent, EventsContent, CanFeed,
           NodeDue, NodeStep;
      EndPhase(tokens, pos, state, states, marks, brackets, z);
      EmittedIsPrefix(z);
    }
  }
}
