/** Tokens of the YAML scanner, the parser's states, and what each state means
    for the collections that are open. */
module YamlTokens {
  import opened YamlEvents

  datatype Mark = Mark(index: nat, line: nat, column: nat)

  datatype TokenKind =
    | StreamStartToken
    | StreamEndToken
    | VersionDirectiveToken(major: nat, minor: nat)
    | TagDirectiveToken(handle: string, prefix: string)
    | DocumentStartToken
    | DocumentEndToken
    | BlockSequenceStartToken
    | BlockMappingStartToken
    | BlockEndToken
    | FlowSequenceStartToken
    | FlowSequenceEndToken
    | FlowMappingStartToken
    | FlowMappingEndToken
    | BlockEntryToken
    | FlowEntryToken
    | KeyToken
    | ValueToken
    | AliasToken(name: string)
    | AnchorToken(name: string)
    | TagToken(tagHandle: string, suffix: string)
    | ScalarToken(value: string, plain: bool)

  datatype Token = Token(kind: TokenKind, start: Mark, end: Mark)

  datatype State =
    | StreamStartState
    | ImplicitDocumentStart
    | DocumentStartState
    | DocumentContent
    | DocumentEndState
    | BlockNode
    | BlockNodeOrIndentlessSequence
    | FlowNode
    | BlockSequenceFirstEntry
    | BlockSequenceEntry
    | IndentlessSequenceEntry
    | BlockMappingFirstKey
    | BlockMappingKey
    | BlockMappingValue
    | FlowSequenceFirstEntry
    | FlowSequenceEntry
    | FlowSequenceEntryMappingKey
    | FlowSequenceEntryMappingValue
    | FlowSequenceEntryMappingEnd
    | FlowMappingFirstKey
    | FlowMappingKey
    | FlowMappingValue
    | FlowMappingEmptyValue
    | EndState

  /** States entered right after a collection's start event, before its opening
      token has been consumed. */
  predicate IsFirst(s: State) {
    s.BlockSequenceFirstEntry? || s.BlockMappingFirstKey? || s.FlowSequenceFirstEntry? || s.FlowMappingFirstKey?
  }

  predicate ExpectsNode(s: State) {
    s.DocumentContent? || s.BlockNode? || s.BlockNodeOrIndentlessSequence? || s.FlowNode?
  }

  /** The token that opens the bracketed collection a state works on. */
  predicate OpenedBy(s: State, k: TokenKind) {
    match s
    case BlockSequenceFirstEntry => k.BlockSequenceStartToken?
    case BlockSequenceEntry => k.BlockSequenceStartToken?
    case BlockMappingFirstKey => k.BlockMappingStartToken?
    case BlockMappingKey => k.BlockMappingStartToken?
    case BlockMappingValue => k.BlockMappingStartToken?
    case FlowSequenceFirstEntry => k.FlowSequenceStartToken?
    case FlowSequenceEntry => k.FlowSequenceStartToken?
    case FlowMappingFirstKey => k.FlowMappingStartToken?
    case FlowMappingKey => k.FlowMappingStartToken?
    case FlowMappingValue => k.FlowMappingStartToken?
    case FlowMappingEmptyValue => k.FlowMappingStartToken?
    case _ => false
  }

  /** Position of the opening token of each open collection; None for the two
      kinds that have none: indentless sequences and single-pair flow mappings. */
  type Brackets = seq<Option<nat>>

  /** The innermost open collection belongs to state `s`, opened by token `b`. */
  ghost predicate Bracketed(tokens: seq<Token>, s: State, b: Option<nat>) {
    b.Some? && b.value < |tokens| && OpenedBy(s, tokens[b.value].kind)
  }

  /** State `s`, with return states `ss`, suits the open collections `fs`, once
      `extra` further children have been added to the innermost one. */
  ghost predicate At(tokens: seq<Token>, s: State, ss: seq<State>, fs: seq<Frame>, bs: Brackets, extra: nat)
    requires |fs| == |bs|
    decreases |ss|
  {
    if s.DocumentEndState? then
      ss == [] && fs == [] && extra == 1
    else
      && fs != [] && ss != []
      && var top, kids := Last(fs).start, |Last(fs).items| + extra;
         // the collection outside the innermost one waits for it as its next child
         var outside := At(tokens, Last(ss), Init(ss), Init(fs), Init(bs), 1);
         // a single-pair mapping: the flow sequence around it has no return state of its own
         var inPair :=
           && Last(bs).None?
           && |fs| > 1
           && Last(Init(fs)).start.SequenceStart?
           && Bracketed(tokens, FlowSequenceEntry, Last(Init(bs)))
           && At(tokens, Last(ss), Init(ss), Init(Init(fs)), Init(Init(bs)), 1);
         match s
         case BlockSequenceFirstEntry =>
           top.SequenceStart? && kids == 0 && Bracketed(tokens, s, Last(bs)) && outside
         case BlockSequenceEntry =>
           top.SequenceStart? && Bracketed(tokens, s, Last(bs)) && outside
         case IndentlessSequenceEntry =>
           top.SequenceStart? && Last(bs).None? && outside
         case FlowSequenceFirstEntry =>
           top.SequenceStart? && kids == 0 && Bracketed(tokens, s, Last(bs)) && outside
         case FlowSequenceEntry =>
           top.SequenceStart? && Bracketed(tokens, s, Last(bs)) && outside
         case BlockMappingFirstKey =>
           top.MappingStart? && kids == 0 && Bracketed(tokens, s, Last(bs)) && outside
         case BlockMappingKey =>
           top.MappingStart? && kids % 2 == 0 && Bracketed(tokens, s, Last(bs)) && outside
         case BlockMappingValue =>
           top.MappingStart? && kids % 2 == 1 && Bracketed(tokens, s, Last(bs)) && outside
         case FlowMappingFirstKey =>
           top.MappingStart? && kids == 0 && Bracketed(tokens, s, Last(bs)) && outside
         case FlowMappingKey =>
           top.MappingStart? && kids % 2 == 0 && Bracketed(tokens, s, Last(bs)) && outside
         case FlowMappingValue =>
           top.MappingStart? && kids % 2 == 1 && Bracketed(tokens, s, Last(bs)) && outside
         case FlowMappingEmptyValue =>
           top.MappingStart? && kids % 2 == 1 && Bracketed(tokens, s, Last(bs)) && outside
         case FlowSequenceEntryMappingKey =>
           top.MappingStart? && kids == 0 && inPair
         case FlowSequenceEntryMappingValue =>
           top.MappingStart? && kids == 1 && inPair
         case FlowSequenceEntryMappingEnd =>
           top.MappingStart? && kids == 2 && inPair
         case _ => false
  }

  /** A node is due; when it is complete the top of the stack takes over. */
  ghost predicate Pending(tokens: seq<Token>, ss: seq<State>, fs: seq<Frame>, bs: Brackets)
    requires |fs| == |bs|
  {
    ss != [] && At(tokens, Last(ss), Init(ss), fs, bs, 1)
  }

  /** Adding the awaited child wakes the return state. */
  lemma PendingFilled(tokens: seq<Token>, ss: seq<State>, fs: seq<Frame>, bs: Brackets, t: Tree)
    requires |fs| == |bs| && fs != [] && Pending(tokens, ss, fs, bs)
    ensures At(tokens, Last(ss), Init(ss), AddItem(fs, t), bs, 0)
  {
    assert Init(AddItem(fs, t)) == Init(fs);
  }

  // ------------------------------------------------------------------ marks

  /** Start marks of the opening tokens of the bracketed collections, outermost first. */
  ghost function BracketMarks(tokens: seq<Token>, bs: Brackets): seq<Mark> {
    if bs == [] then []
    else
      var b := Last(bs);
      BracketMarks(tokens, Init(bs)) + (if b.Some? && b.value < |tokens| then [tokens[b.value].start] else [])
  }

  // --------------------------------------------------------- what tokens say

  /** The content a token or an event carries: anchors, aliases, non-empty scalars. */
  datatype Content = AnchorContent(name: string) | AliasContent(name: string) | ScalarContent(value: string)

  function TokenContent(t: Token): seq<Content> {
    match t.kind
    case AliasToken(n) => [AliasContent(n)]
    case AnchorToken(n) => [AnchorContent(n)]
    case ScalarToken(v, _) => if v == "" then [] else [ScalarContent(v)]
    case _ => []
  }

  function AnchorOf(a: Option<string>): seq<Content> {
    if a.Some? then [AnchorContent(a.value)] else []
  }

  function EventContent(e: Event): seq<Content> {
    match e
    case AliasEvent(n) => [AliasContent(n)]
    case ScalarEvent(a, _, v, _, _) => AnchorOf(a) + (if v == "" then [] else [ScalarContent(v)])
    case SequenceStart(a, _, _) => AnchorOf(a)
    case MappingStart(a, _, _) => AnchorOf(a)
    case _ => []
  }

  function TokensContent(ts: seq<Token>): seq<Content> {
    if ts == [] then [] else TokensContent(Init(ts)) + TokenContent(Last(ts))
  }

  function EventsContent(es: seq<Event>): seq<Content> {
    if es == [] then [] else EventsContent(Init(es)) + EventContent(Last(es))
  }

  /** The anchor and tag tokens in front of a node, in either order. */
  datatype Properties = Properties(anchor: Option<string>, tag: Option<(string, string)>, next: nat)

  function ReadProperties(tokens: seq<Token>, pos: nat): (p: Properties)
    requires pos <= |tokens|
    ensures pos <= p.next <= |tokens|
  {
    if pos == |tokens| then Properties(None, None, pos)
    else
      match tokens[pos].kind
      case AnchorToken(a) =>
        if pos + 1 < |tokens| && tokens[pos + 1].kind.TagToken? then
          Properties(Some(a), Some((tokens[pos + 1].kind.tagHandle, tokens[pos + 1].kind.suffix)), pos + 2)
        else Properties(Some(a), None, pos + 1)
      case TagToken(h, s) =>
        if pos + 1 < |tokens| && tokens[pos + 1].kind.AnchorToken? then
          Properties(Some(tokens[pos + 1].kind.name), Some((h, s)), pos + 2)
        else Properties(None, Some((h, s)), pos + 1)
      case _ => Properties(None, None, pos)
  }

  /** Properties consume anchor and tag tokens only, and report the anchor. */
  lemma PropertiesContent(tokens: seq<Token>, pos: nat)
    requires pos <= |tokens|
    ensures var p := ReadProperties(tokens, pos);
            && TokensContent(tokens[..p.next]) == TokensContent(tokens[..pos]) + AnchorOf(p.anchor)
            && (forall i | pos <= i < p.next :: tokens[i].kind.AnchorToken? || tokens[i].kind.TagToken?)
  {
    hide TokensContent;
    var p := ReadProperties(tokens, pos);
    if p.next > pos {
      ContentStep(tokens, pos);
      if p.next == pos + 2 {
        ContentStep(tokens, pos + 1);
      }
    }
  }

  lemma ContentStep(tokens: seq<Token>, pos: nat)
    ensures pos < |tokens| ==> TokensContent(tokens[..pos + 1]) == TokensContent(tokens[..pos]) + TokenContent(tokens[pos])
  {
    if pos < |tokens| {
      assert Init(tokens[..pos + 1]) == tokens[..pos];
    }
  }

  lemma EventsStep(es: seq<Event>, e: Event)
    ensures EventsContent(es + [e]) == EventsContent(es) + EventContent(e)
  {
    assert Init(es + [e]) == es;
  }

  /** The full tag: the suffix alone, or the prefix declared for the handle followed by the suffix. */
  function ResolveTag(directives: seq<TagDirective>, handle: string, suffix: string): (r: string) {
    if handle == "" then suffix
    else if directives == [] then ""
    else if directives[0].handle == handle then directives[0].prefix + suffix
    else ResolveTag(directives[1..], handle, suffix)
  }

  // ------------------------------------------------------------ termination

  /** Rank of a state among those that can follow each other without a token being consumed. */
  function Rank(s: State): nat {
    match s
    case ImplicitDocumentStart => 100
    case FlowSequenceEntryMappingKey => 20
    case DocumentContent => 2
    case DocumentEndState => 1
    case BlockNode => 1
    case BlockNodeOrIndentlessSequence => 1
    case FlowNode => 1
    case BlockMappingValue => 1
    case FlowSequenceEntryMappingValue => 2
    case FlowSequenceEntryMappingEnd => 1
    case FlowMappingValue => 1
    case FlowMappingEmptyValue => 1
    case _ => 0
  }
}
