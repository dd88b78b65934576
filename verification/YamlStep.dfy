/** One step of the YAML parser as a function of its control state: which token
    decides, which event is emitted, which states take over.  The class in
    `YamlParser` is proved to do exactly this; `YamlGrammar` states what it means. */
module YamlStep {
  import opened YamlEvents
  import opened YamlTokens

  const BangDirective := TagDirective("!", "!")
  const DoubleBangDirective := TagDirective("!!", "tag:yaml.org,2002:")

  datatype Config = Config(pos: nat, state: State, states: seq<State>, tags: seq<TagDirective>)

  datatype Outcome = Error | Emits(event: Event, next: Config)

  const EmptyScalar := ScalarEvent(None, "", "", true, false)

  function Pop(c: Config, pos: nat): Config {
    if c.states == [] then c.(pos := pos) else Config(pos, Last(c.states), Init(c.states), c.tags)
  }

  function Push(c: Config, pos: nat, s: State): Config {
    c.(pos := pos, states := c.states + [s])
  }

  function Kind(tokens: seq<Token>, pos: nat): Option<TokenKind> {
    if pos < |tokens| then Some(tokens[pos].kind) else None
  }

  // ------------------------------------------------------------------ nodes

  function TagText(tag: Option<(string, string)>, ds: seq<TagDirective>): string {
    if tag.Some? then ResolveTag(ds, tag.value.0, tag.value.1) else ""
  }

  function NodeState(k: TokenKind): State {
    match k
    case FlowSequenceStartToken => FlowSequenceFirstEntry
    case FlowMappingStartToken => FlowMappingFirstKey
    case BlockSequenceStartToken => BlockSequenceFirstEntry
    case BlockMappingStartToken => BlockMappingFirstKey
    case _ => IndentlessSequenceEntry
  }

  /** Does `k` open a collection at this place? */
  predicate Opens(k: TokenKind, block: bool, indentless: bool) {
    || k.FlowSequenceStartToken? || k.FlowMappingStartToken?
    || (block && (k.BlockSequenceStartToken? || k.BlockMappingStartToken?))
    || (indentless && k.BlockEntryToken?)
  }

  function NodeContentStep(tokens: seq<Token>, c: Config, block: bool, indentless: bool, anchor: Option<string>, tag: string): Outcome
    requires c.pos < |tokens|
  {
    var k := tokens[c.pos].kind;
    if Opens(k, block, indentless) then
      var flow := k.FlowSequenceStartToken? || k.FlowMappingStartToken?;
      Emits(if k.FlowMappingStartToken? || k.BlockMappingStartToken? then MappingStart(anchor, tag, flow)
            else SequenceStart(anchor, tag, flow),
            c.(state := NodeState(k)))
    else if k.ScalarToken? then
      var plain := (tag == "" && k.plain) || tag == "!";
      Emits(ScalarEvent(anchor, tag, k.value, plain, !plain && tag == ""), Pop(c, c.pos + 1))
    else if tag != "" || (anchor.Some? && anchor.value != "") then
      Emits(ScalarEvent(anchor, tag, "", tag == "", false), Pop(c, c.pos))
    else
      Error
  }

  function NodeStep(tokens: seq<Token>, c: Config, block: bool, indentless: bool): Outcome {
    if c.pos >= |tokens| then Error
    else if tokens[c.pos].kind.AliasToken? then Emits(AliasEvent(tokens[c.pos].kind.name), Pop(c, c.pos + 1))
    else
      var p := ReadProperties(tokens, c.pos);
      var tag := TagText(p.tag, c.tags);
      if p.next == |tokens| || (p.tag.Some? && p.tag.value.0 != "" && tag == "") then Error
      else NodeContentStep(tokens, c.(pos := p.next), block, indentless, p.anchor, tag)
  }

  // ------------------------------------------------------------ collections

  /** A missing child: an empty scalar, and `next` takes over at `pos`. */
  function Missing(c: Config, pos: nat, next: State): Outcome {
    Emits(EmptyScalar, c.(pos := pos, state := next))
  }

  function BlockSequenceStep(tokens: seq<Token>, c: Config): Outcome {
    match Kind(tokens, c.pos)
    case Some(BlockEntryToken) =>
      (match Kind(tokens, c.pos + 1)
       case None => Error
       case Some(k) =>
         if k.BlockEntryToken? || k.BlockEndToken? then Missing(c, c.pos + 1, BlockSequenceEntry)
         else NodeStep(tokens, Push(c, c.pos + 1, BlockSequenceEntry), true, false))
    case Some(BlockEndToken) => Emits(SequenceEnd, Pop(c, c.pos + 1))
    case _ => Error
  }

  predicate EndsIndentlessEntry(k: TokenKind) {
    k.BlockEntryToken? || k.KeyToken? || k.ValueToken? || k.BlockEndToken?
  }

  function IndentlessSequenceStep(tokens: seq<Token>, c: Config): Outcome {
    match Kind(tokens, c.pos)
    case Some(BlockEntryToken) =>
      (match Kind(tokens, c.pos + 1)
       case None => Error
       case Some(k) =>
         if EndsIndentlessEntry(k) then Missing(c, c.pos + 1, IndentlessSequenceEntry)
         else NodeStep(tokens, Push(c, c.pos + 1, IndentlessSequenceEntry), true, false))
    case Some(_) => Emits(SequenceEnd, Pop(c, c.pos))
    case None => Error
  }

  predicate EndsBlockMappingPart(k: TokenKind) {
    k.KeyToken? || k.ValueToken? || k.BlockEndToken?
  }

  function BlockMappingKeyStep(tokens: seq<Token>, c: Config): Outcome {
    match Kind(tokens, c.pos)
    case Some(KeyToken) =>
      (match Kind(tokens, c.pos + 1)
       case None => Error
       case Some(k) =>
         if EndsBlockMappingPart(k) then Missing(c, c.pos + 1, BlockMappingValue)
         else NodeStep(tokens, Push(c, c.pos + 1, BlockMappingValue), true, true))
    case Some(BlockEndToken) => Emits(MappingEnd, Pop(c, c.pos + 1))
    case _ => Error
  }

  function BlockMappingValueStep(tokens: seq<Token>, c: Config): Outcome {
    match Kind(tokens, c.pos)
    case Some(ValueToken) =>
      (match Kind(tokens, c.pos + 1)
       case None => Error
       case Some(k) =>
         if EndsBlockMappingPart(k) then Missing(c, c.pos + 1, BlockMappingKey)
         else NodeStep(tokens, Push(c, c.pos + 1, BlockMappingKey), true, true))
    case Some(_) => Missing(c, c.pos, BlockMappingKey)
    case None => Error
  }

  /** Inside a flow collection: an entry must be preceded by a comma unless it is the first. */
  function AfterComma(tokens: seq<Token>, pos: nat, first: bool, end: TokenKind): Option<nat> {
    match Kind(tokens, pos)
    case None => None
    case Some(k) =>
      if k == end || first then Some(pos)
      else if k.FlowEntryToken? && pos + 1 < |tokens| then Some(pos + 1)
      else None
  }

  function FlowSequenceStep(tokens: seq<Token>, c: Config, first: bool): Outcome {
    match AfterComma(tokens, c.pos, first, FlowSequenceEndToken)
    case None => Error
    case Some(pos) =>
      match Kind(tokens, pos)
      case None => Error
      case Some(KeyToken) => Emits(MappingStart(None, "", true), c.(pos := pos + 1, state := FlowSequenceEntryMappingKey))
      case Some(FlowSequenceEndToken) => Emits(SequenceEnd, Pop(c, pos + 1))
      case Some(_) => NodeStep(tokens, Push(c, pos, FlowSequenceEntry), false, false)
  }

  predicate EndsFlowPair(k: TokenKind) {
    k.FlowEntryToken? || k.FlowSequenceEndToken?
  }

  function PairKeyStep(tokens: seq<Token>, c: Config): Outcome {
    match Kind(tokens, c.pos)
    case None => Error
    case Some(k) =>
      if k.ValueToken? || EndsFlowPair(k) then Missing(c, c.pos + 1, FlowSequenceEntryMappingValue)
      else NodeStep(tokens, Push(c, c.pos, FlowSequenceEntryMappingValue), false, false)
  }

  function PairValueStep(tokens: seq<Token>, c: Config): Outcome {
    match Kind(tokens, c.pos)
    case None => Error
    case Some(ValueToken) =>
      (match Kind(tokens, c.pos + 1)
       case None => Error
       case Some(k) =>
         if EndsFlowPair(k) then Missing(c, c.pos + 1, FlowSequenceEntryMappingEnd)
         else NodeStep(tokens, Push(c, c.pos + 1, FlowSequenceEntryMappingEnd), false, false))
    case Some(_) => Missing(c, c.pos, FlowSequenceEntryMappingEnd)
  }

  predicate EndsFlowMappingPart(k: TokenKind) {
    k.FlowEntryToken? || k.FlowMappingEndToken?
  }

  function FlowMappingKeyStep(tokens: seq<Token>, c: Config, first: bool): Outcome {
    match AfterComma(tokens, c.pos, first, FlowMappingEndToken)
    case None => Error
    case Some(pos) =>
      match Kind(tokens, pos)
      case None => Error
      case Some(KeyToken) =>
        (match Kind(tokens, pos + 1)
         case None => Error
         case Some(k) =>
           if k.ValueToken? || EndsFlowMappingPart(k) then Missing(c, pos + 1, FlowMappingValue)
           else NodeStep(tokens, Push(c, pos + 1, FlowMappingValue), false, false))
      case Some(FlowMappingEndToken) => Emits(MappingEnd, Pop(c, pos + 1))
      case Some(_) => NodeStep(tokens, Push(c, pos, FlowMappingEmptyValue), false, false)
  }

  function FlowMappingValueStep(tokens: seq<Token>, c: Config): Outcome {
    match Kind(tokens, c.pos)
    case None => Error
    case Some(ValueToken) =>
      (match Kind(tokens, c.pos + 1)
       case None => Error
       case Some(k) =>
         if EndsFlowMappingPart(k) then Missing(c, c.pos + 1, FlowMappingKey)
         else NodeStep(tokens, Push(c, c.pos + 1, FlowMappingKey), false, false))
    case Some(_) => Missing(c, c.pos, FlowMappingKey)
  }

  // -------------------------------------------------------------- documents

  predicate HasHandle(ds: seq<TagDirective>, handle: string) {
    exists i | 0 <= i < |ds| :: ds[i].handle == handle
  }

  function WithDefaults(ds: seq<TagDirective>): seq<TagDirective> {
    var bang := if HasHandle(ds, BangDirective.handle) then ds else ds + [BangDirective];
    if HasHandle(bang, DoubleBangDirective.handle) then bang else bang + [DoubleBangDirective]
  }

  /** The first directive with the handle decides. */
  lemma {:induction false} Resolves(ds: seq<TagDirective>, i: nat, suffix: string)
    requires i < |ds| && ds[i].handle != "" && forall j | 0 <= j < i :: ds[j].handle != ds[i].handle
    ensures ResolveTag(ds, ds[i].handle, suffix) == ds[i].prefix + suffix
    decreases i
  {
    if i > 0 {
      assert ds[1..][i - 1] == ds[i];
      assert forall j | 0 <= j < i - 1 :: ds[1..][j] == ds[j + 1];
      Resolves(ds[1..], i - 1, suffix);
    }
  }

  /** `!` and `!!` stand for themselves and for the tags of YAML, unless a document declares them itself;
      so `!!str` is a string. */
  lemma {:induction false} StandardTags(ds: seq<TagDirective>, suffix: string)
    ensures !HasHandle(ds, "!!") ==> ResolveTag(WithDefaults(ds), "!!", suffix) == "tag:yaml.org,2002:" + suffix
    ensures !HasHandle(ds, "!") ==> ResolveTag(WithDefaults(ds), "!", suffix) == "!" + suffix
    ensures ResolveTag(WithDefaults([]), "!!", "str") == "tag:yaml.org,2002:str"
  {
    StandardTag(ds, suffix);
    StandardTag([], "str");
    assert "tag:yaml.org,2002:" + "str" == "tag:yaml.org,2002:str";
  }

  lemma {:induction false} StandardTag(ds: seq<TagDirective>, suffix: string)
    ensures !HasHandle(ds, "!!") ==> ResolveTag(WithDefaults(ds), "!!", suffix) == "tag:yaml.org,2002:" + suffix
    ensures !HasHandle(ds, "!") ==> ResolveTag(WithDefaults(ds), "!", suffix) == "!" + suffix
  {
    hide ResolveTag;
    var all := WithDefaults(ds);
    if !HasHandle(ds, "!") {
      assert all[|ds|] == TagDirective("!", "!");
      Resolves(all, |ds|, suffix);
    }
    if !HasHandle(ds, "!!") {
      assert all[|all| - 1] == TagDirective("!!", "tag:yaml.org,2002:");
      Resolves(all, |all| - 1, suffix);
    }
  }

  datatype Directives = BadDirectives | Directives(next: nat, version: Option<(nat, nat)>, declared: seq<TagDirective>)

  /** The directives in front of a document: at most one %YAML 1.1, distinct %TAG handles. */
  function ReadDirectives(tokens: seq<Token>, pos: nat, existing: seq<TagDirective>,
                          version: Option<(nat, nat)>, declared: seq<TagDirective>): (d: Directives)
    ensures d.Directives? ==> pos <= d.next < |tokens|
    decreases |tokens| - pos
  {
    if pos >= |tokens| then BadDirectives
    else
      match tokens[pos].kind
      case VersionDirectiveToken(major, minor) =>
        if version.Some? || major != 1 || minor != 1 then BadDirectives
        else ReadDirectives(tokens, pos + 1, existing, Some((major, minor)), declared)
      case TagDirectiveToken(handle, prefix) =>
        if HasHandle(existing + declared, handle) then BadDirectives
        else ReadDirectives(tokens, pos + 1, existing, version, declared + [TagDirective(handle, prefix)])
      case _ => Directives(pos, version, declared)
  }

  function SkipDocumentEnds(tokens: seq<Token>, pos: nat): (r: nat)
    ensures pos <= r
    decreases |tokens| - pos
  {
    if pos < |tokens| && tokens[pos].kind.DocumentEndToken? then SkipDocumentEnds(tokens, pos + 1) else pos
  }

  predicate StartsExplicitly(k: TokenKind) {
    k.VersionDirectiveToken? || k.TagDirectiveToken? || k.DocumentStartToken? || k.StreamEndToken?
  }

  function ExplicitDocumentStep(tokens: seq<Token>, c: Config): Outcome {
    match ReadDirectives(tokens, c.pos, c.tags, None, [])
    case BadDirectives => Error
    case Directives(next, version, declared) =>
      if !tokens[next].kind.DocumentStartToken? then Error
      else Emits(DocumentStart(version, declared),
                 Config(next + 1, DocumentContent, c.states + [DocumentEndState], WithDefaults(c.tags + declared)))
  }

  function DocumentStartStep(tokens: seq<Token>, c: Config, implicit: bool): Outcome {
    var pos := if implicit then c.pos else SkipDocumentEnds(tokens, c.pos);
    match Kind(tokens, pos)
    case None => Error
    case Some(k) =>
      if implicit && !StartsExplicitly(k) then
        Emits(DocumentStart(None, []), Config(pos, BlockNode, c.states + [DocumentEndState], WithDefaults(c.tags)))
      else if k.StreamEndToken? then
        Emits(StreamEnd, c.(pos := pos + 1, state := EndState))
      else
        ExplicitDocumentStep(tokens, c.(pos := pos))
  }

  function DocumentContentStep(tokens: seq<Token>, c: Config): Outcome {
    match Kind(tokens, c.pos)
    case None => Error
    case Some(k) =>
      if StartsExplicitly(k) || k.DocumentEndToken? then Emits(EmptyScalar, Pop(c, c.pos))
      else NodeStep(tokens, c, true, false)
  }

  function DocumentEndStep(tokens: seq<Token>, c: Config): Outcome {
    match Kind(tokens, c.pos)
    case None => Error
    case Some(k) =>
      var explicit := k.DocumentEndToken?;
      Emits(DocumentEnd(!explicit), Config(if explicit then c.pos + 1 else c.pos, DocumentStartState, c.states, []))
  }

  function StreamStartStep(tokens: seq<Token>, c: Config): Outcome {
    match Kind(tokens, c.pos)
    case Some(StreamStartToken) => Emits(StreamStart, c.(pos := c.pos + 1, state := ImplicitDocumentStart))
    case _ => Error
  }

  function Advance(c: Config): Config {
    c.(pos := c.pos + 1)
  }

  function Step(tokens: seq<Token>, c: Config): Outcome {
    match c.state
    case StreamStartState => StreamStartStep(tokens, c)
    case ImplicitDocumentStart => DocumentStartStep(tokens, c, true)
    case DocumentStartState => DocumentStartStep(tokens, c, false)
    case DocumentContent => DocumentContentStep(tokens, c)
    case DocumentEndState => DocumentEndStep(tokens, c)
    case BlockNode => NodeStep(tokens, c, true, false)
    case BlockNodeOrIndentlessSequence => NodeStep(tokens, c, true, true)
    case FlowNode => NodeStep(tokens, c, false, false)
    case BlockSequenceFirstEntry => BlockSequenceStep(tokens, Advance(c))
    case BlockSequenceEntry => BlockSequenceStep(tokens, c)
    case IndentlessSequenceEntry => IndentlessSequenceStep(tokens, c)
    case BlockMappingFirstKey => BlockMappingKeyStep(tokens, Advance(c))
    case BlockMappingKey => BlockMappingKeyStep(tokens, c)
    case BlockMappingValue => BlockMappingValueStep(tokens, c)
    case FlowSequenceFirstEntry => FlowSequenceStep(tokens, Advance(c), true)
    case FlowSequenceEntry => FlowSequenceStep(tokens, c, false)
    case FlowSequenceEntryMappingKey => PairKeyStep(tokens, c)
    case FlowSequenceEntryMappingValue => PairValueStep(tokens, c)
    case FlowSequenceEntryMappingEnd =>
      if c.pos < |tokens| then Emits(MappingEnd, c.(state := FlowSequenceEntry)) else Error
    case FlowMappingFirstKey => FlowMappingKeyStep(tokens, Advance(c), true)
    case FlowMappingKey => FlowMappingKeyStep(tokens, c, false)
    case FlowMappingValue => FlowMappingValueStep(tokens, c)
    case FlowMappingEmptyValue =>
      if c.pos < |tokens| then Missing(c, c.pos, FlowMappingKey) else Error
    case EndState => Emits(NoEvent, c)
  }
}
