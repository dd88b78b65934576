/** The token grammar of YAML streams, as concrete syntax with the tokens that spell
    it and the events that tell it.  Every sentence of the grammar that is `Sound` is
    parsed, and to exactly its events; `YamlKeyless` is about all the others. */
module YamlGrammar {
  import opened YamlEvents
  import opened YamlTokens
  import opened YamlStep

  datatype Style = BlockSeq | Indentless | BlockMap | FlowSeq | FlowMap

  datatype Props = Props(anchor: Option<string>, tag: Option<(string, string)>, anchorFirst: bool)

  /** A node, or the empty place of a node that is left out. */
  datatype Syntax =
    | Absent
    | Alias(name: string)
    | Bare(props: Props)
    | Scalar(props: Props, value: string, plain: bool)
    | Collection(props: Props, style: Style, entries: seq<Entry>, trailing: bool)

  /** One entry: a node, or KEY node? (VALUE node?)?, or VALUE node? without a key. */
  datatype Entry = Entry(keyed: bool, key: Syntax, valued: bool, value: Syntax)

  // --------------------------------------------------------------- spelling

  function SpellProps(p: Props): seq<TokenKind> {
    var a := if p.anchor.Some? then [AnchorToken(p.anchor.value)] else [];
    var t := if p.tag.Some? then [TagToken(p.tag.value.0, p.tag.value.1)] else [];
    if p.anchorFirst then a + t else t + a
  }

  function Opening(s: Style): seq<TokenKind> {
    match s
    case BlockSeq => [BlockSequenceStartToken]
    case Indentless => []
    case BlockMap => [BlockMappingStartToken]
    case FlowSeq => [FlowSequenceStartToken]
    case FlowMap => [FlowMappingStartToken]
  }

  function Closing(s: Style): seq<TokenKind> {
    match s
    case BlockSeq => [BlockEndToken]
    case Indentless => []
    case BlockMap => [BlockEndToken]
    case FlowSeq => [FlowSequenceEndToken]
    case FlowMap => [FlowMappingEndToken]
  }

  function Spell(n: Syntax): seq<TokenKind>
    decreases n, 0
  {
    match n
    case Absent => []
    case Alias(name) => [AliasToken(name)]
    case Bare(p) => SpellProps(p)
    case Scalar(p, v, plain) => SpellProps(p) + [ScalarToken(v, plain)]
    case Collection(p, s, entries, trailing) =>
      SpellProps(p) + (Opening(s) + SpellEntries(s, entries, true) + Tail(s, trailing))
  }

  /** What follows the entries of a collection. */
  function Tail(s: Style, trailing: bool): seq<TokenKind> {
    (if trailing then [FlowEntryToken] else []) + Closing(s)
  }

  function SpellEntries(s: Style, es: seq<Entry>, first: bool): seq<TokenKind>
    decreases es, 3
  {
    if es == [] then [] else SpellEntry(s, es[0], first) + SpellEntries(s, es[1..], false)
  }

  function SpellEntry(s: Style, e: Entry, first: bool): seq<TokenKind>
    decreases e, 2
  {
    match s
    case BlockSeq => [BlockEntryToken] + Spell(e.key)
    case Indentless => [BlockEntryToken] + Spell(e.key)
    case BlockMap => if e.keyed then SpellPair(e) else SpellValue(e)
    case _ => (if first then [] else [FlowEntryToken]) + (if e.keyed then SpellPair(e) else Spell(e.key))
  }

  function SpellPair(e: Entry): seq<TokenKind>
    decreases e, 1
  {
    [KeyToken] + Spell(e.key) + SpellValue(e)
  }

  function SpellValue(e: Entry): seq<TokenKind>
    decreases e, 0
  {
    if e.valued then [ValueToken] + Spell(e.value) else []
  }

  // ---------------------------------------------------------------- telling

  function Tell(n: Syntax, tags: seq<TagDirective>): (r: seq<Event>)
    ensures r != []
    decreases n, 0
  {
    match n
    case Absent => [EmptyScalar]
    case Alias(name) => [AliasEvent(name)]
    case Bare(p) =>
      var tag := TagText(p.tag, tags);
      [ScalarEvent(p.anchor, tag, "", tag == "", false)]
    case Scalar(p, v, plain) =>
      var tag := TagText(p.tag, tags);
      var implicit := (tag == "" && plain) || tag == "!";
      [ScalarEvent(p.anchor, tag, v, implicit, !implicit && tag == "")]
    case Collection(p, s, entries, _) =>
      [StartOf(p, s, tags)] + TellEntries(s, entries, tags) + [EndOf(s)]
  }

  function StartOf(p: Props, s: Style, tags: seq<TagDirective>): Event {
    var tag := TagText(p.tag, tags);
    match s
    case BlockSeq => SequenceStart(p.anchor, tag, false)
    case Indentless => SequenceStart(p.anchor, tag, false)
    case BlockMap => MappingStart(p.anchor, tag, false)
    case FlowSeq => SequenceStart(p.anchor, tag, true)
    case FlowMap => MappingStart(p.anchor, tag, true)
  }

  function EndOf(s: Style): Event {
    if s.BlockMap? || s.FlowMap? then MappingEnd else SequenceEnd
  }

  function TellEntries(s: Style, es: seq<Entry>, tags: seq<TagDirective>): seq<Event>
    decreases es, 2
  {
    if es == [] then [] else TellEntry(s, es[0], tags) + TellEntries(s, es[1..], tags)
  }

  function TellEntry(s: Style, e: Entry, tags: seq<TagDirective>): (r: seq<Event>)
    ensures r != []
    decreases e, 1
  {
    match s
    case BlockSeq => Tell(e.key, tags)
    case Indentless => Tell(e.key, tags)
    case BlockMap => Tell(e.key, tags) + Tell(e.value, tags)
    case FlowMap => Tell(e.key, tags) + Tell(e.value, tags)
    case FlowSeq =>
      if e.keyed then [MappingStart(None, "", true)] + (Tell(e.key, tags) + (Tell(e.value, tags) + [MappingEnd]))
      else Tell(e.key, tags)
  }

  // ------------------------------------------------------------ the grammar

  ghost predicate GoodTag(p: Props, tags: seq<TagDirective>) {
    p.tag.Some? && p.tag.value.0 != "" ==> TagText(p.tag, tags) != ""
  }

  predicate Allowed(s: Style, block: bool, indentless: bool) {
    match s
    case BlockSeq => block
    case BlockMap => block
    case Indentless => indentless
    case _ => true
  }

  ghost predicate Good(n: Syntax, tags: seq<TagDirective>, block: bool, indentless: bool, optional: bool)
    decreases n
  {
    match n
    case Absent => optional
    case Alias(_) => true
    case Bare(p) => GoodTag(p, tags) && (TagText(p.tag, tags) != "" || (p.anchor.Some? && p.anchor.value != ""))
    case Scalar(p, _, _) => GoodTag(p, tags)
    case Collection(p, s, entries, trailing) =>
      && GoodTag(p, tags)
      && Allowed(s, block, indentless)
      && (s.Indentless? ==> entries != [])
      && (trailing ==> (s.FlowSeq? || s.FlowMap?) && entries != [])
      && InOrder(s, entries)
      && forall i | 0 <= i < |entries| :: GoodEntry(s, entries[i], tags)
  }

  /** Sequence entries are nodes; in flow collections an entry may also be a pair, and
      in pairs key and value may be left out, in block mappings also KEY itself. */
  ghost predicate GoodEntry(s: Style, e: Entry, tags: seq<TagDirective>)
    decreases e
  {
    && (!e.valued ==> e.value.Absent?)
    && match s
       case BlockSeq => !e.keyed && !e.valued && Good(e.key, tags, true, false, true)
       case Indentless => !e.keyed && !e.valued && Good(e.key, tags, true, false, true)
       case BlockMap => (!e.keyed ==> e.key.Absent?) && Good(e.key, tags, true, true, true) && Good(e.value, tags, true, true, true)
       case FlowSeq => (!e.keyed ==> !e.valued) && Good(e.key, tags, false, false, e.keyed) && Good(e.value, tags, false, false, true)
       case FlowMap => (!e.keyed ==> !e.valued) && Good(e.key, tags, false, false, e.keyed) && Good(e.value, tags, false, false, true)
  }

  /** In a block mapping a VALUE behind a lone key belongs to that key: it does not start an entry. */
  predicate InOrder(s: Style, es: seq<Entry>) {
    s.BlockMap? ==> forall i | 0 <= i < |es| :: es[i].keyed || (es[i].valued && (i > 0 ==> es[i - 1].valued))
  }

  /** So nothing is lost: a lone key and the VALUE behind it spell the pair they make up. */
  lemma ValueContinues(a: Entry, b: Entry, first: bool, tags: seq<TagDirective>)
    requires GoodEntry(BlockMap, a, tags) && a.keyed && !a.valued
    requires GoodEntry(BlockMap, b, tags) && !b.keyed && b.valued
    ensures var pair := Entry(true, a.key, true, b.value);
            && SpellEntry(BlockMap, a, first) + SpellEntry(BlockMap, b, false) == SpellEntry(BlockMap, pair, first)
            && GoodEntry(BlockMap, pair, tags)
  {
    hide Good, Spell;
    var pair := Entry(true, a.key, true, b.value);
    assert SpellPair(a) == [KeyToken] + Spell(a.key) + SpellValue(a);
    assert SpellValue(a) == [] && SpellValue(pair) == SpellValue(b);
    assert SpellPair(pair) == [KeyToken] + Spell(a.key) + SpellValue(b);
  }

  // --------------------------------------------- the part the parser can take

  /** A single pair of a flow sequence that has KEY but no key node. */
  predicate Keyless(s: Style, e: Entry) {
    s.FlowSeq? && e.keyed && e.key.Absent?
  }

  /** KEY alone. */
  predicate Hollow(s: Style, e: Entry) {
    Keyless(s, e) && !e.valued
  }

  /** Entries of block mappings have KEY; a single pair without a key node has VALUE
      and no value node either, or it is KEY alone, last and followed by a comma. */
  predicate SoundShape(s: Style, e: Entry, closing: bool) {
    && (s.BlockMap? ==> e.keyed)
    && (Keyless(s, e) ==> if e.valued then e.value.Absent? else closing)
  }

  predicate Sound(n: Syntax)
    decreases n, 0
  {
    n.Collection? ==> SoundEntries(n.style, n.entries, n.trailing)
  }

  predicate SoundEntries(s: Style, es: seq<Entry>, trailing: bool)
    decreases es, 2
  {
    es != [] ==> SoundEntry(s, es[0], trailing && |es| == 1) && SoundEntries(s, es[1..], trailing)
  }

  predicate SoundEntry(s: Style, e: Entry, closing: bool)
    decreases e, 1
  {
    SoundShape(s, e, closing) && Sound(e.key) && Sound(e.value)
  }

  // ------------------------------------------------------------------- runs

  /** From configuration `c` the parser emits `es` and arrives at `d`. */
  ghost predicate Runs(tokens: seq<Token>, c: Config, es: seq<Event>, d: Config)
    decreases |es|
  {
    if es == [] then c == d
    else
      var o := Step(tokens, c);
      !c.state.EndState? && o.Emits? && o.event == es[0] && Runs(tokens, o.next, es[1..], d)
  }

  /** The same, for a step whose outcome is already known. */
  ghost predicate Goes(tokens: seq<Token>, o: Outcome, es: seq<Event>, d: Config) {
    es != [] && o.Emits? && o.event == es[0] && Runs(tokens, o.next, es[1..], d)
  }

  lemma {:induction false} RunsThenRuns(tokens: seq<Token>, c: Config, a: seq<Event>, d: Config, b: seq<Event>, e: Config)
    requires Runs(tokens, c, a, d) && Runs(tokens, d, b, e)
    ensures Runs(tokens, c, a + b, e)
    decreases |a|
  {
    hide Step;
    if a == [] {
      assert a + b == b;
    } else {
      RunsThenRuns(tokens, Step(tokens, c).next, a[1..], d, b, e);
      assert (a + b)[1..] == a[1..] + b;
    }
  }

  lemma GoesThenRuns(tokens: seq<Token>, o: Outcome, a: seq<Event>, d: Config, b: seq<Event>, e: Config)
    requires Goes(tokens, o, a, d) && Runs(tokens, d, b, e)
    ensures Goes(tokens, o, a + b, e)
  {
    hide Step;
    RunsThenRuns(tokens, o.next, a[1..], d, b, e);
    assert (a + b)[1..] == a[1..] + b;
  }

  lemma GoesThenGoes(tokens: seq<Token>, o: Outcome, a: seq<Event>, d: Config, b: seq<Event>, e: Config)
    requires Goes(tokens, o, a, d) && !d.state.EndState? && Goes(tokens, Step(tokens, d), b, e)
    ensures Goes(tokens, o, a + b, e)
  {
    GoesThenRuns(tokens, o, a, d, b, e);
  }

  lemma RunsThenStep(tokens: seq<Token>, c: Config, es: seq<Event>, d: Config)
    requires Runs(tokens, c, es, d) && !d.state.EndState? && Step(tokens, d).Emits?
    ensures Runs(tokens, c, es + [Step(tokens, d).event], Step(tokens, d).next)
  {
    hide Step;
    RunsThenRuns(tokens, c, es, d, [Step(tokens, d).event], Step(tokens, d).next);
  }

  lemma {:induction false} RunsDeterministic(tokens: seq<Token>, c: Config, a: seq<Event>, d: Config, b: seq<Event>, e: Config)
    requires Runs(tokens, c, a, d) && Runs(tokens, c, b, e) && e.state.EndState?
    requires d.state.EndState? || Step(tokens, d).Error?
    ensures a == b && d == e
    decreases |a|
  {
    hide Step;
    if a != [] && b != [] {
      RunsDeterministic(tokens, Step(tokens, c).next, a[1..], d, b[1..], e);
      assert a == [a[0]] + a[1..] && b == [b[0]] + b[1..];
    }
  }

  // -------------------------------------------------------- tokens in place

  ghost predicate Lies(tokens: seq<Token>, pos: nat, kinds: seq<TokenKind>) {
    pos + |kinds| <= |tokens| && forall i {:trigger kinds[i]} | 0 <= i < |kinds| :: tokens[pos + i].kind == kinds[i]
  }

  lemma LiesSplit(tokens: seq<Token>, pos: nat, a: seq<TokenKind>, b: seq<TokenKind>)
    requires Lies(tokens, pos, a + b)
    ensures Lies(tokens, pos, a) && Lies(tokens, pos + |a|, b)
  {
    forall i | 0 <= i < |a| ensures tokens[pos + i].kind == a[i] { assert (a + b)[i] == a[i]; }
    forall i | 0 <= i < |b| ensures tokens[pos + |a| + i].kind == b[i] { assert (a + b)[|a| + i] == b[i]; }
  }

  lemma LiesFirst(tokens: seq<Token>, pos: nat, ks: seq<TokenKind>)
    requires Lies(tokens, pos, ks) && ks != []
    ensures pos < |tokens| && tokens[pos].kind == ks[0]
  {
    assert tokens[pos + 0].kind == ks[0];
  }

  predicate StartsNode(k: TokenKind) {
    || k.AliasToken? || k.AnchorToken? || k.TagToken? || k.ScalarToken?
    || k.FlowSequenceStartToken? || k.FlowMappingStartToken? || k.BlockSequenceStartToken? || k.BlockMappingStartToken?
  }

  /** A token that may follow a node. */
  predicate Stops(k: TokenKind, indentless: bool) {
    if indentless then k.KeyToken? || k.ValueToken? || k.BlockEndToken? else !StartsNode(k)
  }

  /** Properties are read back as they were spelled. */
  lemma PropsRead(tokens: seq<Token>, pos: nat, p: Props)
    requires Lies(tokens, pos, SpellProps(p)) && pos + |SpellProps(p)| < |tokens|
    requires !tokens[pos + |SpellProps(p)|].kind.AnchorToken? && !tokens[pos + |SpellProps(p)|].kind.TagToken?
    ensures ReadProperties(tokens, pos) == Properties(p.anchor, p.tag, pos + |SpellProps(p)|)
  {
    var ks := SpellProps(p);
    if |ks| > 0 {
      assert tokens[pos].kind == tokens[pos + 0].kind == ks[0];
      if |ks| > 1 {
        assert tokens[pos + 1].kind == ks[1];
      }
    }
  }

  // ------------------------------------------------------------ completeness

  /** The state a collection is in between its entries. */
  function Home(s: Style): State {
    match s
    case BlockSeq => BlockSequenceEntry
    case Indentless => IndentlessSequenceEntry
    case BlockMap => BlockMappingKey
    case FlowSeq => FlowSequenceEntry
    case FlowMap => FlowMappingKey
  }

  /** The step that starts an entry or closes the collection. */
  function EntryStep(tokens: seq<Token>, s: Style, c: Config, first: bool): Outcome {
    match s
    case BlockSeq => BlockSequenceStep(tokens, c)
    case Indentless => IndentlessSequenceStep(tokens, c)
    case BlockMap => BlockMappingKeyStep(tokens, c)
    case FlowSeq => FlowSequenceStep(tokens, c, first)
    case FlowMap => FlowMappingKeyStep(tokens, c, first)
  }

  /** A token that may follow an entry. */
  predicate EntryStops(s: Style, e: Entry, k: TokenKind) {
    match s
    case BlockSeq => k.BlockEntryToken? || k.BlockEndToken?
    case Indentless => k.BlockEntryToken? || k.KeyToken? || k.ValueToken? || k.BlockEndToken?
    case BlockMap => k.KeyToken? || k.BlockEndToken? || (e.valued && k.ValueToken?)
    case FlowSeq => k.FlowEntryToken? || k.FlowSequenceEndToken?
    case FlowMap => k.FlowEntryToken? || k.FlowMappingEndToken?
  }

  lemma GoesOnce(tokens: seq<Token>, e: Event, d: Config)
    ensures Goes(tokens, Emits(e, d), [e], d)
  {
  }

  /** Properties are taken off the front of a node. */
  lemma PropsStep(tokens: seq<Token>, p: Props, c: Config, block: bool, indentless: bool)
    requires Lies(tokens, c.pos, SpellProps(p)) && c.pos + |SpellProps(p)| < |tokens| && GoodTag(p, c.tags)
    requires var k := tokens[c.pos + |SpellProps(p)|].kind; !k.AnchorToken? && !k.TagToken? && !k.AliasToken?
    ensures NodeStep(tokens, c, block, indentless)
         == NodeContentStep(tokens, c.(pos := c.pos + |SpellProps(p)|), block, indentless, p.anchor, TagText(p.tag, c.tags))
  {
    PropsRead(tokens, c.pos, p);
    if SpellProps(p) != [] {
      assert tokens[c.pos + 0].kind == SpellProps(p)[0];
    }
    hide NodeContentStep, ReadProperties;
  }

  lemma ScalarGoes(tokens: seq<Token>, n: Syntax, c: Config, block: bool, indentless: bool)
    requires n.Scalar? && GoodTag(n.props, c.tags)
    requires Lies(tokens, c.pos, Spell(n)) && c.pos + |Spell(n)| < |tokens| && c.states != []
    ensures NodeStep(tokens, c, block, indentless) == Emits(Tell(n, c.tags)[0], Pop(c, c.pos + |Spell(n)|))
  {
    hide NodeStep, SpellProps, GoodTag;
    LiesSplit(tokens, c.pos, SpellProps(n.props), [ScalarToken(n.value, n.plain)]);
    assert tokens[c.pos + |SpellProps(n.props)| + 0].kind == [ScalarToken(n.value, n.plain)][0];
    PropsStep(tokens, n.props, c, block, indentless);
  }

  /** Nothing that may follow a node can be mistaken for its content. */
  lemma NoContent(tokens: seq<Token>, c: Config, block: bool, indentless: bool, anchor: Option<string>, tag: string)
    requires c.pos < |tokens| && Stops(tokens[c.pos].kind, indentless)
    requires tag != "" || (anchor.Some? && anchor.value != "")
    ensures var k := tokens[c.pos].kind; !k.AnchorToken? && !k.TagToken? && !k.AliasToken?
    ensures NodeContentStep(tokens, c, block, indentless, anchor, tag)
         == Emits(ScalarEvent(anchor, tag, "", tag == "", false), Pop(c, c.pos))
  {
  }

  lemma BareGoes(tokens: seq<Token>, p: Props, c: Config, block: bool, indentless: bool, tag: string)
    requires GoodTag(p, c.tags) && tag == TagText(p.tag, c.tags) && (tag != "" || (p.anchor.Some? && p.anchor.value != ""))
    requires Lies(tokens, c.pos, SpellProps(p)) && c.pos + |SpellProps(p)| < |tokens| && c.states != []
    requires Stops(tokens[c.pos + |SpellProps(p)|].kind, indentless)
    ensures NodeStep(tokens, c, block, indentless)
         == Emits(ScalarEvent(p.anchor, tag, "", tag == "", false), Pop(c, c.pos + |SpellProps(p)|))
  {
    hide NodeStep, NodeContentStep, SpellProps, Stops, Lies, GoodTag, TagText;
    NoContent(tokens, c.(pos := c.pos + |SpellProps(p)|), block, indentless, p.anchor, tag);
    PropsStep(tokens, p, c, block, indentless);
  }

  lemma LeafGoes(tokens: seq<Token>, n: Syntax, c: Config, block: bool, indentless: bool)
    requires n.Alias? || n.Bare? || n.Scalar?
    requires Good(n, c.tags, block, indentless, false)
    requires Lies(tokens, c.pos, Spell(n)) && c.pos + |Spell(n)| < |tokens| && c.states != []
    requires Stops(tokens[c.pos + |Spell(n)|].kind, indentless)
    ensures Goes(tokens, NodeStep(tokens, c, block, indentless), Tell(n, c.tags), Pop(c, c.pos + |Spell(n)|))
  {
    match n
    case Alias(name) =>
      assert tokens[c.pos + 0].kind == Spell(n)[0];
      GoesOnce(tokens, AliasEvent(name), Pop(c, c.pos + 1));
    case Bare(p) =>
      hide NodeStep;
      BareGoes(tokens, p, c, block, indentless, TagText(p.tag, c.tags));
      GoesOnce(tokens, Tell(n, c.tags)[0], Pop(c, c.pos + |Spell(n)|));
    case Scalar(_, _, _) =>
      hide NodeStep;
      ScalarGoes(tokens, n, c, block, indentless);
      GoesOnce(tokens, Tell(n, c.tags)[0], Pop(c, c.pos + |Spell(n)|));
  }

  /** A present node is recognised by its first token. */
  lemma FirstToken(n: Syntax, tags: seq<TagDirective>, block: bool, indentless: bool)
    requires Good(n, tags, block, indentless, true) && !n.Absent?
    ensures Spell(n) != [] && (StartsNode(Spell(n)[0]) || (indentless && Spell(n)[0].BlockEntryToken?))
  {
    match n
    case Alias(_) =>
    case Bare(p) => assert p.anchor.Some? || p.tag.Some?;
    case Scalar(p, _, _) =>
    case Collection(p, s, entries, _) =>
      if s.Indentless? {
        BodyStarts(n);
        CollectionSpelled(n);
      }
  }

  /** The token at the place of a node: its first one, or the one behind the empty place. */
  lemma PlaceToken(tokens: seq<Token>, n: Syntax, pos: nat, tags: seq<TagDirective>, block: bool, indentless: bool)
    requires Good(n, tags, block, indentless, true) && Lies(tokens, pos, Spell(n)) && pos + |Spell(n)| < |tokens|
    ensures n.Absent? ==> pos == pos + |Spell(n)|
    ensures !n.Absent? ==> StartsNode(tokens[pos].kind) || (indentless && tokens[pos].kind.BlockEntryToken?)
  {
    if !n.Absent? {
      FirstToken(n, tags, block, indentless);
      assert tokens[pos + 0].kind == Spell(n)[0];
    }
  }

  /** A child of a collection, or the empty scalar in its place. */
  lemma {:induction false} ChildGoes(tokens: seq<Token>, n: Syntax, d: Config, pos: nat, next: State, block: bool, indentless: bool)
    requires Good(n, d.tags, block, indentless, true) && Sound(n) && (indentless ==> block)
    requires Lies(tokens, pos, Spell(n)) && pos + |Spell(n)| < |tokens|
    requires Stops(tokens[pos + |Spell(n)|].kind, indentless)
    ensures Goes(tokens, if n.Absent? then Missing(d, pos, next) else NodeStep(tokens, Push(d, pos, next), block, indentless),
                 Tell(n, d.tags), Config(pos + |Spell(n)|, next, d.states, d.tags))
    decreases n, 4
  {
    if n.Absent? {
      GoesOnce(tokens, EmptyScalar, d.(pos := pos, state := next));
    } else {
      NodeGoes(tokens, n, Push(d, pos, next), block, indentless);
      assert Init(d.states + [next]) == d.states;
    }
  }

  /** A node that is due in configuration `c` (its return state on top of the stack). */
  lemma {:induction false} NodeGoes(tokens: seq<Token>, n: Syntax, c: Config, block: bool, indentless: bool)
    requires Good(n, c.tags, block, indentless, false) && Sound(n) && (indentless ==> block)
    requires Lies(tokens, c.pos, Spell(n)) && c.pos + |Spell(n)| < |tokens|
    requires Stops(tokens[c.pos + |Spell(n)|].kind, indentless) && c.states != []
    ensures Goes(tokens, NodeStep(tokens, c, block, indentless), Tell(n, c.tags), Pop(c, c.pos + |Spell(n)|))
    decreases n, 3
  {
    if !n.Collection? {
      LeafGoes(tokens, n, c, block, indentless);
    } else {
      CollectionGoes(tokens, n, c, block, indentless);
    }
  }

  lemma {:induction false} CollectionGoes(tokens: seq<Token>, n: Syntax, c: Config, block: bool, indentless: bool)
    requires n.Collection? && Good(n, c.tags, block, indentless, false) && Sound(n) && (indentless ==> block)
    requires Lies(tokens, c.pos, Spell(n)) && c.pos + |Spell(n)| < |tokens|
    requires Stops(tokens[c.pos + |Spell(n)|].kind, indentless) && c.states != []
    ensures Goes(tokens, NodeStep(tokens, c, block, indentless), Tell(n, c.tags), Pop(c, c.pos + |Spell(n)|))
    decreases n, 2
  {
    hide NodeStep, EntryStep, Step, Spell, SpellEntries, Lies, Tell, TellEntries, Goes, Tail, SpellProps, StartOf,
         EndOf, TagText, SoundEntries, InOrder;
    CollectionOpens(tokens, n, c, block, indentless);
    var d := Inside(n, c);
    EntriesGo(tokens, n.style, n.entries, n.trailing, d, true);
    CollectionTold(tokens, n, NodeStep(tokens, c, block, indentless), c.tags, Pop(d, c.pos + |Spell(n)|));
  }

  lemma CollectionTold(tokens: seq<Token>, n: Syntax, o: Outcome, tags: seq<TagDirective>, end: Config)
    requires n.Collection? && o.Emits? && o.event == StartOf(n.props, n.style, tags) && !o.next.state.EndState?
    requires Goes(tokens, Step(tokens, o.next), TellEntries(n.style, n.entries, tags) + [EndOf(n.style)], end)
    ensures Goes(tokens, o, Tell(n, tags), end)
  {
    hide Step;
    var rest := TellEntries(n.style, n.entries, tags) + [EndOf(n.style)];
    assert Tell(n, tags) == [StartOf(n.props, n.style, tags)] + rest;
    GoesOnce(tokens, o.event, o.next);
    GoesThenGoes(tokens, o, [o.event], o.next, rest, end);
  }

  /** The configuration in which the first entry of a collection is read. */
  function Inside(n: Syntax, c: Config): Config
    requires n.Collection?
  {
    c.(pos := c.pos + |SpellProps(n.props)| + |Opening(n.style)|, state := FirstState(n.style))
  }

  function FirstState(s: Style): State {
    match s
    case BlockSeq => BlockSequenceFirstEntry
    case Indentless => IndentlessSequenceEntry
    case BlockMap => BlockMappingFirstKey
    case FlowSeq => FlowSequenceFirstEntry
    case FlowMap => FlowMappingFirstKey
  }

  function Body(n: Syntax): seq<TokenKind>
    requires n.Collection?
  {
    Rest(n.style, n.entries, true, n.trailing)
  }

  /** The entries from some point on, and the end of the collection. */
  function Rest(s: Style, es: seq<Entry>, first: bool, trailing: bool): seq<TokenKind> {
    SpellEntries(s, es, first) + Tail(s, trailing)
  }

  lemma CollectionSpelled(n: Syntax)
    requires n.Collection?
    ensures Spell(n) == SpellProps(n.props) + (Opening(n.style) + Body(n))
  {
  }

  /** The token an entry starts with, if that is fixed by the style. */
  lemma EntryStarts(s: Style, e: Entry, first: bool)
    ensures s.BlockSeq? || s.Indentless? ==> SpellEntry(s, e, first) != [] && SpellEntry(s, e, first)[0] == BlockEntryToken
    ensures s.BlockMap? && (e.keyed || e.valued) ==>
              SpellEntry(s, e, first) != [] && SpellEntry(s, e, first)[0] == if e.keyed then KeyToken else ValueToken
    ensures (s.FlowSeq? || s.FlowMap?) && !first ==>
              SpellEntry(s, e, first) != [] && SpellEntry(s, e, first)[0] == FlowEntryToken
  {
  }

  lemma BodyStarts(n: Syntax)
    requires n.Collection? && n.style.Indentless? && n.entries != []
    ensures Body(n) != [] && Body(n)[0] == BlockEntryToken
  {
    EntryStarts(n.style, n.entries[0], true);
    hide SpellEntry;
  }

  /** The start event of a collection; its entries follow. */
  lemma CollectionOpens(tokens: seq<Token>, n: Syntax, c: Config, block: bool, indentless: bool)
    requires n.Collection? && Good(n, c.tags, block, indentless, false) && (indentless ==> block)
    requires Lies(tokens, c.pos, Spell(n)) && c.pos + |Spell(n)| < |tokens| && c.states != []
    ensures var o := NodeStep(tokens, c, block, indentless);
            && o.Emits? && o.event == StartOf(n.props, n.style, c.tags) && !o.next.state.EndState?
            && Step(tokens, o.next) == EntryStep(tokens, n.style, Inside(n, c), true)
    ensures Lies(tokens, Inside(n, c).pos, Body(n)) && Inside(n, c).pos + |Body(n)| == c.pos + |Spell(n)|
  {
    hide NodeStep, NodeContentStep, SpellProps, SpellEntries, Spell, Step, EntryStep, Body;
    CollectionSpelled(n);
    var ps, body := SpellProps(n.props), Body(n);
    LiesSplit(tokens, c.pos, ps, Opening(n.style) + body);
    LiesSplit(tokens, c.pos + |ps|, Opening(n.style), body);
    if n.style.Indentless? {
      BodyStarts(n);
    }
    assert tokens[c.pos + |ps| + 0].kind == (Opening(n.style) + body)[0];
    PropsStep(tokens, n.props, c, block, indentless);
    OpensCollection(tokens, n, c.(pos := c.pos + |ps|), block, indentless, TagText(n.props.tag, c.tags));
    FirstStep(tokens, n, c);
  }

  lemma OpensCollection(tokens: seq<Token>, n: Syntax, c: Config, block: bool, indentless: bool, tag: string)
    requires n.Collection? && c.pos < |tokens| && Allowed(n.style, block, indentless)
    requires if n.style.Indentless? then tokens[c.pos].kind.BlockEntryToken? else [tokens[c.pos].kind] == Opening(n.style)
    requires tag == TagText(n.props.tag, c.tags)
    ensures NodeContentStep(tokens, c, block, indentless, n.props.anchor, tag)
         == Emits(StartOf(n.props, n.style, c.tags), c.(state := FirstState(n.style)))
  {
  }

  lemma FirstStep(tokens: seq<Token>, n: Syntax, c: Config)
    requires n.Collection?
    ensures var at := c.(pos := c.pos + |SpellProps(n.props)|, state := FirstState(n.style));
            Step(tokens, at) == EntryStep(tokens, n.style, Inside(n, c), true)
  {
    hide BlockSequenceStep, BlockMappingKeyStep, IndentlessSequenceStep, FlowSequenceStep, FlowMappingKeyStep;
  }

  /** The entries from here on, and the end of the collection. */
  lemma {:induction false} EntriesGo(tokens: seq<Token>, s: Style, es: seq<Entry>, trailing: bool, d: Config, first: bool)
    requires (forall i | 0 <= i < |es| :: GoodEntry(s, es[i], d.tags)) && InOrder(s, es) && SoundEntries(s, es, trailing)
    requires trailing ==> (s.FlowSeq? || s.FlowMap?) && (first ==> es != [])
    requires s.Indentless? && first ==> es != []
    requires Lies(tokens, d.pos, Rest(s, es, first, trailing)) && d.states != []
    requires var end := d.pos + |Rest(s, es, first, trailing)|;
             end < |tokens| && (s.Indentless? ==> Stops(tokens[end].kind, true))
    ensures Goes(tokens, EntryStep(tokens, s, d, first), TellEntries(s, es, d.tags) + [EndOf(s)],
                 Pop(d, d.pos + |Rest(s, es, first, trailing)|))
    decreases es, 7
  {
    hide EntryStep, Step, Goes, Lies, TellEntry, SpellEntry, GoodEntry, SpellEntries, Rest, SoundShape, Sound, Hollow, InOrder;
    if es == [] {
      assert Rest(s, es, first, trailing) == Tail(s, trailing) by { NoEntries(s, first, trailing); }
      CollectionCloses(tokens, s, trailing, d, first);
      assert TellEntries(s, es, d.tags) + [EndOf(s)] == [EndOf(s)];
    } else {
      EntriesSplit(tokens, s, es, first, trailing, d.pos);
      var d' := Config(d.pos + |SpellEntry(s, es[0], first)|, Home(s), d.states, d.tags);
      HollowIsLast(s, es, trailing);
      if Hollow(s, es[0]) {
        NoEntries(s, false, trailing);
        LastHollowGoes(tokens, s, es[0], d, first);
        OneTold(s, es, d.tags);
      } else {
        EntryGoes(tokens, s, es[0], d, first);
        LaterInOrder(s, es);
        EntriesGo(tokens, s, es[1..], trailing, d', false);
        HomeStep(tokens, s, d');
        GoesThenGoes(tokens, EntryStep(tokens, s, d, first), TellEntry(s, es[0], d.tags), d',
                     TellEntries(s, es[1..], d.tags) + [EndOf(s)], Pop(d, d.pos + |Rest(s, es, first, trailing)|));
        FirstTold(s, es, d.tags);
      }
    }
  }

  lemma LaterInOrder(s: Style, es: seq<Entry>)
    requires es != [] && InOrder(s, es)
    ensures InOrder(s, es[1..])
  {
  }

  lemma FirstTold(s: Style, es: seq<Entry>, tags: seq<TagDirective>)
    requires es != []
    ensures TellEntries(s, es, tags) + [EndOf(s)] == TellEntry(s, es[0], tags) + (TellEntries(s, es[1..], tags) + [EndOf(s)])
  {
    hide TellEntry;
  }

  lemma OneTold(s: Style, es: seq<Entry>, tags: seq<TagDirective>)
    requires |es| == 1
    ensures TellEntries(s, es, tags) == TellEntry(s, es[0], tags)
  {
    hide TellEntry;
    assert TellEntries(s, es[1..], tags) == [];
  }

  /** Among sound entries a lone KEY is the last, and a comma follows; the others stand for themselves. */
  lemma HollowIsLast(s: Style, es: seq<Entry>, trailing: bool)
    requires es != [] && SoundEntries(s, es, trailing)
    ensures Hollow(s, es[0]) ==> s.FlowSeq? && trailing && |es| == 1 && es[1..] == []
    ensures !Hollow(s, es[0]) ==> SoundEntry(s, es[0], false)
    ensures SoundEntries(s, es[1..], trailing)
  {
  }

  lemma NoEntries(s: Style, first: bool, trailing: bool)
    ensures Rest(s, [], first, trailing) == Tail(s, trailing)
  {
  }

  lemma EntriesSplit(tokens: seq<Token>, s: Style, es: seq<Entry>, first: bool, trailing: bool, pos: nat)
    requires es != [] && (trailing ==> s.FlowSeq? || s.FlowMap?) && InOrder(s, es)
    requires Lies(tokens, pos, Rest(s, es, first, trailing))
    requires var end := pos + |Rest(s, es, first, trailing)|;
             end < |tokens| && (s.Indentless? ==> Stops(tokens[end].kind, true))
    ensures var head, rest := SpellEntry(s, es[0], first), Rest(s, es[1..], false, trailing);
            && |Rest(s, es, first, trailing)| == |head| + |rest|
            && Lies(tokens, pos, head) && Lies(tokens, pos + |head|, rest)
            && EntryStops(s, es[0], tokens[pos + |head|].kind)
  {
    hide Lies, SpellEntry, Rest, InOrder;
    var head, rest := SpellEntry(s, es[0], first), Rest(s, es[1..], false, trailing);
    RestSplit(s, es, first, trailing);
    LiesSplit(tokens, pos, head, rest);
    AfterEntry(tokens, s, es, trailing, pos + |head|);
  }

  lemma RestSplit(s: Style, es: seq<Entry>, first: bool, trailing: bool)
    requires es != []
    ensures Rest(s, es, first, trailing) == SpellEntry(s, es[0], first) + Rest(s, es[1..], false, trailing)
  {
    hide SpellEntry, Tail;
  }

  lemma HomeStep(tokens: seq<Token>, s: Style, d: Config)
    requires d.state == Home(s)
    ensures Step(tokens, d) == EntryStep(tokens, s, d, false)
  {
  }

  lemma CollectionCloses(tokens: seq<Token>, s: Style, trailing: bool, d: Config, first: bool)
    requires trailing ==> (s.FlowSeq? || s.FlowMap?) && !first
    requires Lies(tokens, d.pos, Tail(s, trailing)) && d.states != []
    requires d.pos + |Tail(s, trailing)| < |tokens|
    requires s.Indentless? ==> Stops(tokens[d.pos].kind, true)
    ensures Goes(tokens, EntryStep(tokens, s, d, first), [EndOf(s)], Pop(d, d.pos + |Tail(s, trailing)|))
  {
    hide EntryStep, Goes, Lies, Tail, Pop;
    TailLies(tokens, s, trailing, d.pos);
    ClosingStep(tokens, s, trailing, d, first);
    GoesOnce(tokens, EndOf(s), Pop(d, d.pos + |Tail(s, trailing)|));
  }

  lemma TailLies(tokens: seq<Token>, s: Style, trailing: bool, pos: nat)
    requires Lies(tokens, pos, Tail(s, trailing))
    ensures trailing ==> pos < |tokens| && tokens[pos].kind == FlowEntryToken
    ensures var end := if trailing then pos + 1 else pos;
            && pos + |Tail(s, trailing)| == end + |Closing(s)|
            && (!s.Indentless? ==> end < |tokens| && [tokens[end].kind] == Closing(s))
  {
    hide Lies;
    var comma := if trailing then [FlowEntryToken] else [];
    LiesSplit(tokens, pos, comma, Closing(s));
    if trailing {
      LiesFirst(tokens, pos, comma);
    }
    if !s.Indentless? {
      LiesFirst(tokens, pos + |comma|, Closing(s));
    }
  }

  lemma ClosingStep(tokens: seq<Token>, s: Style, trailing: bool, d: Config, first: bool)
    requires trailing ==> (s.FlowSeq? || s.FlowMap?) && !first && d.pos < |tokens| && tokens[d.pos].kind == FlowEntryToken
    requires var end := if trailing then d.pos + 1 else d.pos;
             end < |tokens| && if s.Indentless? then Stops(tokens[end].kind, true) else [tokens[end].kind] == Closing(s)
    ensures EntryStep(tokens, s, d, first) == Emits(EndOf(s), Pop(d, (if trailing then d.pos + 1 else d.pos) + |Closing(s)|))
  {
    hide NodeStep, Pop;
  }

  /** What follows an entry: the next one, a comma, or the end of the collection. */
  lemma AfterEntry(tokens: seq<Token>, s: Style, es: seq<Entry>, trailing: bool, pos: nat)
    requires es != [] && (trailing ==> s.FlowSeq? || s.FlowMap?) && InOrder(s, es)
    requires Lies(tokens, pos, Rest(s, es[1..], false, trailing))
    requires var end := pos + |Rest(s, es[1..], false, trailing)|;
             end < |tokens| && (s.Indentless? ==> Stops(tokens[end].kind, true))
    ensures pos < |tokens| && EntryStops(s, es[0], tokens[pos].kind)
  {
    var rest := Rest(s, es[1..], false, trailing);
    if rest != [] {
      assert tokens[pos + 0].kind == rest[0];
      if |es| > 1 {
        EntryStarts(s, es[1], false);
        assert SpellEntries(s, es[1..], false) == SpellEntry(s, es[1], false) + SpellEntries(s, es[1..][1..], false);
      }
    }
  }

  /** One entry. */
  lemma {:induction false} EntryGoes(tokens: seq<Token>, s: Style, e: Entry, d: Config, first: bool)
    requires GoodEntry(s, e, d.tags) && SoundEntry(s, e, false)
    requires Lies(tokens, d.pos, SpellEntry(s, e, first)) && d.states != []
    requires var end := d.pos + |SpellEntry(s, e, first)|; end < |tokens| && EntryStops(s, e, tokens[end].kind)
    ensures Goes(tokens, EntryStep(tokens, s, d, first), TellEntry(s, e, d.tags),
                 Config(d.pos + |SpellEntry(s, e, first)|, Home(s), d.states, d.tags))
    decreases e, 6
  {
    hide NodeStep, Goes, Tell, Lies, Spell, Good, AfterComma, SpellPair, BlockSequenceStep, IndentlessSequenceStep,
      BlockMappingKeyStep, FlowSequenceStep, FlowMappingKeyStep, Sound;
    match s
    case BlockSeq => ItemGoes(tokens, s, e, d);
    case Indentless => ItemGoes(tokens, s, e, d);
    case BlockMap => BlockPairGoes(tokens, e, d);
    case FlowSeq => FlowEntryGoes(tokens, s, e, d, first);
    case FlowMap => FlowEntryGoes(tokens, s, e, d, first);
  }

  lemma {:induction false} FlowEntryGoes(tokens: seq<Token>, s: Style, e: Entry, d: Config, first: bool)
    requires (s.FlowSeq? || s.FlowMap?) && GoodEntry(s, e, d.tags) && SoundEntry(s, e, false)
    requires Lies(tokens, d.pos, SpellEntry(s, e, first)) && d.states != []
    requires var end := d.pos + |SpellEntry(s, e, first)|; end < |tokens| && EntryStops(s, e, tokens[end].kind)
    ensures Goes(tokens, EntryStep(tokens, s, d, first), TellEntry(s, e, d.tags),
                 Config(d.pos + |SpellEntry(s, e, first)|, Home(s), d.states, d.tags))
    decreases e, 6, 0
  {
    hide NodeStep, Goes, Tell, Lies, Spell, Good, AfterComma, SpellPair, FlowSequenceStep, FlowMappingKeyStep, Sound;
    var pos := if first then d.pos else d.pos + 1;
    if s.FlowSeq? {
      CommaSkipped(tokens, d.pos, first, FlowSequenceEndToken, if e.keyed then SpellPair(e) else Spell(e.key));
      if !e.keyed {
        FlowItemGoes(tokens, e, d, pos, first);
      } else if e.key.Absent? {
        KeylessGoes(tokens, e, d, pos, first);
      } else {
        SinglePairGoes(tokens, e, d, pos, first);
      }
    } else {
      CommaSkipped(tokens, d.pos, first, FlowMappingEndToken, if e.keyed then SpellPair(e) else Spell(e.key));
      if e.keyed { FlowPairGoes(tokens, e, d, pos, first); } else { FlowKeyGoes(tokens, e, d, pos, first); }
    }
  }

  /** An entry of a block sequence. */
  lemma {:induction false} ItemGoes(tokens: seq<Token>, s: Style, e: Entry, d: Config)
    requires (s.BlockSeq? || s.Indentless?) && GoodEntry(s, e, d.tags) && Sound(e.key)
    requires Lies(tokens, d.pos, [BlockEntryToken] + Spell(e.key))
    requires var end := d.pos + 1 + |Spell(e.key)|; end < |tokens| && EntryStops(s, e, tokens[end].kind)
    ensures Goes(tokens, EntryStep(tokens, s, d, false), Tell(e.key, d.tags),
                 Config(d.pos + 1 + |Spell(e.key)|, Home(s), d.states, d.tags))
    decreases e, 5
  {
    hide NodeStep, EntryStep, Goes, Tell, Lies, Spell, Good, Sound;
    LiesSplit(tokens, d.pos, [BlockEntryToken], Spell(e.key));
    ItemStep(tokens, s, e, d);
    ChildGoes(tokens, e.key, d, d.pos + 1, Home(s), true, false);
  }

  lemma ItemStep(tokens: seq<Token>, s: Style, e: Entry, d: Config)
    requires (s.BlockSeq? || s.Indentless?) && Good(e.key, d.tags, true, false, true)
    requires Lies(tokens, d.pos, [BlockEntryToken]) && Lies(tokens, d.pos + 1, Spell(e.key))
    requires var end := d.pos + 1 + |Spell(e.key)|; end < |tokens| && EntryStops(s, e, tokens[end].kind)
    ensures EntryStep(tokens, s, d, false)
         == if e.key.Absent? then Missing(d, d.pos + 1, Home(s)) else NodeStep(tokens, Push(d, d.pos + 1, Home(s)), true, false)
  {
    hide NodeStep, Good, Lies, Spell;
    LiesFirst(tokens, d.pos, [BlockEntryToken]);
    PlaceToken(tokens, e.key, d.pos + 1, d.tags, true, false);
  }

  // ------------------------------------------------------------------ pairs

  /** The state in which the value of a pair is read, and the one after it. */
  function ValueState(s: Style): State {
    match s
    case BlockMap => BlockMappingValue
    case FlowMap => FlowMappingValue
    case _ => FlowSequenceEntryMappingValue
  }

  function AfterValue(s: Style): State {
    if s.FlowSeq? then FlowSequenceEntryMappingEnd else Home(s)
  }

  /** The value of a pair, given or not. */
  lemma {:induction false} ValueGoes(tokens: seq<Token>, s: Style, e: Entry, d: Config)
    requires s.BlockMap? || s.FlowMap? || s.FlowSeq?
    requires GoodEntry(s, e, d.tags) && Sound(e.value) && d.state == ValueState(s)
    requires Lies(tokens, d.pos, SpellValue(e))
    requires var end := d.pos + |SpellValue(e)|; end < |tokens| && EntryStops(s, e, tokens[end].kind)
    ensures Goes(tokens, Step(tokens, d), Tell(e.value, d.tags),
                 Config(d.pos + |SpellValue(e)|, AfterValue(s), d.states, d.tags))
    decreases e, 2
  {
    hide NodeStep, Step, Goes, Tell, Lies, Spell, Good, Sound;
    ValueStepIs(tokens, s, e, d);
    if e.valued {
      LiesSplit(tokens, d.pos, [ValueToken], Spell(e.value));
      ChildGoes(tokens, e.value, d, d.pos + 1, AfterValue(s), s.BlockMap?, s.BlockMap?);
    } else {
      assert Tell(e.value, d.tags) == [EmptyScalar] by { AbsentTold(d.tags); }
      GoesOnce(tokens, EmptyScalar, d.(state := AfterValue(s)));
    }
  }

  lemma AbsentTold(tags: seq<TagDirective>)
    ensures Tell(Absent, tags) == [EmptyScalar]
  {
  }

  lemma ValueStepIs(tokens: seq<Token>, s: Style, e: Entry, d: Config)
    requires s.BlockMap? || s.FlowMap? || s.FlowSeq?
    requires GoodEntry(s, e, d.tags) && d.state == ValueState(s)
    requires Lies(tokens, d.pos, SpellValue(e))
    requires var end := d.pos + |SpellValue(e)|; end < |tokens| && EntryStops(s, e, tokens[end].kind)
    ensures Step(tokens, d)
         == if !e.valued then Missing(d, d.pos, AfterValue(s))
            else if e.value.Absent? then Missing(d, d.pos + 1, AfterValue(s))
            else NodeStep(tokens, Push(d, d.pos + 1, AfterValue(s)), s.BlockMap?, s.BlockMap?)
  {
    hide NodeStep, Good, Lies, Spell;
    if e.valued {
      LiesSplit(tokens, d.pos, [ValueToken], Spell(e.value));
      LiesFirst(tokens, d.pos, [ValueToken]);
      PlaceToken(tokens, e.value, d.pos + 1, d.tags, s.BlockMap?, s.BlockMap?);
    }
  }

  /** KEY node? (VALUE node?)?, after the key has been recognised. */
  lemma {:induction false} PairGoes(tokens: seq<Token>, s: Style, e: Entry, d: Config, pos: nat, o: Outcome)
    requires (s.BlockMap? || s.FlowMap?) && GoodEntry(s, e, d.tags) && e.keyed && Sound(e.key) && Sound(e.value)
    requires Lies(tokens, pos, Spell(e.key) + SpellValue(e))
    requires var end := pos + |Spell(e.key) + SpellValue(e)|; end < |tokens| && EntryStops(s, e, tokens[end].kind)
    requires o == if e.key.Absent? then Missing(d, pos, ValueState(s))
                  else NodeStep(tokens, Push(d, pos, ValueState(s)), s.BlockMap?, s.BlockMap?)
    ensures Goes(tokens, o, Tell(e.key, d.tags) + Tell(e.value, d.tags),
                 Config(pos + |Spell(e.key) + SpellValue(e)|, Home(s), d.states, d.tags))
    decreases e, 4
  {
    hide NodeStep, Step, Goes, Tell, Lies, Spell, Good, Sound;
    LiesSplit(tokens, pos, Spell(e.key), SpellValue(e));
    var mid := pos + |Spell(e.key)|;
    BehindKey(tokens, s, e, mid);
    ChildGoes(tokens, e.key, d, pos, ValueState(s), s.BlockMap?, s.BlockMap?);
    var d' := Config(mid, ValueState(s), d.states, d.tags);
    ValueGoes(tokens, s, e, d');
    GoesThenGoes(tokens, o, Tell(e.key, d.tags), d', Tell(e.value, d.tags),
                 Config(mid + |SpellValue(e)|, Home(s), d.states, d.tags));
  }

  /** The token behind a key may follow a node. */
  lemma BehindKey(tokens: seq<Token>, s: Style, e: Entry, pos: nat)
    requires Lies(tokens, pos, SpellValue(e))
    requires var end := pos + |SpellValue(e)|; end < |tokens| && EntryStops(s, e, tokens[end].kind)
    requires s.BlockMap? || s.FlowMap? || s.FlowSeq?
    ensures pos < |tokens| && Stops(tokens[pos].kind, s.BlockMap?)
    ensures tokens[pos].kind.ValueToken? || EntryStops(s, e, tokens[pos].kind)
  {
    if e.valued {
      assert tokens[pos + 0].kind == SpellValue(e)[0];
    }
  }

  lemma {:induction false} BlockPairGoes(tokens: seq<Token>, e: Entry, d: Config)
    requires GoodEntry(BlockMap, e, d.tags) && e.keyed && Sound(e.key) && Sound(e.value)
    requires Lies(tokens, d.pos, SpellPair(e)) && d.states != []
    requires var end := d.pos + |SpellPair(e)|; end < |tokens| && EntryStops(BlockMap, e, tokens[end].kind)
    ensures Goes(tokens, BlockMappingKeyStep(tokens, d), Tell(e.key, d.tags) + Tell(e.value, d.tags),
                 Config(d.pos + |SpellPair(e)|, BlockMappingKey, d.states, d.tags))
    decreases e, 5
  {
    hide NodeStep, BlockMappingKeyStep, Goes, Tell, Lies, Spell, Good, SpellValue, GoodEntry, Sound;
    PairSpelled(tokens, d.pos, e);
    BlockKeyStepIs(tokens, e, d);
    PairGoes(tokens, BlockMap, e, d, d.pos + 1, BlockMappingKeyStep(tokens, d));
  }

  lemma GoodKey(e: Entry, tags: seq<TagDirective>)
    requires GoodEntry(BlockMap, e, tags)
    ensures Good(e.key, tags, true, true, true)
  {
    hide Good;
  }

  lemma PairSpelled(tokens: seq<Token>, pos: nat, e: Entry)
    requires Lies(tokens, pos, SpellPair(e))
    ensures pos < |tokens| && tokens[pos].kind == KeyToken
    ensures Lies(tokens, pos + 1, Spell(e.key) + SpellValue(e)) && |SpellPair(e)| == 1 + |Spell(e.key) + SpellValue(e)|
  {
    hide Lies, Spell, SpellValue;
    LiesSplit(tokens, pos, [KeyToken], Spell(e.key) + SpellValue(e)) by { PairAssoc(e); }
    LiesFirst(tokens, pos, [KeyToken]);
  }

  lemma PairAssoc(e: Entry)
    ensures SpellPair(e) == [KeyToken] + (Spell(e.key) + SpellValue(e))
  {
    hide Spell, SpellValue;
  }

  lemma BlockKeyStepIs(tokens: seq<Token>, e: Entry, d: Config)
    requires GoodEntry(BlockMap, e, d.tags)
    requires d.pos < |tokens| && tokens[d.pos].kind == KeyToken && Lies(tokens, d.pos + 1, Spell(e.key) + SpellValue(e))
    requires var end := d.pos + 1 + |Spell(e.key) + SpellValue(e)|; end < |tokens| && EntryStops(BlockMap, e, tokens[end].kind)
    ensures BlockMappingKeyStep(tokens, d)
         == if e.key.Absent? then Missing(d, d.pos + 1, BlockMappingValue)
            else NodeStep(tokens, Push(d, d.pos + 1, BlockMappingValue), true, true)
  {
    hide NodeStep, Good, Lies, Spell, SpellValue, GoodEntry;
    GoodKey(e, d.tags);
    KeyPlace(tokens, BlockMap, e, d.pos + 1, d.tags, true);
  }

  /** What stands behind KEY. */
  lemma KeyPlace(tokens: seq<Token>, s: Style, e: Entry, pos: nat, tags: seq<TagDirective>, optional: bool)
    requires s.BlockMap? || s.FlowMap? || s.FlowSeq?
    requires Good(e.key, tags, s.BlockMap?, s.BlockMap?, optional)
    requires Lies(tokens, pos, Spell(e.key) + SpellValue(e))
    requires var end := pos + |Spell(e.key) + SpellValue(e)|; end < |tokens| && EntryStops(s, e, tokens[end].kind)
    ensures pos < |tokens|
    ensures var k := tokens[pos].kind;
            if e.key.Absent? then k.ValueToken? || EntryStops(s, e, k) else StartsNode(k) || (s.BlockMap? && k.BlockEntryToken?)
  {
    LiesSplit(tokens, pos, Spell(e.key), SpellValue(e));
    BehindKey(tokens, s, e, pos + |Spell(e.key)|);
    hide Lies, Good, SpellValue;
    PlaceToken(tokens, e.key, pos, tags, s.BlockMap?, s.BlockMap?);
  }

  // ------------------------------------------------------------ flow entries

  lemma CommaSkipped(tokens: seq<Token>, pos: nat, first: bool, end: TokenKind, inner: seq<TokenKind>)
    requires Lies(tokens, pos, (if first then [] else [FlowEntryToken]) + inner)
    requires var e := if first then pos else pos + 1; e + |inner| < |tokens|
    requires !end.FlowEntryToken?
    ensures AfterComma(tokens, pos, first, end) == Some(if first then pos else pos + 1)
    ensures Lies(tokens, if first then pos else pos + 1, inner)
  {
    LiesSplit(tokens, pos, if first then [] else [FlowEntryToken], inner);
    if !first {
      LiesFirst(tokens, pos, [FlowEntryToken]);
    }
    hide Lies;
  }

  /** A plain entry of a flow sequence. */
  lemma {:induction false} FlowItemGoes(tokens: seq<Token>, e: Entry, d: Config, pos: nat, first: bool)
    requires GoodEntry(FlowSeq, e, d.tags) && !e.keyed && Sound(e.key)
    requires AfterComma(tokens, d.pos, first, FlowSequenceEndToken) == Some(pos) && Lies(tokens, pos, Spell(e.key))
    requires var end := pos + |Spell(e.key)|; end < |tokens| && EntryStops(FlowSeq, e, tokens[end].kind)
    ensures Goes(tokens, FlowSequenceStep(tokens, d, first), Tell(e.key, d.tags),
                 Config(pos + |Spell(e.key)|, FlowSequenceEntry, d.states, d.tags))
    decreases e, 5
  {
    hide NodeStep, Goes, Tell, Lies, Spell, Good, AfterComma, Sound;
    PresentGoes(tokens, FlowSeq, e, d, pos, FlowSequenceEntry);
  }

  /** A node that must be there, in a flow collection. */
  lemma {:induction false} PresentGoes(tokens: seq<Token>, s: Style, e: Entry, d: Config, pos: nat, next: State)
    requires (s.FlowSeq? || s.FlowMap?) && Good(e.key, d.tags, false, false, false) && Sound(e.key)
    requires Lies(tokens, pos, Spell(e.key))
    requires var end := pos + |Spell(e.key)|;
             end < |tokens| && (tokens[end].kind.ValueToken? || EntryStops(s, e, tokens[end].kind))
    ensures pos < |tokens| && StartsNode(tokens[pos].kind)
    ensures Goes(tokens, NodeStep(tokens, Push(d, pos, next), false, false), Tell(e.key, d.tags),
                 Config(pos + |Spell(e.key)|, next, d.states, d.tags))
    decreases e, 4
  {
    hide NodeStep, Goes, Tell, Lies, Spell, Good, Sound;
    GoodMeansPresent(e.key, d.tags);
    PlaceToken(tokens, e.key, pos, d.tags, false, false);
    ChildGoes(tokens, e.key, d, pos, next, false, false);
  }

  lemma GoodMeansPresent(n: Syntax, tags: seq<TagDirective>)
    requires Good(n, tags, false, false, false)
    ensures !n.Absent? && Good(n, tags, false, false, true)
  {
  }

  /** A lone key of a flow mapping. */
  lemma {:induction false} FlowKeyGoes(tokens: seq<Token>, e: Entry, d: Config, pos: nat, first: bool)
    requires GoodEntry(FlowMap, e, d.tags) && !e.keyed && Sound(e.key)
    requires AfterComma(tokens, d.pos, first, FlowMappingEndToken) == Some(pos) && Lies(tokens, pos, Spell(e.key))
    requires var end := pos + |Spell(e.key)|; end < |tokens| && EntryStops(FlowMap, e, tokens[end].kind)
    ensures Goes(tokens, FlowMappingKeyStep(tokens, d, first), Tell(e.key, d.tags) + Tell(e.value, d.tags),
                 Config(pos + |Spell(e.key)|, FlowMappingKey, d.states, d.tags))
    decreases e, 5
  {
    hide NodeStep, Goes, Tell, Lies, Spell, Good, AfterComma, Sound;
    PresentGoes(tokens, FlowMap, e, d, pos, FlowMappingEmptyValue);
    AbsentTold(d.tags);
    var d' := Config(pos + |Spell(e.key)|, FlowMappingEmptyValue, d.states, d.tags);
    GoesOnce(tokens, EmptyScalar, d'.(state := FlowMappingKey));
    GoesThenGoes(tokens, FlowMappingKeyStep(tokens, d, first), Tell(e.key, d.tags), d', [EmptyScalar], d'.(state := FlowMappingKey));
  }

  /** A full pair of a flow mapping. */
  lemma {:induction false} FlowPairGoes(tokens: seq<Token>, e: Entry, d: Config, pos: nat, first: bool)
    requires GoodEntry(FlowMap, e, d.tags) && e.keyed && Sound(e.key) && Sound(e.value)
    requires AfterComma(tokens, d.pos, first, FlowMappingEndToken) == Some(pos) && Lies(tokens, pos, SpellPair(e))
    requires var end := pos + |SpellPair(e)|; end < |tokens| && EntryStops(FlowMap, e, tokens[end].kind)
    ensures Goes(tokens, FlowMappingKeyStep(tokens, d, first), Tell(e.key, d.tags) + Tell(e.value, d.tags),
                 Config(pos + |SpellPair(e)|, FlowMappingKey, d.states, d.tags))
    decreases e, 5
  {
    hide NodeStep, Goes, Tell, Lies, Spell, Good, SpellValue, AfterComma, FlowMappingKeyStep, SpellPair, Sound;
    PairSpelled(tokens, pos, e);
    FlowPairStepIs(tokens, e, d, pos, first);
    PairGoes(tokens, FlowMap, e, d, pos + 1, FlowMappingKeyStep(tokens, d, first));
  }

  lemma FlowPairStepIs(tokens: seq<Token>, e: Entry, d: Config, pos: nat, first: bool)
    requires GoodEntry(FlowMap, e, d.tags) && e.keyed
    requires AfterComma(tokens, d.pos, first, FlowMappingEndToken) == Some(pos)
    requires pos < |tokens| && tokens[pos].kind == KeyToken && Lies(tokens, pos + 1, Spell(e.key) + SpellValue(e))
    requires var end := pos + 1 + |Spell(e.key) + SpellValue(e)|; end < |tokens| && EntryStops(FlowMap, e, tokens[end].kind)
    ensures FlowMappingKeyStep(tokens, d, first)
         == if e.key.Absent? then Missing(d, pos + 1, FlowMappingValue)
            else NodeStep(tokens, Push(d, pos + 1, FlowMappingValue), false, false)
  {
    hide NodeStep, Good, Lies, Spell, SpellValue, AfterComma;
    KeyPlace(tokens, FlowMap, e, pos + 1, d.tags, true);
  }

  /** A single-pair mapping as an entry of a flow sequence. */
  lemma {:induction false} SinglePairGoes(tokens: seq<Token>, e: Entry, d: Config, pos: nat, first: bool)
    requires GoodEntry(FlowSeq, e, d.tags) && e.keyed && !e.key.Absent? && Sound(e.key) && Sound(e.value)
    requires AfterComma(tokens, d.pos, first, FlowSequenceEndToken) == Some(pos) && Lies(tokens, pos, SpellPair(e))
    requires var end := pos + |SpellPair(e)|; end < |tokens| && EntryStops(FlowSeq, e, tokens[end].kind)
    ensures Goes(tokens, FlowSequenceStep(tokens, d, first), TellEntry(FlowSeq, e, d.tags),
                 Config(pos + |SpellPair(e)|, FlowSequenceEntry, d.states, d.tags))
    decreases e, 5
  {
    hide NodeStep, Goes, Tell, Lies, Spell, Good, SpellValue, AfterComma, SpellPair, Step, FlowSequenceStep, Sound;
    PairSpelled(tokens, pos, e);
    LiesSplit(tokens, pos + 1, Spell(e.key), SpellValue(e));
    var mid, end := pos + 1 + |Spell(e.key)|, pos + |SpellPair(e)|;
    BehindKey(tokens, FlowSeq, e, mid);
    var d1 := Config(pos + 1, FlowSequenceEntryMappingKey, d.states, d.tags);
    PresentIsGood(e.key, d.tags);
    PresentGoes(tokens, FlowSeq, e, d1, pos + 1, FlowSequenceEntryMappingValue);
    PairKeyStepIs(tokens, d1);
    var d2 := Config(mid, FlowSequenceEntryMappingValue, d.states, d.tags);
    PairStarts(tokens, d, pos, first);
    PairTailGoes(tokens, e, d2);
    WholePairGoes(tokens, FlowSequenceStep(tokens, d, first), d1, Tell(e.key, d.tags), d2, Tell(e.value, d.tags),
                  Config(end, FlowSequenceEntry, d.states, d.tags));
  }

  lemma PresentIsGood(n: Syntax, tags: seq<TagDirective>)
    requires Good(n, tags, false, false, true) && !n.Absent?
    ensures Good(n, tags, false, false, false)
  {
  }

  /** KEY in a flow sequence: a single pair starts. */
  lemma PairStarts(tokens: seq<Token>, d: Config, pos: nat, first: bool)
    requires AfterComma(tokens, d.pos, first, FlowSequenceEndToken) == Some(pos) && pos < |tokens| && tokens[pos].kind.KeyToken?
    ensures FlowSequenceStep(tokens, d, first)
         == Emits(MappingStart(None, "", true), Config(pos + 1, FlowSequenceEntryMappingKey, d.states, d.tags))
  {
    hide AfterComma, NodeStep;
  }

  lemma PairKeyStepIs(tokens: seq<Token>, c: Config)
    requires c.state.FlowSequenceEntryMappingKey? && c.pos < |tokens| && StartsNode(tokens[c.pos].kind)
    ensures Step(tokens, c) == NodeStep(tokens, Push(c, c.pos, FlowSequenceEntryMappingValue), false, false)
  {
    hide NodeStep;
  }

  /** In the place of a missing key a single pair consumes the VALUE, the comma or the bracket that stands there. */
  lemma PairSwallows(tokens: seq<Token>, c: Config)
    requires c.state.FlowSequenceEntryMappingKey? && c.pos < |tokens|
    requires tokens[c.pos].kind.ValueToken? || EndsFlowPair(tokens[c.pos].kind)
    ensures Step(tokens, c) == Emits(EmptyScalar, c.(pos := c.pos + 1, state := FlowSequenceEntryMappingValue))
  {
    hide NodeStep;
  }

  /** The value of a single pair, and its end. */
  lemma {:induction false} PairTailGoes(tokens: seq<Token>, e: Entry, d: Config)
    requires GoodEntry(FlowSeq, e, d.tags) && Sound(e.value) && d.state.FlowSequenceEntryMappingValue?
    requires Lies(tokens, d.pos, SpellValue(e))
    requires var end := d.pos + |SpellValue(e)|; end < |tokens| && EntryStops(FlowSeq, e, tokens[end].kind)
    ensures Goes(tokens, Step(tokens, d), Tell(e.value, d.tags) + [MappingEnd],
                 Config(d.pos + |SpellValue(e)|, FlowSequenceEntry, d.states, d.tags))
    decreases e, 3
  {
    hide NodeStep, Goes, Tell, Lies, Spell, Good, SpellValue, Step, GoodEntry, Sound;
    ValueGoes(tokens, FlowSeq, e, d);
    var d3 := Config(d.pos + |SpellValue(e)|, FlowSequenceEntryMappingEnd, d.states, d.tags);
    PairEnds(tokens, d3);
    GoesThenGoes(tokens, Step(tokens, d), Tell(e.value, d.tags), d3, [MappingEnd], d3.(state := FlowSequenceEntry));
  }

  lemma PairEnds(tokens: seq<Token>, c: Config)
    requires c.state.FlowSequenceEntryMappingEnd? && c.pos < |tokens|
    ensures Step(tokens, c) == Emits(MappingEnd, c.(state := FlowSequenceEntry))
    ensures Goes(tokens, Step(tokens, c), [MappingEnd], c.(state := FlowSequenceEntry))
  {
    GoesOnce(tokens, MappingEnd, c.(state := FlowSequenceEntry));
  }

  /** Start, key, value and end of a single pair, put together. */
  lemma WholePairGoes(tokens: seq<Token>, o: Outcome, d1: Config, key: seq<Event>, d2: Config, value: seq<Event>, d3: Config)
    requires o == Emits(MappingStart(None, "", true), d1) && !d1.state.EndState? && !d2.state.EndState?
    requires Goes(tokens, Step(tokens, d1), key, d2) && Goes(tokens, Step(tokens, d2), value + [MappingEnd], d3)
    ensures Goes(tokens, o, [MappingStart(None, "", true)] + (key + (value + [MappingEnd])), d3)
  {
    hide Step, Goes;
    GoesThenGoes(tokens, Step(tokens, d1), key, d2, value + [MappingEnd], d3);
    GoesOnce(tokens, MappingStart(None, "", true), d1);
    GoesThenGoes(tokens, o, [MappingStart(None, "", true)], d1, key + (value + [MappingEnd]), d3);
  }

  // -------------------------------------------------- pairs without a key node

  const NOTHING := Entry(true, Absent, false, Absent)

  /** Where no VALUE stands a single pair ends with an empty value. */
  lemma NoValueGoes(tokens: seq<Token>, c: Config)
    requires c.state.FlowSequenceEntryMappingValue? && c.pos < |tokens| && !tokens[c.pos].kind.ValueToken?
    ensures Goes(tokens, Step(tokens, c), [EmptyScalar] + [MappingEnd], c.(state := FlowSequenceEntry))
  {
    hide Goes, NodeStep;
    var d := c.(state := FlowSequenceEntryMappingEnd);
    GoesOnce(tokens, EmptyScalar, d);
    PairEnds(tokens, d);
    GoesThenGoes(tokens, Step(tokens, c), [EmptyScalar], d, [MappingEnd], d.(state := FlowSequenceEntry));
  }

  /** A pair of which nothing is given, whatever was consumed in the place of its key. */
  lemma NothingGoes(tokens: seq<Token>, o: Outcome, c: Config)
    requires c.state.FlowSequenceEntryMappingKey? && o == Emits(MappingStart(None, "", true), c)
    requires c.pos + 1 < |tokens| && (tokens[c.pos].kind.ValueToken? || EndsFlowPair(tokens[c.pos].kind))
    requires EndsFlowPair(tokens[c.pos + 1].kind)
    ensures Goes(tokens, o, TellEntry(FlowSeq, NOTHING, c.tags), c.(pos := c.pos + 1, state := FlowSequenceEntry))
  {
    hide NodeStep, Goes, Step;
    PairSwallows(tokens, c);
    var d2 := c.(pos := c.pos + 1, state := FlowSequenceEntryMappingValue);
    GoesOnce(tokens, EmptyScalar, d2);
    NoValueGoes(tokens, d2);
    AbsentTold(c.tags);
    WholePairGoes(tokens, o, c, [EmptyScalar], d2, [EmptyScalar], d2.(state := FlowSequenceEntry));
  }

  /** KEY VALUE: the VALUE is taken for the key, which does no harm as there is no value. */
  lemma KeylessGoes(tokens: seq<Token>, e: Entry, d: Config, pos: nat, first: bool)
    requires GoodEntry(FlowSeq, e, d.tags) && SoundEntry(FlowSeq, e, false) && Keyless(FlowSeq, e)
    requires AfterComma(tokens, d.pos, first, FlowSequenceEndToken) == Some(pos) && Lies(tokens, pos, SpellPair(e))
    requires var end := pos + |SpellPair(e)|; end < |tokens| && EntryStops(FlowSeq, e, tokens[end].kind)
    ensures Goes(tokens, FlowSequenceStep(tokens, d, first), TellEntry(FlowSeq, e, d.tags),
                 Config(pos + |SpellPair(e)|, FlowSequenceEntry, d.states, d.tags))
  {
    hide NodeStep, Goes, AfterComma, Step, FlowSequenceStep;
    assert SpellPair(e) == [KeyToken, ValueToken];
    assert tokens[pos + 0].kind == SpellPair(e)[0];
    assert tokens[pos + 1].kind == SpellPair(e)[1];
    PairStarts(tokens, d, pos, first);
    NothingGoes(tokens, FlowSequenceStep(tokens, d, first), Config(pos + 1, FlowSequenceEntryMappingKey, d.states, d.tags));
  }

  /** KEY alone as the last entry: the comma behind it is taken for the key, and the bracket ends the sequence. */
  lemma HollowGoes(tokens: seq<Token>, e: Entry, d: Config, first: bool)
    requires GoodEntry(FlowSeq, e, d.tags) && Hollow(FlowSeq, e) && d.states != []
    requires Lies(tokens, d.pos, SpellEntry(FlowSeq, e, first))
    requires Lies(tokens, d.pos + |SpellEntry(FlowSeq, e, first)|, Tail(FlowSeq, true))
    requires d.pos + |SpellEntry(FlowSeq, e, first)| + 2 < |tokens|
    ensures Goes(tokens, FlowSequenceStep(tokens, d, first), TellEntry(FlowSeq, e, d.tags) + [SequenceEnd],
                 Pop(d, d.pos + |SpellEntry(FlowSeq, e, first)| + 2))
  {
    hide NodeStep, Goes, Step, FlowSequenceStep, SpellEntry, TellEntry, AfterComma;
    var pos := if first then d.pos else d.pos + 1;
    HollowLies(tokens, e, d, pos, first);
    PairStarts(tokens, d, pos, first);
    NothingGoes(tokens, FlowSequenceStep(tokens, d, first), Config(pos + 1, FlowSequenceEntryMappingKey, d.states, d.tags));
    var d' := Config(pos + 2, FlowSequenceEntry, d.states, d.tags);
    SequenceCloses(tokens, d');
    GoesThenGoes(tokens, FlowSequenceStep(tokens, d, first), TellEntry(FlowSeq, e, d.tags), d', [SequenceEnd], Pop(d', pos + 3));
  }

  lemma HollowLies(tokens: seq<Token>, e: Entry, d: Config, pos: nat, first: bool)
    requires Hollow(FlowSeq, e) && pos == if first then d.pos else d.pos + 1
    requires Lies(tokens, d.pos, SpellEntry(FlowSeq, e, first))
    requires Lies(tokens, d.pos + |SpellEntry(FlowSeq, e, first)|, Tail(FlowSeq, true))
    requires d.pos + |SpellEntry(FlowSeq, e, first)| + 2 < |tokens|
    ensures pos + 3 < |tokens| && pos + 1 == d.pos + |SpellEntry(FlowSeq, e, first)|
    ensures AfterComma(tokens, d.pos, first, FlowSequenceEndToken) == Some(pos) && tokens[pos].kind == KeyToken
    ensures tokens[pos + 1].kind == FlowEntryToken && tokens[pos + 2].kind == FlowSequenceEndToken
  {
    assert SpellPair(e) == [KeyToken];
    hide Lies;
    hide SpellEntry, AfterComma;
    CommaSkipped(tokens, d.pos, first, FlowSequenceEndToken, [KeyToken]);
    LiesFirst(tokens, pos, [KeyToken]);
    LiesSplit(tokens, pos + 1, [FlowEntryToken], [FlowSequenceEndToken]);
    LiesFirst(tokens, pos + 1, [FlowEntryToken]);
    LiesFirst(tokens, pos + 2, [FlowSequenceEndToken]);
  }

  lemma LastHollowGoes(tokens: seq<Token>, s: Style, e: Entry, d: Config, first: bool)
    requires GoodEntry(s, e, d.tags) && Hollow(s, e) && d.states != []
    requires Lies(tokens, d.pos, SpellEntry(s, e, first))
    requires Lies(tokens, d.pos + |SpellEntry(s, e, first)|, Tail(s, true))
    requires d.pos + |SpellEntry(s, e, first)| + |Tail(s, true)| < |tokens|
    ensures Goes(tokens, EntryStep(tokens, s, d, first), TellEntry(s, e, d.tags) + [EndOf(s)],
                 Pop(d, d.pos + |SpellEntry(s, e, first)| + |Tail(s, true)|))
  {
    hide FlowSequenceStep, Goes, Lies, SpellEntry, TellEntry, GoodEntry;
    HollowGoes(tokens, e, d, first);
  }

  lemma SequenceCloses(tokens: seq<Token>, c: Config)
    requires c.state.FlowSequenceEntry? && c.pos < |tokens| && tokens[c.pos].kind.FlowSequenceEndToken?
    ensures Goes(tokens, Step(tokens, c), [SequenceEnd], Pop(c, c.pos + 1))
  {
    GoesOnce(tokens, SequenceEnd, Pop(c, c.pos + 1));
    hide NodeStep;
  }
}
