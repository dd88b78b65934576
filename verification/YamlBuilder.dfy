/** The tree builder: it turns the parser's events into a node tree by recursive
    descent, without checking that the events are well formed. */
module YamlBuilder {
  import opened YamlEvents

  datatype Kind = DocumentNode | MappingNode | SequenceNode | ScalarNode | AliasNode

  /** A node of the tree; `at` is the event it was made from and stands for its
      position in the source and its identity. */
  datatype Node = Node(kind: Kind, at: nat, tag: string, value: string, implicit: bool, children: seq<Node>)

  /** What the builder keeps of an event. */
  datatype Trace =
    | DocumentOpens | DocumentCloses | SequenceOpens | SequenceCloses | MappingOpens | MappingCloses
    | Scalar(tag: string, value: string, implicit: bool)
    | Alias(name: string)
    | Other

  function Kept(e: Event): Trace {
    match e
    case DocumentStart(_, _) => DocumentOpens
    case DocumentEnd(_) => DocumentCloses
    case SequenceStart(_, _, _) => SequenceOpens
    case SequenceEnd => SequenceCloses
    case MappingStart(_, _, _) => MappingOpens
    case MappingEnd => MappingCloses
    case ScalarEvent(_, tag, value, plain, _) => Scalar(tag, value, plain)
    case AliasEvent(name) => Alias(name)
    case _ => Other
  }

  function KeptAll(es: seq<Event>): (r: seq<Trace>)
    ensures |r| == |es|
  {
    seq(|es|, i requires 0 <= i < |es| => Kept(es[i]))
  }

  /** The events of a node tree. */
  function Unbuild(n: Node): seq<Trace>
    decreases n, 0
  {
    match n.kind
    case ScalarNode => [Scalar(n.tag, n.value, n.implicit)]
    case AliasNode => [Alias(n.value)]
    case SequenceNode => [SequenceOpens] + UnbuildAll(n.children) + [SequenceCloses]
    case MappingNode => [MappingOpens] + UnbuildAll(n.children) + [MappingCloses]
    case DocumentNode => [DocumentOpens] + UnbuildAll(n.children) + [DocumentCloses]
  }

  function UnbuildAll(ns: seq<Node>): seq<Trace>
    decreases ns, 1
  {
    if ns == [] then [] else UnbuildAll(ns[..|ns| - 1]) + Unbuild(ns[|ns| - 1])
  }

  /** The tree built for a node that starts at event `at`. */
  function Built(t: Tree, at: nat): Node
    decreases t, 0
  {
    match t
    case Leaf(AliasEvent(name)) => Node(AliasNode, at, "", name, false, [])
    case Leaf(ScalarEvent(_, tag, value, plain, _)) => Node(ScalarNode, at, tag, value, plain, [])
    case Leaf(_) => Node(ScalarNode, at, "", "", false, [])
    case Sequence(_, items) => Node(SequenceNode, at, "", "", false, BuiltAll(items, at + 1))
    case Mapping(_, items) => Node(MappingNode, at, "", "", false, BuiltAll(items, at + 1))
  }

  function BuiltAll(ts: seq<Tree>, at: nat): (r: seq<Node>)
    ensures |r| == |ts|
    decreases ts, 1
  {
    if ts == [] then []
    else
      var front := ts[..|ts| - 1];
      BuiltAll(front, at) + [Built(ts[|ts| - 1], at + |FlattenAll(front)|)]
  }

  lemma KeptAppend(a: seq<Event>, b: seq<Event>)
    ensures KeptAll(a + b) == KeptAll(a) + KeptAll(b)
  {
  }

  lemma KeptWrap(s: Event, es: seq<Event>, e: Event)
    ensures KeptAll([s] + es + [e]) == [Kept(s)] + KeptAll(es) + [Kept(e)]
  {
  }

  lemma ValidStarts(t: Tree)
    requires ValidTree(t)
    ensures t.Sequence? ==> t.start.SequenceStart?
    ensures t.Mapping? ==> t.start.MappingStart?
  {
  }

  lemma UnbuildCollection(t: Tree, at: nat)
    requires ValidTree(t) && !t.Leaf?
    requires UnbuildAll(BuiltAll(t.items, at + 1)) == KeptAll(FlattenAll(t.items))
    ensures Unbuild(Built(t, at)) == KeptAll(Flatten(t))
  {
    hide KeptAll, UnbuildAll, BuiltAll, FlattenAll, ValidTree;
    var inner := FlattenAll(t.items);
    match t
    case Sequence(start, _) =>
      KeptWrap(start, inner, SequenceEnd);
      assert Kept(start) == SequenceOpens by { ValidStarts(t); }
    case Mapping(start, _) =>
      KeptWrap(start, inner, MappingEnd);
      assert Kept(start) == MappingOpens by { ValidStarts(t); }
  }

  /** Unbuilding the built tree gives the node's events back. */
  lemma {:induction false} UnbuildBuilt(t: Tree, at: nat)
    requires ValidTree(t)
    ensures Unbuild(Built(t, at)) == KeptAll(Flatten(t))
    decreases t, 0
  {
    if !t.Leaf? {
      UnbuildBuiltAll(t.items, at + 1);
      UnbuildCollection(t, at);
      hide KeptAll, Unbuild, UnbuildAll, Built, BuiltAll, Flatten, FlattenAll;
    }
  }

  lemma {:induction false} UnbuildBuiltAll(ts: seq<Tree>, at: nat)
    requires forall i | 0 <= i < |ts| :: ValidTree(ts[i])
    ensures UnbuildAll(BuiltAll(ts, at)) == KeptAll(FlattenAll(ts))
    decreases ts, 1
  {
    if ts != [] {
      var front, last := ts[..|ts| - 1], ts[|ts| - 1];
      UnbuildBuiltAll(front, at);
      UnbuildBuilt(last, at + |FlattenAll(front)|);
      KeptAppend(FlattenAll(front), Flatten(last));
      var built := BuiltAll(ts, at);
      assert built[..|built| - 1] == BuiltAll(front, at);
    }
  }

  /** Every mapping node has as many keys as values. */
  ghost predicate Even(n: Node) {
    (n.kind.MappingNode? ==> |n.children| % 2 == 0) && forall i | 0 <= i < |n.children| :: Even(n.children[i])
  }

  lemma {:induction false} BuiltIsEven(t: Tree, at: nat)
    requires ValidTree(t)
    ensures Even(Built(t, at))
    decreases t, 0
  {
    match t
    case Leaf(e) =>
    case Sequence(_, items) => BuiltAllEven(items, at + 1);
    case Mapping(_, items) => BuiltAllEven(items, at + 1);
  }

  lemma {:induction false} BuiltAllEven(ts: seq<Tree>, at: nat)
    requires forall i | 0 <= i < |ts| :: ValidTree(ts[i])
    ensures forall i | 0 <= i < |ts| :: Even(BuiltAll(ts, at)[i])
    decreases ts, 1
  {
    if ts != [] {
      var front, last := ts[..|ts| - 1], ts[|ts| - 1];
      BuiltAllEven(front, at);
      BuiltIsEven(last, at + |FlattenAll(front)|);
      forall i | 0 <= i < |ts|
        ensures Even(BuiltAll(ts, at)[i])
      {
        assert i < |front| ==> BuiltAll(ts, at)[i] == BuiltAll(front, at)[i];
      }
    }
  }

  // ---------------------------------------------------------------- anchors

  function AnchorName(e: Event): Option<string> {
    match e
    case ScalarEvent(a, _, _, _, _) => a
    case SequenceStart(a, _, _) => a
    case MappingStart(a, _, _) => a
    case _ => None
  }

  /** Anchor names of `es`, whose first event is number `at`; the last use of a name wins. */
  function Anchors(es: seq<Event>, at: nat): map<string, nat> {
    if es == [] then map[]
    else
      var before := Anchors(es[..|es| - 1], at);
      match AnchorName(es[|es| - 1])
      case None => before
      case Some(a) => before[a := at + |es| - 1]
  }

  /** An anchor resolves to the last node before it that was given the name. */
  lemma {:induction false} AnchorsAreLast(es: seq<Event>, at: nat, a: string)
    ensures a in Anchors(es, at) <==> exists i :: 0 <= i < |es| && AnchorName(es[i]) == Some(a)
    ensures a in Anchors(es, at) ==>
              var i := Anchors(es, at)[a] - at;
              0 <= i < |es| && AnchorName(es[i]) == Some(a) && forall j | i < j < |es| :: AnchorName(es[j]) != Some(a)
  {
    if es != [] {
      var front := es[..|es| - 1];
      AnchorsAreLast(front, at, a);
      assert forall i | 0 <= i < |front| :: front[i] == es[i];
      assert AnchorName(es[|es| - 1]) == Some(a) ==> exists i :: 0 <= i < |es| && AnchorName(es[i]) == Some(a);
    }
  }

  // ---------------------------------------------------------- where things are

  /** From event `at` on, the source delivers `word`, as far as it delivers anything. */
  ghost predicate Reads(events: seq<Event>, at: nat, word: seq<Event>) {
    forall i {:trigger word[i]} | 0 <= i < |word| && at + i < |events| :: events[at + i] == word[i]
  }

  lemma ReadsPart(events: seq<Event>, at: nat, a: seq<Event>, b: seq<Event>, c: seq<Event>)
    requires Reads(events, at, a + b + c)
    ensures Reads(events, at + |a|, b) && Reads(events, at + |a| + |b|, c)
  {
    forall i | 0 <= i < |b| && at + |a| + i < |events|
      ensures events[at + |a| + i] == b[i]
    {
      assert (a + b + c)[|a| + i] == b[i];
    }
    forall i | 0 <= i < |c| && at + |a| + |b| + i < |events|
      ensures events[at + |a| + |b| + i] == c[i]
    {
      assert (a + b + c)[|a| + |b| + i] == c[i];
    }
  }

  /** Where child `k` lies among the events of its parent's children. */
  lemma {:induction false} ChildLies(ts: seq<Tree>, k: nat)
    requires k < |ts|
    ensures exists rest :: FlattenAll(ts) == FlattenAll(ts[..k]) + Flatten(ts[k]) + rest
    ensures FlattenAll(ts[..k + 1]) == FlattenAll(ts[..k]) + Flatten(ts[k])
    decreases |ts|
  {
    assert ts[..k + 1][..k] == ts[..k];
    if k + 1 == |ts| {
      assert ts[..k + 1] == ts;
      assert FlattenAll(ts) == FlattenAll(ts[..k]) + Flatten(ts[k]) + [];
    } else {
      var front := ts[..|ts| - 1];
      ChildLies(front, k);
      assert front[..k] == ts[..k];
      var rest :| FlattenAll(front) == FlattenAll(ts[..k]) + Flatten(ts[k]) + rest;
      assert FlattenAll(ts) == FlattenAll(ts[..k]) + Flatten(ts[k]) + (rest + Flatten(ts[|ts| - 1]));
    }
  }

  lemma ChildReads(events: seq<Event>, at: nat, ts: seq<Tree>, k: nat, end: Event)
    requires k < |ts| && Reads(events, at, FlattenAll(ts) + [end])
    ensures Reads(events, at + |FlattenAll(ts[..k])|, Flatten(ts[k]))
    ensures |FlattenAll(ts[..k + 1])| == |FlattenAll(ts[..k])| + |Flatten(ts[k])| <= |FlattenAll(ts)|
  {
    ChildLies(ts, k);
    var rest :| FlattenAll(ts) == FlattenAll(ts[..k]) + Flatten(ts[k]) + rest;
    assert FlattenAll(ts) + [end] == FlattenAll(ts[..k]) + Flatten(ts[k]) + (rest + [end]);
    ReadsPart(events, at, FlattenAll(ts[..k]), Flatten(ts[k]), rest + [end]);
  }

  lemma BuiltPrefix(ts: seq<Tree>, at: nat, k: nat)
    requires k < |ts|
    ensures BuiltAll(ts[..k + 1], at) == BuiltAll(ts[..k], at) + [Built(ts[k], at + |FlattenAll(ts[..k])|)]
  {
    assert ts[..k + 1][..k] == ts[..k];
  }

  lemma BuiltTwo(ts: seq<Tree>, at: nat, k: nat)
    requires k + 1 < |ts|
    ensures BuiltAll(ts[..k + 2], at) == BuiltAll(ts[..k], at)
            + [Built(ts[k], at + |FlattenAll(ts[..k])|), Built(ts[k + 1], at + |FlattenAll(ts[..k + 1])|)]
  {
    hide BuiltAll, Built, FlattenAll;
    BuiltPrefix(ts, at, k);
    BuiltPrefix(ts, at, k + 1);
  }

  lemma StartsNode(t: Tree)
    requires ValidTree(t)
    ensures |Flatten(t)| > 0
    ensures var e := Flatten(t)[0];
            && (e.AliasEvent? || e.ScalarEvent? <==> t.Leaf?)
            && (e.SequenceStart? <==> t.Sequence?) && (e.MappingStart? <==> t.Mapping?)
            && !e.SequenceEnd? && !e.MappingEnd? && !e.DocumentStart? && !e.StreamEnd?
  {
  }

  /** After `k` children the next event starts child `k`, or ends the collection. */
  lemma AtChild(events: seq<Event>, at: nat, ts: seq<Tree>, k: nat, end: Event)
    requires k <= |ts| && Reads(events, at, FlattenAll(ts) + [end]) && (end.SequenceEnd? || end.MappingEnd?)
    requires forall i | 0 <= i < |ts| :: ValidTree(ts[i])
    requires at + |FlattenAll(ts[..k])| < |events|
    ensures var e := events[at + |FlattenAll(ts[..k])|];
            if k == |ts| then e == end else !e.SequenceEnd? && !e.MappingEnd?
  {
    if k == |ts| {
      assert ts[..k] == ts;
      assert (FlattenAll(ts) + [end])[|FlattenAll(ts)|] == end;
    } else {
      ChildReads(events, at, ts, k, end);
      StartsNode(ts[k]);
      assert events[at + |FlattenAll(ts[..k])| + 0] == Flatten(ts[k])[0];
    }
  }

  lemma OpensCollection(events: seq<Event>, at: nat, t: Tree)
    requires !t.Leaf? && Reads(events, at, Flatten(t))
    ensures Reads(events, at + 1, FlattenAll(t.items) + [if t.Sequence? then SequenceEnd else MappingEnd])
    ensures |Flatten(t)| == |FlattenAll(t.items)| + 2 && FlattenAll(t.items[..0]) == [] && BuiltAll(t.items[..0], at + 1) == []
    ensures at < |events| ==> events[at] == t.start
  {
    var rest := FlattenAll(t.items) + [if t.Sequence? then SequenceEnd else MappingEnd];
    assert Flatten(t) == [t.start] + rest + [];
    ReadsPart(events, at, [t.start], rest, []);
    assert at < |events| ==> events[at + 0] == Flatten(t)[0];
  }

  lemma ReadsExactly(events: seq<Event>, at: nat, word: seq<Event>)
    requires Reads(events, at, word) && at + |word| <= |events|
    ensures events[at..at + |word|] == word
  {
    forall i | 0 <= i < |word|
      ensures events[at..at + |word|][i] == word[i]
    {
      assert events[at + i] == word[i];
    }
  }

  // ---------------------------------------------------------------- builder

  datatype Status = Running | Failed | Panicked

  class Builder {
    /** What the parser will deliver; running out of it is a parse error. */
    const events: seq<Event>
    var next: nat
    var event: Event
    var status: Status
    var anchors: map<string, nat>

    /** The current event is number `next - 1`; anchors are those since event `from`. */
    ghost predicate Valid(from: nat)
      reads this
    {
      && status.Running?
      && from < next <= |events|
      && event == events[next - 1]
      && anchors == Anchors(events[from..next - 1], from)
    }

    constructor (events: seq<Event>)
      ensures this.events == events && next == 0 && event == NoEvent && status == Running && anchors == map[]
    {
      this.events := events;
      next, event, status, anchors := 0, NoEvent, Running, map[];
    }

    /** Advance to the next event.  Going past the end of the stream is refused. */
    method Skip() returns (ok: bool)
      requires status.Running? && next <= |events|
      modifies this`next, this`event, this`status
      ensures ok <==> !old(event).StreamEnd? && old(next) < |events|
      ensures ok ==> next == old(next) + 1 && event == events[next - 1] && status.Running?
      ensures !ok ==> status.Failed?
    {
      if event.StreamEnd? || next == |events| {
        status := Failed;
        return false;
      }
      event := events[next];
      next := next + 1;
      ok := true;
    }

    /** Remember the current node under its anchor, then advance. */
    method AnchorAndSkip(anchor: Option<string>, ghost from: nat) returns (ok: bool)
      requires Valid(from) && anchor == AnchorName(event) && !event.StreamEnd?
      modifies this
      ensures ok <==> old(next) < |events|
      ensures ok ==> Valid(from) && next == old(next) + 1
      ensures !ok ==> status.Failed?
    {
      ghost var seen := events[from..next];
      assert seen[..|seen| - 1] == events[from..next - 1];
      if anchor.Some? {
        anchors := anchors[anchor.value := next - 1];
      }
      ok := Skip();
    }

    /** Read one node.  `t` is the tree the source is telling about. */
    method Parse(ghost t: Tree, ghost from: nat) returns (ok: bool, n: Node)
      requires Valid(from) && ValidTree(t) && Reads(events, next - 1, Flatten(t))
      modifies this
      ensures ok <==> old(next) - 1 + |Flatten(t)| < |events|
      ensures ok ==> Valid(from) && next == old(next) + |Flatten(t)| && n == Built(t, old(next) - 1)
      ensures !ok ==> status.Failed?
      decreases t, 2
    {
      StartsNode(t);
      assert Flatten(t)[0] == event;
      match event
      case ScalarEvent(anchor, tag, value, implicit, _) =>
        n := Node(ScalarNode, next - 1, tag, value, implicit, []);
        ok := AnchorAndSkip(anchor, from);
      case AliasEvent(name) =>
        n := Node(AliasNode, next - 1, "", name, false, []);
        ok := AnchorAndSkip(None, from);
      case MappingStart(_, _, _) =>
        ok, n := ParseMapping(t, from);
      case SequenceStart(_, _, _) =>
        ok, n := ParseSequence(t, from);
      case _ =>
        assert false;
    }

    /** The children of a collection: sequences take them one by one, mappings in pairs. */
    method ParseSequence(ghost t: Tree, ghost from: nat) returns (ok: bool, n: Node)
      requires Valid(from) && ValidTree(t) && t.Sequence? && Reads(events, next - 1, Flatten(t)) && event.SequenceStart?
      modifies this
      ensures ok <==> old(next) - 1 + |Flatten(t)| < |events|
      ensures ok ==> Valid(from) && next == old(next) + |Flatten(t)| && n == Built(t, old(next) - 1)
      ensures !ok ==> status.Failed?
      decreases t, 1
    {
      hide FlattenAll, Flatten, BuiltAll, Anchors, Reads;
      ghost var at, k := next, 0;
      OpensCollection(events, at - 1, t);
      n := Node(SequenceNode, next - 1, "", "", false, []);
      ok := AnchorAndSkip(event.anchor, from);
      if !ok { return; }
      AtChild(events, at, t.items, k, SequenceEnd);
      while !event.SequenceEnd?
        invariant ok && Valid(from) && k <= |t.items|
        invariant n == Node(SequenceNode, at - 1, "", "", false, BuiltAll(t.items[..k], at))
        invariant next - 1 == at + |FlattenAll(t.items[..k])|
        invariant event.SequenceEnd? <==> k == |t.items|
        decreases |t.items| - k
      {
        ChildReads(events, at, t.items, k, SequenceEnd);
        BuiltPrefix(t.items, at, k);
        var child;
        ok, child := Parse(t.items[k], from);
        if !ok { return; }
        n := n.(children := n.children + [child]);
        k := k + 1;
        AtChild(events, at, t.items, k, SequenceEnd);
      }
      assert t.items[..k] == t.items;
      ok := AnchorAndSkip(None, from);
    }

    method ParseMapping(ghost t: Tree, ghost from: nat) returns (ok: bool, n: Node)
      requires Valid(from) && ValidTree(t) && t.Mapping? && Reads(events, next - 1, Flatten(t)) && event.MappingStart?
      modifies this
      ensures ok <==> old(next) - 1 + |Flatten(t)| < |events|
      ensures ok ==> Valid(from) && next == old(next) + |Flatten(t)| && n == Built(t, old(next) - 1)
      ensures !ok ==> status.Failed?
      decreases t, 1
    {
      hide FlattenAll, Flatten, BuiltAll, Anchors, Reads;
      ghost var at, k := next, 0;
      OpensCollection(events, at - 1, t);
      n := Node(MappingNode, next - 1, "", "", false, []);
      ok := AnchorAndSkip(event.anchor, from);
      if !ok { return; }
      AtChild(events, at, t.items, k, MappingEnd);
      while !event.MappingEnd?
        invariant ok && Valid(from) && k <= |t.items| && k % 2 == 0
        invariant n == Node(MappingNode, at - 1, "", "", false, BuiltAll(t.items[..k], at))
        invariant next - 1 == at + |FlattenAll(t.items[..k])|
        invariant event.MappingEnd? <==> k == |t.items|
        decreases |t.items| - k
      {
        var key, value;
        ok, key, value := ParsePair(t, k, at, from);
        if !ok { return; }
        n := n.(children := n.children + [key, value]);
        k := k + 2;
        AtChild(events, at, t.items, k, MappingEnd);
      }
      assert t.items[..k] == t.items;
      ok := AnchorAndSkip(None, from);
    }

    /** Children `k` and `k + 1` of a mapping: the two operands of one append. */
    method ParsePair(ghost t: Tree, ghost k: nat, ghost at: nat, ghost from: nat) returns (ok: bool, key: Node, value: Node)
      requires Valid(from) && ValidTree(t) && t.Mapping? && k + 1 < |t.items|
      requires Reads(events, at, FlattenAll(t.items) + [MappingEnd]) && next - 1 == at + |FlattenAll(t.items[..k])|
      modifies this
      ensures !ok ==> status.Failed? && |events| <= at + |FlattenAll(t.items)|
      ensures ok ==> Valid(from) && next - 1 == at + |FlattenAll(t.items[..k + 2])|
      ensures ok ==> BuiltAll(t.items[..k + 2], at) == BuiltAll(t.items[..k], at) + [key, value]
      decreases t, 0, 1
    {
      hide FlattenAll, BuiltAll, Valid, Reads, ValidTree;
      ok, key := ParseChild(t, k, at, from);
      if !ok { value := key; return; }
      ok, value := ParseChild(t, k + 1, at, from);
      if !ok { return; }
      BuiltTwo(t.items, at, k);
    }

    /** Child `k` of the mapping whose children start at event `at`. */
    method ParseChild(ghost t: Tree, ghost k: nat, ghost at: nat, ghost from: nat) returns (ok: bool, n: Node)
      requires Valid(from) && ValidTree(t) && t.Mapping? && k < |t.items|
      requires Reads(events, at, FlattenAll(t.items) + [MappingEnd]) && next - 1 == at + |FlattenAll(t.items[..k])|
      modifies this
      ensures !ok ==> status.Failed? && |events| <= at + |FlattenAll(t.items)|
      ensures ok ==> Valid(from) && next - 1 == at + |FlattenAll(t.items[..k + 1])|
      ensures ok ==> n == Built(t.items[k], at + |FlattenAll(t.items[..k])|)
      decreases t, 0, 0
    {
      ChildReads(events, at, t.items, k, MappingEnd);
      ok, n := Parse(t.items[k], from);
    }

    /** Read one document: its start event, the root, its end event. */
    method ParseDocument(ghost d: Document) returns (ok: bool, n: Node)
      requires status.Running? && 0 < next <= |events| && event == events[next - 1] && event.DocumentStart?
      requires ValidDocument(d) && Reads(events, next - 1, [d.start] + Flatten(d.root) + [d.end])
      modifies this
      ensures ok <==> old(next) + |Flatten(d.root)| + 1 < |events|
      ensures !ok ==> status.Failed?
      ensures ok ==> next == old(next) + |Flatten(d.root)| + 2 && event == events[next - 1] && status.Running?
      ensures ok ==> n == Node(DocumentNode, old(next) - 1, "", "", false, [Built(d.root, old(next))])
      ensures ok ==> anchors == Anchors(Flatten(d.root), old(next))
    {
      ghost var at := next;
      ReadsPart(events, at - 1, [d.start], Flatten(d.root), [d.end]);
      n := Node(DocumentNode, next - 1, "", "", false, []);
      anchors := map[];
      ok := Skip();
      if !ok { return; }
      var child;
      assert events[at..next - 1] == [];
      ok, child := Parse(d.root, at);
      if !ok { return; }
      n := n.(children := n.children + [child]);
      assert event == [d.end][0];
      assert events[at..next - 1] == Flatten(d.root) by { ReadsExactly(events, at, Flatten(d.root)); }
      if !event.DocumentEnd? {
        assert false;
      }
      ok := Skip();
    }

    /** Start reading and build the first document, if there is one. */
    method ParseFirst(ghost docs: seq<Document>) returns (ok: bool, n: Option<Node>)
      requires next == 0 && event == NoEvent && status.Running?
      requires ValidDocuments(docs) && events <= Word(docs)
      modifies this
      ensures !status.Panicked? && (ok <==> status.Running?)
      ensures ok <==> Needed(docs) <= |events|
      ensures ok ==> n == FirstNode(docs) && (docs != [] ==> anchors == Anchors(Flatten(docs[0].root), 2))
    {
      hide Anchors, Built, Flatten, FlattenDocuments, ValidDocuments, Reads;
      FirstEvents(events, docs);
      n := None;
      ok := Skip();
      if !ok { return; }
      if !event.StreamStart? {
        assert false;
      }
      ok := Skip();
      if !ok { return; }
      if event.DocumentStart? {
        var doc;
        FirstReads(events, docs);
        ok, doc := ParseDocument(docs[0]);
        n := Some(doc);
      }
    }
  }

  /** The node of the first document, if there is one. */
  function FirstNode(docs: seq<Document>): Option<Node> {
    if docs == [] then None else Some(Node(DocumentNode, 1, "", "", false, [Built(docs[0].root, 2)]))
  }

  /** How many events that takes: up to the one behind the end of the document. */
  function Needed(docs: seq<Document>): nat {
    if docs == [] then 2 else |Flatten(docs[0].root)| + 4
  }

  function DocumentEvents(d: Document): seq<Event> {
    [d.start] + Flatten(d.root) + [d.end]
  }

  function LaterEvents(docs: seq<Document>): seq<Event>
    requires docs != []
  {
    if |docs| == 1 then [] else LaterEvents(docs[..|docs| - 1]) + DocumentEvents(docs[|docs| - 1])
  }

  lemma {:induction false} DocumentsSplit(docs: seq<Document>)
    requires docs != []
    ensures FlattenDocuments(docs) == DocumentEvents(docs[0]) + LaterEvents(docs)
    decreases |docs|
  {
    var front, d := docs[..|docs| - 1], docs[|docs| - 1];
    assert FlattenDocuments(docs) == FlattenDocuments(front) + DocumentEvents(d);
    if front != [] {
      DocumentsSplit(front);
    }
    hide FlattenDocuments, DocumentEvents;
  }

  lemma FirstDocument(docs: seq<Document>)
    ensures docs == [] ==> Word(docs) == [StreamStart, StreamEnd]
    ensures docs != [] ==> exists rest :: Word(docs) == [StreamStart] + DocumentEvents(docs[0]) + rest && rest != []
  {
    if docs != [] {
      DocumentsSplit(docs);
      assert Word(docs) == [StreamStart] + DocumentEvents(docs[0]) + (LaterEvents(docs) + [StreamEnd]);
    }
  }

  /** The first two events tell whether there is a document. */
  lemma FirstEvents(events: seq<Event>, docs: seq<Document>)
    requires ValidDocuments(docs) && events <= Word(docs)
    ensures |events| > 0 ==> events[0] == StreamStart
    ensures |events| > 1 ==> (docs != [] <==> events[1].DocumentStart?)
    ensures docs == [] ==> |events| <= 2
    ensures docs != [] ==> ValidDocument(docs[0])
  {
    hide Flatten, FlattenDocuments;
    FirstDocument(docs);
  }

  /** A whole word is enough. */
  lemma WordSuffices(docs: seq<Document>)
    ensures Needed(docs) <= |Word(docs)|
  {
    hide Flatten, FlattenDocuments;
    FirstDocument(docs);
  }

  lemma FirstReads(events: seq<Event>, docs: seq<Document>)
    requires docs != [] && events <= Word(docs)
    ensures Reads(events, 1, [docs[0].start] + Flatten(docs[0].root) + [docs[0].end])
  {
    FirstDocument(docs);
    var rest :| Word(docs) == [StreamStart] + DocumentEvents(docs[0]) + rest && rest != [];
    ReadsPart(events, 0, [StreamStart], DocumentEvents(docs[0]), rest);
  }
}
