/** The trees that events tell about: no word of the event language tells about two,
    and the events of a sentence of the token grammar tell about the tree that its
    syntax describes. */
module YamlTrees {
  import opened YamlEvents
  import opened YamlStep
  import opened YamlGrammar
  import opened YamlSentences

  // ---------------------------------------------------------- one word, one tree

  lemma {:induction false} FlattenJoins(a: seq<Tree>, b: seq<Tree>)
    ensures FlattenAll(a + b) == FlattenAll(a) + FlattenAll(b)
    decreases |b|
  {
    hide Flatten, FlattenAll;
    if b == [] {
      assert a + b == a && FlattenAll(b) == [] by { NothingFlat(); }
    } else {
      var front, last := b[..|b| - 1], b[|b| - 1];
      assert a + b == a + front + [last] && b == front + [last];
      FlattenJoins(a, front);
      FlattenAppend(a + front, last);
      FlattenAppend(front, last);
    }
  }

  lemma NothingFlat()
    ensures FlattenAll([]) == []
  {
  }

  lemma {:induction false} FlattenFirst(ts: seq<Tree>)
    requires ts != []
    ensures FlattenAll(ts) == Flatten(ts[0]) + FlattenAll(ts[1..])
  {
    hide Flatten;
    assert [ts[0]] + ts[1..] == ts;
    assert [ts[0]][..0] == [] && FlattenAll([ts[0]]) == Flatten(ts[0]);
    FlattenJoins([ts[0]], ts[1..]);
  }

  /** The first event tells leaves, sequences and mappings apart. */
  lemma FirstEvent(t: Tree, x: seq<Event>)
    requires ValidTree(t)
    ensures Flatten(t) != [] && (Flatten(t) + x)[0] == Flatten(t)[0]
    ensures var e := Flatten(t)[0];
            match t
            case Leaf(event) => e == event && (e.AliasEvent? || e.ScalarEvent?)
            case Sequence(start, _) => e == start && e.SequenceStart?
            case Mapping(start, _) => e == start && e.MappingStart?
  {
    hide FlattenAll;
  }

  /** The events of a collection, without its start. */
  lemma InnerEvents(t: Tree, x: seq<Event>)
    requires !t.Leaf?
    ensures (Flatten(t) + x)[1..] == FlattenAll(t.items) + ([if t.Sequence? then SequenceEnd else MappingEnd] + x)
  {
    hide FlattenAll;
  }

  lemma {:induction false} TreeUnique(t: Tree, u: Tree, x: seq<Event>, y: seq<Event>)
    requires ValidTree(t) && ValidTree(u) && Flatten(t) + x == Flatten(u) + y
    ensures t == u && x == y
    decreases t, 2
  {
    hide Flatten, FlattenAll;
    FirstEvent(t, x);
    FirstEvent(u, y);
    if t.Leaf? {
      LeafEvents(t, x);
      LeafEvents(u, y);
    } else {
      var end := if t.Sequence? then SequenceEnd else MappingEnd;
      InnerEvents(t, x);
      InnerEvents(u, y);
      ItemsUnique(t, t.items, u.items, [end] + x, [end] + y);
      assert ([end] + x)[1..] == x && ([end] + y)[1..] == y;
    }
  }

  lemma LeafEvents(t: Tree, x: seq<Event>)
    requires t.Leaf?
    ensures (Flatten(t) + x)[1..] == x
  {
  }

  predicate Closes(x: seq<Event>) {
    x != [] && (x[0].SequenceEnd? || x[0].MappingEnd?)
  }

  lemma {:induction false} ItemsUnique(t: Tree, ts: seq<Tree>, us: seq<Tree>, x: seq<Event>, y: seq<Event>)
    requires forall i | 0 <= i < |ts| :: ts[i] < t && ValidTree(ts[i])
    requires forall i | 0 <= i < |us| :: ValidTree(us[i])
    requires Closes(x) && Closes(y) && FlattenAll(ts) + x == FlattenAll(us) + y
    ensures ts == us && x == y
    decreases t, 1, |ts|
  {
    hide Flatten, FlattenAll;
    ItemsBegin(ts, x);
    ItemsBegin(us, y);
    if ts != [] && us != [] {
      TreeUnique(ts[0], us[0], FlattenAll(ts[1..]) + x, FlattenAll(us[1..]) + y);
      ItemsUnique(t, ts[1..], us[1..], x, y);
      assert ts == [ts[0]] + ts[1..] && us == [us[0]] + us[1..];
    }
  }

  /** The next event starts an item, or closes the collection. */
  lemma {:induction false} ItemsBegin(ts: seq<Tree>, x: seq<Event>)
    requires (forall i | 0 <= i < |ts| :: ValidTree(ts[i])) && Closes(x)
    ensures if ts == [] then FlattenAll(ts) + x == x else FlattenAll(ts) + x == Flatten(ts[0]) + (FlattenAll(ts[1..]) + x)
    ensures FlattenAll(ts) + x != []
    ensures var e := (FlattenAll(ts) + x)[0]; ts == [] <==> e.SequenceEnd? || e.MappingEnd?
  {
    hide Flatten, ValidTree;
    if ts == [] {
      assert FlattenAll(ts) + x == x;
    } else {
      FlattenFirst(ts);
      FirstEvent(ts[0], FlattenAll(ts[1..]) + x);
      assert FlattenAll(ts) + x == Flatten(ts[0]) + (FlattenAll(ts[1..]) + x);
    }
  }

  /** A document is told apart from what follows it. */
  lemma DocumentUnique(d: Document, e: Document, x: seq<Event>, y: seq<Event>)
    requires ValidDocument(d) && ValidDocument(e)
    requires [d.start] + Flatten(d.root) + [d.end] + x == [e.start] + Flatten(e.root) + [e.end] + y
    ensures d == e && x == y
  {
    hide Flatten;
    var a, b := [d.end] + x, [e.end] + y;
    assert [d.start] + Flatten(d.root) + [d.end] + x == [d.start] + (Flatten(d.root) + a);
    assert [e.start] + Flatten(e.root) + [e.end] + y == [e.start] + (Flatten(e.root) + b);
    assert ([d.start] + (Flatten(d.root) + a))[0] == d.start && ([e.start] + (Flatten(e.root) + b))[0] == e.start;
    assert ([d.start] + (Flatten(d.root) + a))[1..] == Flatten(d.root) + a;
    assert ([e.start] + (Flatten(e.root) + b))[1..] == Flatten(e.root) + b;
    TreeUnique(d.root, e.root, a, b);
    assert a[0] == d.end && a[1..] == x && b[0] == e.end && b[1..] == y;
  }

  lemma {:induction false} DocumentsJoin(a: seq<Document>, b: seq<Document>)
    ensures FlattenDocuments(a + b) == FlattenDocuments(a) + FlattenDocuments(b)
    decreases |b|
  {
    hide Flatten;
    if b == [] {
      assert a + b == a;
    } else {
      assert (a + b)[..|a + b| - 1] == a + b[..|b| - 1];
      DocumentsJoin(a, b[..|b| - 1]);
    }
  }

  lemma {:induction false} FirstDocumentFirst(ds: seq<Document>)
    requires ds != []
    ensures FlattenDocuments(ds) == [ds[0].start] + Flatten(ds[0].root) + [ds[0].end] + FlattenDocuments(ds[1..])
  {
    hide Flatten;
    assert [ds[0]] + ds[1..] == ds;
    assert [ds[0]][..0] == [] && FlattenDocuments([ds[0]]) == [] + [ds[0].start] + Flatten(ds[0].root) + [ds[0].end];
    assert [] + [ds[0].start] == [ds[0].start];
    DocumentsJoin([ds[0]], ds[1..]);
  }

  lemma {:induction false} DocumentsBegin(ds: seq<Document>)
    requires ValidDocuments(ds)
    ensures FlattenDocuments(ds) + [StreamEnd] != []
    ensures ds == [] <==> (FlattenDocuments(ds) + [StreamEnd])[0].StreamEnd?
  {
    hide Flatten;
    if ds != [] {
      FirstDocumentFirst(ds);
    }
  }

  lemma {:induction false} DocumentsUnique(a: seq<Document>, b: seq<Document>)
    requires ValidDocuments(a) && ValidDocuments(b)
    requires FlattenDocuments(a) + [StreamEnd] == FlattenDocuments(b) + [StreamEnd]
    ensures a == b
    decreases |a|
  {
    hide Flatten, FlattenDocuments;
    DocumentsBegin(a);
    DocumentsBegin(b);
    if a != [] {
      FirstDocumentFirst(a);
      FirstDocumentFirst(b);
      var x, y := FlattenDocuments(a[1..]) + [StreamEnd], FlattenDocuments(b[1..]) + [StreamEnd];
      assert FlattenDocuments(a) + [StreamEnd] == [a[0].start] + Flatten(a[0].root) + [a[0].end] + x;
      assert FlattenDocuments(b) + [StreamEnd] == [b[0].start] + Flatten(b[0].root) + [b[0].end] + y;
      DocumentUnique(a[0], b[0], x, y);
      DocumentsUnique(a[1..], b[1..]);
      assert a == [a[0]] + a[1..] && b == [b[0]] + b[1..];
    }
  }

  /** No stream of events can be read in two ways. */
  lemma WordUnique(a: seq<Document>, b: seq<Document>)
    requires ValidDocuments(a) && ValidDocuments(b) && Word(a) == Word(b)
    ensures a == b
  {
    hide FlattenDocuments, ValidDocuments;
    assert Word(a) == [StreamStart] + (FlattenDocuments(a) + [StreamEnd]) && Word(a)[1..] == FlattenDocuments(a) + [StreamEnd];
    assert Word(b) == [StreamStart] + (FlattenDocuments(b) + [StreamEnd]) && Word(b)[1..] == FlattenDocuments(b) + [StreamEnd];
    DocumentsUnique(a, b);
  }

  // --------------------------------------------------- the tree of a sentence

  function TreeOf(n: Syntax, tags: seq<TagDirective>): Tree
    decreases n, 0
  {
    match n
    case Collection(p, s, entries, _) =>
      if s.BlockMap? || s.FlowMap? then Mapping(StartOf(p, s, tags), ItemsOf(s, entries, tags))
      else Sequence(StartOf(p, s, tags), ItemsOf(s, entries, tags))
    case _ => Leaf(Tell(n, tags)[0])
  }

  function ItemsOf(s: Style, es: seq<Entry>, tags: seq<TagDirective>): seq<Tree>
    decreases es, 2
  {
    if es == [] then [] else EntryItems(s, es[0], tags) + ItemsOf(s, es[1..], tags)
  }

  function EntryItems(s: Style, e: Entry, tags: seq<TagDirective>): seq<Tree>
    decreases e, 1
  {
    if s.BlockMap? || s.FlowMap? then [TreeOf(e.key, tags), TreeOf(e.value, tags)]
    else if s.FlowSeq? && e.keyed then [Mapping(MappingStart(None, "", true), [TreeOf(e.key, tags), TreeOf(e.value, tags)])]
    else [TreeOf(e.key, tags)]
  }

  ghost predicate ValidTrees(ts: seq<Tree>) {
    forall i | 0 <= i < |ts| :: ValidTree(ts[i])
  }

  /** The tree is well formed, and the node tells about it. */
  lemma {:induction false} TreeTold(n: Syntax, tags: seq<TagDirective>)
    ensures ValidTree(TreeOf(n, tags)) && Flatten(TreeOf(n, tags)) == Tell(n, tags)
    decreases n, 0
  {
    match n
    case Collection(p, s, entries, _) =>
      hide TellEntries, FlattenAll;
      ItemsTold(s, entries, tags);
    case _ => assert |Tell(n, tags)| == 1;
  }

  lemma {:induction false} ItemsTold(s: Style, es: seq<Entry>, tags: seq<TagDirective>)
    ensures ValidTrees(ItemsOf(s, es, tags)) && FlattenAll(ItemsOf(s, es, tags)) == TellEntries(s, es, tags)
    ensures s.BlockMap? || s.FlowMap? ==> |ItemsOf(s, es, tags)| % 2 == 0
    decreases es, 2
  {
    hide EntryItems, TellEntry, ValidTree, Flatten;
    if es != [] {
      EntryTold(s, es[0], tags);
      ItemsTold(s, es[1..], tags);
      FlattenJoins(EntryItems(s, es[0], tags), ItemsOf(s, es[1..], tags));
    }
  }

  lemma {:induction false} EntryTold(s: Style, e: Entry, tags: seq<TagDirective>)
    ensures ValidTrees(EntryItems(s, e, tags)) && FlattenAll(EntryItems(s, e, tags)) == TellEntry(s, e, tags)
    ensures s.BlockMap? || s.FlowMap? ==> |EntryItems(s, e, tags)| == 2
    decreases e, 1
  {
    hide TreeOf, Tell, FlattenAll, Flatten, ValidTree;
    TreeTold(e.key, tags);
    TreeTold(e.value, tags);
    var k, v := TreeOf(e.key, tags), TreeOf(e.value, tags);
    OneFlat(k);
    TwoFlat(k, v);
    PairFlat(k, v);
  }

  /** A single-pair mapping. */
  lemma {:induction false} PairFlat(k: Tree, v: Tree)
    requires ValidTree(k) && ValidTree(v)
    ensures var pair := Mapping(MappingStart(None, "", true), [k, v]);
            && ValidTree(pair)
            && FlattenAll([pair]) == [MappingStart(None, "", true)] + (Flatten(k) + (Flatten(v) + [MappingEnd]))
  {
    var pair := Mapping(MappingStart(None, "", true), [k, v]);
    TwoFlat(k, v);
    OneFlat(pair);
    hide FlattenAll;
    assert Flatten(pair) == [MappingStart(None, "", true)] + (Flatten(k) + (Flatten(v) + [MappingEnd]));
  }

  lemma {:induction false} OneFlat(t: Tree)
    ensures FlattenAll([t]) == Flatten(t)
  {
    hide Flatten;
    assert [t][..0] == [];
  }

  lemma {:induction false} TwoFlat(t: Tree, u: Tree)
    ensures FlattenAll([t, u]) == Flatten(t) + Flatten(u)
  {
    hide Flatten, FlattenAll;
    OneFlat(t);
    OneFlat(u);
    assert [t] + [u] == [t, u];
    FlattenJoins([t], [u]);
  }

  function DocumentOf(d: DocumentSyntax): Document {
    Document(TellDocument(d)[0], TreeOf(d.root, DocumentTags(d)), DocumentEnd(d.ends == 0))
  }

  function DocumentsOf(ds: seq<DocumentSyntax>): (r: seq<Document>)
    ensures |r| == |ds|
  {
    if ds == [] then [] else [DocumentOf(ds[0])] + DocumentsOf(ds[1..])
  }

  /** What a sentence tells is the word of its documents. */
  lemma {:induction false} SentenceTold(ds: seq<DocumentSyntax>)
    ensures ValidDocuments(DocumentsOf(ds)) && [StreamStart] + TellDocuments(ds) == Word(DocumentsOf(ds))
  {
    hide FlattenDocuments, ValidDocuments, TellDocuments;
    DocumentsTold(ds);
    assert Word(DocumentsOf(ds)) == [StreamStart] + (FlattenDocuments(DocumentsOf(ds)) + [StreamEnd]);
  }

  lemma {:induction false} DocumentsTold(ds: seq<DocumentSyntax>)
    ensures ValidDocuments(DocumentsOf(ds)) && FlattenDocuments(DocumentsOf(ds)) + [StreamEnd] == TellDocuments(ds)
    decreases |ds|
  {
    hide TreeOf, Tell, TellDocument, DocumentOf, Flatten;
    if ds != [] {
      DocumentsTold(ds[1..]);
      DocumentTold(ds[0]);
      FirstDocumentFirst(DocumentsOf(ds));
      assert DocumentsOf(ds)[1..] == DocumentsOf(ds[1..]);
      hide FlattenDocuments;
    }
  }

  lemma DocumentTold(d: DocumentSyntax)
    ensures ValidDocument(DocumentOf(d))
    ensures TellDocument(d) == [DocumentOf(d).start] + Flatten(DocumentOf(d).root) + [DocumentOf(d).end]
  {
    TreeTold(d.root, DocumentTags(d));
    hide TreeOf, Tell, Flatten;
  }
}
