/** The event language of the YAML engine.

    A document tree is flattened to the events that describe it; a stream is a
    word STREAM-START (DOCUMENT-START node DOCUMENT-END)* STREAM-END over such
    flattenings.  A `Zipper` is a partly read stream; `Feed` appends one event to
    it.  Nothing in this module refers to the parser or to the tree builder. */
module YamlEvents {

  datatype Option<+T> = None | Some(value: T)

  datatype TagDirective = TagDirective(handle: string, prefix: string)

  datatype Event =
    | NoEvent
    | StreamStart
    | StreamEnd
    | DocumentStart(version: Option<(nat, nat)>, tagDirectives: seq<TagDirective>)
    | DocumentEnd(implicit: bool)
    | AliasEvent(name: string)
    | ScalarEvent(anchor: Option<string>, tag: string, value: string, plainImplicit: bool, quotedImplicit: bool)
    | SequenceStart(anchor: Option<string>, tag: string, flow: bool)
    | SequenceEnd
    | MappingStart(anchor: Option<string>, tag: string, flow: bool)
    | MappingEnd

  /** A node together with the events that open and close it. */
  datatype Tree =
    | Leaf(event: Event)
    | Sequence(start: Event, items: seq<Tree>)
    | Mapping(start: Event, items: seq<Tree>)

  datatype Document = Document(start: Event, root: Tree, end: Event)

  ghost predicate ValidTree(t: Tree) {
    match t
    case Leaf(e) => e.AliasEvent? || e.ScalarEvent?
    case Sequence(s, items) => s.SequenceStart? && forall i | 0 <= i < |items| :: ValidTree(items[i])
    case Mapping(s, items) => s.MappingStart? && |items| % 2 == 0 && forall i | 0 <= i < |items| :: ValidTree(items[i])
  }

  ghost predicate ValidDocument(d: Document) {
    d.start.DocumentStart? && ValidTree(d.root) && d.end.DocumentEnd?
  }

  ghost predicate ValidDocuments(docs: seq<Document>) {
    forall i | 0 <= i < |docs| :: ValidDocument(docs[i])
  }

  function Flatten(t: Tree): seq<Event>
    decreases t, 0
  {
    match t
    case Leaf(e) => [e]
    case Sequence(s, items) => [s] + FlattenAll(items) + [SequenceEnd]
    case Mapping(s, items) => [s] + FlattenAll(items) + [MappingEnd]
  }

  function FlattenAll(ts: seq<Tree>): seq<Event>
    decreases ts, 1
  {
    if ts == [] then [] else FlattenAll(ts[..|ts| - 1]) + Flatten(ts[|ts| - 1])
  }

  function FlattenDocuments(docs: seq<Document>): seq<Event> {
    if docs == [] then []
    else
      var d := docs[|docs| - 1];
      FlattenDocuments(docs[..|docs| - 1]) + [d.start] + Flatten(d.root) + [d.end]
  }

  /** The word of a complete stream. */
  function Word(docs: seq<Document>): seq<Event> {
    [StreamStart] + FlattenDocuments(docs) + [StreamEnd]
  }

  /** A run of events that may still be continued to a complete stream. */
  ghost predicate IsPrefixOfStream(events: seq<Event>) {
    exists docs :: ValidDocuments(docs) && events <= Word(docs)
  }

  ghost predicate IsStream(events: seq<Event>) {
    exists docs :: ValidDocuments(docs) && events == Word(docs)
  }

  // ---------------------------------------------------------------- zippers

  /** An open collection: its start event and the children completed so far. */
  datatype Frame = Frame(start: Event, items: seq<Tree>)

  datatype Zipper =
    | Unstarted
    | Between(docs: seq<Document>)
    | Inside(docs: seq<Document>, start: Event, frames: seq<Frame>)
    | Closing(docs: seq<Document>, start: Event, root: Tree)
    | Finished(docs: seq<Document>)

  function Init<T>(s: seq<T>): (r: seq<T>)
    requires s != []
    ensures |r| == |s| - 1
  {
    s[..|s| - 1]
  }

  function Last<T>(s: seq<T>): T
    requires s != []
  {
    s[|s| - 1]
  }

  ghost predicate ValidFrames(fs: seq<Frame>) {
    forall i | 0 <= i < |fs| ::
      && (fs[i].start.SequenceStart? || fs[i].start.MappingStart?)
      && forall j | 0 <= j < |fs[i].items| :: ValidTree(fs[i].items[j])
  }

  ghost predicate ValidZipper(z: Zipper) {
    match z
    case Unstarted => true
    case Between(docs) => ValidDocuments(docs)
    case Inside(docs, s, fs) => ValidDocuments(docs) && s.DocumentStart? && ValidFrames(fs)
    case Closing(docs, s, t) => ValidDocuments(docs) && s.DocumentStart? && ValidTree(t)
    case Finished(docs) => ValidDocuments(docs)
  }

  function OpenEvents(fs: seq<Frame>): seq<Event> {
    if fs == [] then [] else OpenEvents(Init(fs)) + [Last(fs).start] + FlattenAll(Last(fs).items)
  }

  /** The events read so far. */
  function Emitted(z: Zipper): seq<Event> {
    match z
    case Unstarted => []
    case Between(docs) => [StreamStart] + FlattenDocuments(docs)
    case Inside(docs, s, fs) => [StreamStart] + FlattenDocuments(docs) + [s] + OpenEvents(fs)
    case Closing(docs, s, t) => [StreamStart] + FlattenDocuments(docs) + [s] + Flatten(t)
    case Finished(docs) => Word(docs)
  }

  function AddItem(fs: seq<Frame>, t: Tree): (r: seq<Frame>)
    requires fs != []
    ensures |r| == |fs| && Init(r) == Init(fs) && Last(r) == Frame(Last(fs).start, Last(fs).items + [t])
  {
    Init(fs) + [Frame(Last(fs).start, Last(fs).items + [t])]
  }

  /** The node that an open collection becomes when it is closed. */
  function Close(f: Frame): Tree {
    if f.start.MappingStart? then Mapping(f.start, f.items) else Sequence(f.start, f.items)
  }

  /** A completed node goes into the innermost open collection, or becomes the root. */
  function Complete(docs: seq<Document>, s: Event, fs: seq<Frame>, t: Tree): Zipper {
    if fs == [] then Closing(docs, s, t) else Inside(docs, s, AddItem(fs, t))
  }

  /** Which events may come next. */
  predicate CanFeed(z: Zipper, e: Event) {
    match z
    case Unstarted => e.StreamStart?
    case Between(_) => e.StreamEnd? || e.DocumentStart?
    case Closing(_, _, _) => e.DocumentEnd?
    case Finished(_) => false
    case Inside(_, _, fs) =>
      match e
      case AliasEvent(_) => true
      case ScalarEvent(_, _, _, _, _) => true
      case SequenceStart(_, _, _) => true
      case MappingStart(_, _, _) => true
      case SequenceEnd => fs != [] && Last(fs).start.SequenceStart?
      case MappingEnd => fs != [] && Last(fs).start.MappingStart? && |Last(fs).items| % 2 == 0
      case _ => false
  }

  function Feed(z: Zipper, e: Event): Zipper
    requires CanFeed(z, e)
  {
    match z
    case Unstarted => Between([])
    case Between(docs) => if e.StreamEnd? then Finished(docs) else Inside(docs, e, [])
    case Closing(docs, s, t) => Between(docs + [Document(s, t, e)])
    case Inside(docs, s, fs) =>
      if e.AliasEvent? || e.ScalarEvent? then Complete(docs, s, fs, Leaf(e))
      else if e.SequenceStart? || e.MappingStart? then Inside(docs, s, fs + [Frame(e, [])])
      else Complete(docs, s, Init(fs), Close(Last(fs)))
  }

  lemma FlattenAppend(ts: seq<Tree>, t: Tree)
    ensures FlattenAll(ts + [t]) == FlattenAll(ts) + Flatten(t)
  {
    var all := ts + [t];
    assert all[..|all| - 1] == ts;
  }

  lemma FeedEmits(z: Zipper, e: Event)
    requires ValidZipper(z) && CanFeed(z, e)
    ensures ValidZipper(Feed(z, e))
    ensures Emitted(Feed(z, e)) == Emitted(z) + [e]
  {
    hide ValidZipper, CanFeed, Feed, Emitted;
    match z
    case Unstarted => UnstartedEmits(e);
    case Between(docs) => BetweenEmits(docs, e);
    case Closing(docs, s, t) => CloserEmits(docs, s, t, e);
    case Inside(docs, s, fs) => InsideEmits(docs, s, fs, e);
    case Finished(docs) => NothingFollows(docs, e);
  }

  lemma NothingFollows(docs: seq<Document>, e: Event)
    ensures !CanFeed(Finished(docs), e)
  {
  }

  lemma UnstartedEmits(e: Event)
    requires CanFeed(Unstarted, e)
    ensures ValidZipper(Feed(Unstarted, e))
    ensures Emitted(Feed(Unstarted, e)) == Emitted(Unstarted) + [e]
  {
    assert FlattenDocuments([]) == [];
  }

  lemma BetweenEmits(docs: seq<Document>, e: Event)
    requires ValidZipper(Between(docs)) && CanFeed(Between(docs), e)
    ensures ValidZipper(Feed(Between(docs), e))
    ensures Emitted(Feed(Between(docs), e)) == Emitted(Between(docs)) + [e]
  {
    hide ValidDocuments, FlattenDocuments;
    assert OpenEvents([]) == [];
  }

  lemma CloserEmits(docs: seq<Document>, s: Event, t: Tree, e: Event)
    requires ValidZipper(Closing(docs, s, t)) && CanFeed(Closing(docs, s, t), e)
    ensures ValidZipper(Feed(Closing(docs, s, t), e))
    ensures Emitted(Feed(Closing(docs, s, t), e)) == Emitted(Closing(docs, s, t)) + [e]
  {
    hide ValidDocuments, FlattenDocuments, ValidTree, Flatten;
    ClosingEmits(docs, s, t, e);
  }

  lemma ClosingEmits(docs: seq<Document>, s: Event, t: Tree, e: Event)
    requires ValidDocuments(docs) && s.DocumentStart? && ValidTree(t) && e.DocumentEnd?
    ensures ValidDocuments(docs + [Document(s, t, e)])
    ensures FlattenDocuments(docs + [Document(s, t, e)]) == FlattenDocuments(docs) + [s] + Flatten(t) + [e]
  {
    hide ValidTree, Flatten;
    var all := docs + [Document(s, t, e)];
    assert all[..|all| - 1] == docs;
  }

  lemma InsideEmits(docs: seq<Document>, s: Event, fs: seq<Frame>, e: Event)
    requires ValidZipper(Inside(docs, s, fs)) && CanFeed(Inside(docs, s, fs), e)
    ensures ValidZipper(Feed(Inside(docs, s, fs), e))
    ensures Emitted(Feed(Inside(docs, s, fs), e)) == Emitted(Inside(docs, s, fs)) + [e]
  {
    hide ValidFrames, ValidDocuments, FlattenDocuments, OpenEvents, Complete, Close;
    if e.AliasEvent? || e.ScalarEvent? {
      CompleteEmits(docs, s, fs, Leaf(e));
      assert Flatten(Leaf(e)) == [e];
    } else if e.SequenceStart? || e.MappingStart? {
      OpenEmits(fs, e);
    } else {
      CloseEmits(fs, e);
      CompleteEmits(docs, s, Init(fs), Close(Last(fs)));
    }
  }

  lemma OpenEmits(fs: seq<Frame>, e: Event)
    requires ValidFrames(fs) && (e.SequenceStart? || e.MappingStart?)
    ensures ValidFrames(fs + [Frame(e, [])])
    ensures OpenEvents(fs + [Frame(e, [])]) == OpenEvents(fs) + [e]
  {
    var fs' := fs + [Frame(e, [])];
    assert Init(fs') == fs;
    assert Last(fs').items == [];
    assert FlattenAll([]) == [];
  }

  lemma CloseEmits(fs: seq<Frame>, e: Event)
    requires ValidFrames(fs) && fs != []
    requires if Last(fs).start.MappingStart? then e.MappingEnd? && |Last(fs).items| % 2 == 0 else e.SequenceEnd?
    ensures ValidFrames(Init(fs)) && ValidTree(Close(Last(fs)))
    ensures OpenEvents(Init(fs)) + Flatten(Close(Last(fs))) == OpenEvents(fs) + [e]
  {
    var f := Last(fs);
    assert Flatten(Close(f)) == [f.start] + FlattenAll(f.items) + [e];
  }

  lemma CompleteEmits(docs: seq<Document>, s: Event, fs: seq<Frame>, t: Tree)
    requires ValidDocuments(docs) && s.DocumentStart? && ValidFrames(fs) && ValidTree(t)
    ensures ValidZipper(Complete(docs, s, fs, t))
    ensures Emitted(Complete(docs, s, fs, t))
         == [StreamStart] + FlattenDocuments(docs) + [s] + (OpenEvents(fs) + Flatten(t))
  {
    if fs != [] {
      AddItemEmits(fs, t);
    }
  }

  lemma AddItemEmits(fs: seq<Frame>, t: Tree)
    requires fs != [] && ValidFrames(fs) && ValidTree(t)
    ensures ValidFrames(AddItem(fs, t))
    ensures OpenEvents(AddItem(fs, t)) == OpenEvents(fs) + Flatten(t)
  {
    var r := AddItem(fs, t);
    FlattenAppend(Last(fs).items, t);
    forall i | 0 <= i < |r|
      ensures r[i].start == fs[i].start && forall j | 0 <= j < |r[i].items| :: ValidTree(r[i].items[j])
    {
      assert i < |fs| - 1 ==> r[i] == Init(r)[i] == fs[i];
    }
  }

  // ------------------------------------------- every zipper can be completed

  const Filler := Leaf(ScalarEvent(None, "", "", true, false))

  /** The children of a closing frame: the pending child, padded to whole pairs in a mapping. */
  function Padded(f: Frame, t: Tree): seq<Tree> {
    var items := f.items + [t];
    if f.start.MappingStart? && |items| % 2 == 1 then items + [Filler] else items
  }

  /** Close every open collection, supplying a missing mapping value where one is due. */
  function Finish(fs: seq<Frame>, t: Tree): Tree
    decreases |fs|
  {
    if fs == [] then t
    else
      Finish(Init(fs), Close(Frame(Last(fs).start, Padded(Last(fs), t))))
  }

  lemma PaddedIsValid(f: Frame, t: Tree)
    requires f.start.SequenceStart? || f.start.MappingStart?
    requires ValidTree(t) && forall j | 0 <= j < |f.items| :: ValidTree(f.items[j])
    ensures ValidTree(Close(Frame(f.start, Padded(f, t))))
  {
    var padded := Padded(f, t);
    forall i | 0 <= i < |padded|
      ensures ValidTree(padded[i])
    {
      assert ValidTree(Filler);
    }
  }

  lemma PaddedExtends(f: Frame, t: Tree)
    ensures FlattenAll(f.items) + Flatten(t) <= FlattenAll(Padded(f, t))
  {
    FlattenAppend(f.items, t);
    FlattenAppend(f.items + [t], Filler);
  }

  lemma PrefixUnder<T>(open: seq<T>, outer: seq<T>, start: T, begun: seq<T>, pending: seq<T>, full: seq<T>, end: T)
    requires open == outer + [start] + begun
    requires begun + pending <= full
    ensures open + pending <= outer + ([start] + full + [end])
  {
    assert open + pending == outer + [start] + (begun + pending);
    assert outer + ([start] + full + [end]) == outer + [start] + full + [end];
  }

  /** One level of `Finish` only appends events. */
  lemma CloseExtends(fs: seq<Frame>, t: Tree)
    requires fs != [] && ValidFrames(fs)
    ensures OpenEvents(fs) + Flatten(t)
         <= OpenEvents(Init(fs)) + Flatten(Close(Frame(Last(fs).start, Padded(Last(fs), t))))
  {
    var f := Last(fs);
    PaddedExtends(f, t);
    PrefixUnder(OpenEvents(fs), OpenEvents(Init(fs)), f.start, FlattenAll(f.items), Flatten(t),
                FlattenAll(Padded(f, t)), if f.start.MappingStart? then MappingEnd else SequenceEnd);
  }

  lemma PrefixTrans<T>(a: seq<T>, b: seq<T>, c: seq<T>)
    requires a <= b <= c
    ensures a <= c
  {
  }

  lemma {:induction false} FinishExtends(fs: seq<Frame>, t: Tree)
    requires ValidFrames(fs) && ValidTree(t)
    ensures ValidTree(Finish(fs, t))
    ensures OpenEvents(fs) + Flatten(t) <= Flatten(Finish(fs, t))
    decreases |fs|
  {
    if fs == [] {
      assert OpenEvents(fs) + Flatten(t) == Flatten(t);
    } else {
      var c := Close(Frame(Last(fs).start, Padded(Last(fs), t)));
      PaddedIsValid(Last(fs), t);
      FinishExtends(Init(fs), c);
      CloseExtends(fs, t);
      PrefixTrans(OpenEvents(fs) + Flatten(t), OpenEvents(Init(fs)) + Flatten(c), Flatten(Finish(Init(fs), c)));
    }
  }

  /** Whatever a valid zipper has read is the beginning of some complete stream. */
  lemma EmittedIsPrefix(z: Zipper)
    requires ValidZipper(z)
    ensures IsPrefixOfStream(Emitted(z))
    ensures z.Finished? ==> IsStream(Emitted(z))
  {
    match z
    case Unstarted => assert Emitted(z) <= Word([]);
    case Between(docs) => assert Emitted(z) <= Word(docs);
    case Inside(docs, s, fs) =>
      FinishExtends(fs, Filler);
      ClosingIsPrefix(docs, s, Finish(fs, Filler), OpenEvents(fs));
    case Closing(docs, s, t) => ClosingIsPrefix(docs, s, t, Flatten(t));
    case Finished(docs) => assert Emitted(z) == Word(docs);
  }

  lemma LongerPrefix(a: seq<Event>, b: seq<Event>, begun: seq<Event>, whole: seq<Event>, c: seq<Event>, d: seq<Event>)
    requires begun <= whole
    ensures a + b + begun <= a + (b + whole + c) + d
  {
  }

  lemma ClosingIsPrefix(docs: seq<Document>, s: Event, t: Tree, begun: seq<Event>)
    requires ValidDocuments(docs) && s.DocumentStart? && ValidTree(t) && begun <= Flatten(t)
    ensures IsPrefixOfStream([StreamStart] + FlattenDocuments(docs) + [s] + begun)
  {
    hide ValidTree, Flatten, FlattenDocuments, ValidDocuments;
    var e := DocumentEnd(true);
    ClosingEmits(docs, s, t, e);
    var front := FlattenDocuments(docs) + [s];
    LongerPrefix([StreamStart], front, begun, Flatten(t), [e], [StreamEnd]);
    assert [StreamStart] + FlattenDocuments(docs) + [s] + begun == [StreamStart] + front + begun;
    assert [StreamStart] + front + begun <= Word(docs + [Document(s, t, e)]);
  }
}
